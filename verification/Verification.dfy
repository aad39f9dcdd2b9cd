/**
 Parameter writes and reads as the job payloads carry them, the write-verification
 rule, and the opening of sealed secret handles.
 */
module Verification {
  import opened Options
  import opened Paths

  datatype Text = Text(chars: string)

  /** A parameter to write. A write with a secret handle stores no value of its own. */
  datatype ParameterWrite = ParameterWrite(name: Path, value: Text, kind: Text, handle: Option<Text>)

  /** One entry of a GetParameterValuesResponse. */
  datatype Reading = Reading(name: Path, value: Text)

  /** The response list as a dictionary; a later entry overwrites an earlier one. */
  function Dictionary(list: seq<Reading>): map<Path, Text> {
    if list == [] then map[]
    else Dictionary(list[..|list| - 1])[list[|list| - 1].name := list[|list| - 1].value]
  }

  function LowerChar(c: char): char {
    if 'A' <= c <= 'Z' then c - 'A' + 'a' else c
  }

  function Lower(s: string): string {
    seq(|s|, i requires 0 <= i < |s| => LowerChar(s[i]))
  }

  predicate Contains(s: string, word: string) {
    exists i :: 0 <= i <= |s| - |word| && word <= s[i..]
  }

  const SENSITIVE_WORDS := ["password", "passphrase", "presharedkey", "secret", "token", "privatekey"]

  predicate SensitivePath(path: Path) {
    exists k :: 0 <= k < |SENSITIVE_WORDS| && Contains(Lower(path.text), SENSITIVE_WORDS[k])
  }

  /** A parameter the read-back does not check: its value is secret, or discovery knows it cannot be read. */
  predicate Skipped(name: Path, nonReadable: set<Path>) {
    SensitivePath(name) || name in nonReadable
  }

  function VerificationPaths(params: seq<ParameterWrite>, nonReadable: set<Path>): seq<Path> {
    if params == [] then []
    else
      var before := VerificationPaths(params[..|params| - 1], nonReadable);
      var name := params[|params| - 1].name;
      if Skipped(name, nonReadable) then before else before + [name]
  }

  predicate IsBoolean(kind: Text) {
    kind.chars == "boolean" || kind.chars == "xsd:boolean"
  }

  function NormalizeBool(value: Text): Text {
    if value.chars == "1" then Text("true") else if value.chars == "0" then Text("false") else value
  }

  /** The CPE reports the value that was written, up to the two spellings of a boolean. */
  predicate SameValue(p: ParameterWrite, reported: Text) {
    if IsBoolean(p.kind) then NormalizeBool(p.value) == NormalizeBool(reported) else p.value == reported
  }

  /** A read-back confirms a write: every checked parameter is reported with the value written, and there is one. */
  predicate Confirms(params: seq<ParameterWrite>, nonReadable: set<Path>, actual: map<Path, Text>) {
    && (forall i :: 0 <= i < |params| && !Skipped(params[i].name, nonReadable) ==>
                      params[i].name in actual && SameValue(params[i], actual[params[i].name]))
    && (exists i :: 0 <= i < |params| && !Skipped(params[i].name, nonReadable))
  }

  datatype Check = Check(matched: seq<Path>, mismatched: seq<Path>, missing: seq<Path>, skipped: seq<Path>)
  {
    /** The condition completeJob tests before it reports the write as verified. */
    predicate Success() {
      |mismatched| == 0 && |missing| == 0 && |matched| > 0
    }
  }

  /** jobs.CompareReadback: the four path lists decide exactly whether the read-back confirms the write. */
  method CompareReadback(params: seq<ParameterWrite>, nonReadable: set<Path>, actual: map<Path, Text>) returns (check: Check)
    ensures check.Success() <==> Confirms(params, nonReadable, actual)
    ensures |check.matched| + |check.mismatched| + |check.missing| == |VerificationPaths(params, nonReadable)|
    ensures |check.skipped| + |VerificationPaths(params, nonReadable)| == |params|
  {
    check := Check([], [], [], []);
    for k := 0 to |params|
      invariant |check.mismatched| == 0 && |check.missing| == 0 <==>
                forall i :: 0 <= i < k && !Skipped(params[i].name, nonReadable) ==>
                              params[i].name in actual && SameValue(params[i], actual[params[i].name])
      invariant |check.matched| > 0 ==> exists i :: 0 <= i < k && !Skipped(params[i].name, nonReadable)
      invariant (exists i :: 0 <= i < k && !Skipped(params[i].name, nonReadable)) ==>
          |check.matched| + |check.mismatched| + |check.missing| > 0
      invariant |check.matched| + |check.mismatched| + |check.missing| == |VerificationPaths(params[..k], nonReadable)|
      invariant |check.skipped| + |VerificationPaths(params[..k], nonReadable)| == k
    {
      var p := params[k];
      assert params[..k + 1][..k] == params[..k];
      if Skipped(p.name, nonReadable) {
        check := check.(skipped := check.skipped + [p.name]);
      } else if p.name !in actual {
        check := check.(missing := check.missing + [p.name]);
      } else if SameValue(p, actual[p.name]) {
        check := check.(matched := check.matched + [p.name]);
      } else {
        check := check.(mismatched := check.mismatched + [p.name]);
      }
    }
    assert params[..|params|] == params;
  }

  /** A write can be verified exactly when it has a verification path; a confirmed write has one. */
  lemma ConfirmedHasPath(params: seq<ParameterWrite>, nonReadable: set<Path>)
    ensures VerificationPaths(params, nonReadable) != [] <==>
            exists i :: 0 <= i < |params| && !Skipped(params[i].name, nonReadable)
  {
  }

  /** A search path or partial path is answered by the agent and never counted as missing. */
  predicate IsPartialPath(path: Path) {
    IsObject(path) || exists i :: 0 <= i < |path.text| && path.text[i] in "*[{("
  }

  predicate AnyMissing(paths: seq<Path>, actual: map<Path, Text>) {
    exists i :: 0 <= i < |paths| && !IsPartialPath(paths[i]) && paths[i] !in actual
  }

  /** The write list with every sealed handle replaced by its value: what a correct dispatch renders. */
  function Substitute(params: seq<ParameterWrite>, vault: map<Text, Text>): seq<ParameterWrite>
    requires Openable(params, vault)
  {
    seq(|params|, i requires 0 <= i < |params| => Plain(params[i], vault))
  }

  function Plain(p: ParameterWrite, vault: map<Text, Text>): ParameterWrite
    requires p.handle.Some? ==> p.handle.value in vault
  {
    if p.handle.None? then p else p.(value := vault[p.handle.value], handle := None)
  }

  predicate Openable(params: seq<ParameterWrite>, vault: map<Text, Text>) {
    forall i :: 0 <= i < |params| && params[i].handle.Some? ==> params[i].handle.value in vault
  }

  /** The distinct handles of a write list, in order of first use. */
  function Handles(params: seq<ParameterWrite>): seq<Text> {
    if params == [] then []
    else
      var before := Handles(params[..|params| - 1]);
      var handle := params[|params| - 1].handle;
      if handle.Some? && handle.value !in before then before + [handle.value] else before
  }

  lemma HandlesAreDistinct(params: seq<ParameterWrite>)
    ensures forall i, j :: 0 <= i < j < |Handles(params)| ==> Handles(params)[i] != Handles(params)[j]
    ensures forall h :: h in Handles(params) <==> exists i :: 0 <= i < |params| && params[i].handle == Some(h)
  {
  }

  /** How far openSecretHandles gets: up to and including the first parameter whose handle cannot be opened, or to the end. */
  function Reached(params: seq<ParameterWrite>, vault: map<Text, Text>): (n: nat)
    ensures n <= |params| && (Openable(params, vault) ==> n == |params|)
  {
    if params == [] then 0
    else if params[0].handle.Some? && params[0].handle.value !in vault then 1
    else 1 + Reached(params[1..], vault)
  }

  /** The handles it opens or tries to open. */
  function Tried(params: seq<ParameterWrite>, vault: map<Text, Text>): seq<Text> {
    Handles(params[..Reached(params, vault)])
  }

  function Without(vault: map<Text, Text>, handles: seq<Text>): map<Text, Text> {
    vault - (set h | h in handles)
  }

  /** One parameter further, a new handle is tried and used up. */
  lemma NextHandle(params: seq<ParameterWrite>, vault: map<Text, Text>, i: nat)
    requires i < |params|
    ensures var before := Handles(params[..i]);
            var handle := params[i].handle;
            if handle.Some? && handle.value !in before
            then Handles(params[..i + 1]) == before + [handle.value] && Without(vault, Handles(params[..i + 1])) == Without(vault, before) - {handle.value}
            else Handles(params[..i + 1]) == before
  {
    assert params[..i + 1][..i] == params[..i];
  }

  lemma NextPlain(params: seq<ParameterWrite>, vault: map<Text, Text>, i: nat)
    requires i < |params| && Openable(params[..i], vault) && (params[i].handle.Some? ==> params[i].handle.value in vault)
    ensures Openable(params[..i + 1], vault) && Substitute(params[..i + 1], vault) == Substitute(params[..i], vault) + [Plain(params[i], vault)]
  {
  }

  /** At the first handle that cannot be opened, it is the last one tried, and nothing more is used up. */
  lemma TriedAtFailure(params: seq<ParameterWrite>, vault: map<Text, Text>, i: nat)
    requires i < |params| && Openable(params[..i], vault) && params[i].handle.Some? && params[i].handle.value !in vault
    ensures var before := Handles(params[..i]);
            params[i].handle.value !in before ==>
              Tried(params, vault) == before + [params[i].handle.value] && Without(vault, Tried(params, vault)) == Without(vault, before)
  {
    ReachedFirst(params, vault, i);
    assert params[..i + 1][..i] == params[..i];
  }

  lemma {:induction false} ReachedFirst(params: seq<ParameterWrite>, vault: map<Text, Text>, i: nat)
    requires i < |params| && Openable(params[..i], vault) && params[i].handle.Some? && params[i].handle.value !in vault
    ensures Reached(params, vault) == i + 1
  {
    if i > 0 {
      assert params[..i][0] == params[0];
      assert params[1..][..i - 1] == params[..i][1..];
      ReachedFirst(params[1..], vault, i - 1);
    }
  }

  /** The sealed-secret store: opening a handle deletes it, so a second Open of the same handle fails. */
  class SecretStore {
    var vault: map<Text, Text>
    var calls: seq<Text>

    constructor (contents: map<Text, Text>)
      ensures vault == contents && calls == []
    {
      vault, calls := contents, [];
    }

    method Open(handle: Text) returns (value: Option<Text>)
      modifies this
      ensures calls == old(calls) + [handle]
      ensures value == (if handle in old(vault) then Some(old(vault)[handle]) else None)
      ensures vault == old(vault) - {handle}
    {
      value := if handle in vault then Some(vault[handle]) else None;
      calls := calls + [handle];
      vault := vault - {handle};
    }

    /**
     openSecretHandles: one pass with a memo of the handles already opened. It
     succeeds exactly when every handle can be opened and renders the plain
     substitution. Each distinct handle is opened once, up to the first that cannot be;
     what was opened is used up, on failure too.
     */
    method OpenSecretHandles(params: seq<ParameterWrite>) returns (r: Option<seq<ParameterWrite>>)
      modifies this
      ensures r.Some? <==> Openable(params, old(vault))
      ensures r.Some? ==> r.value == Substitute(params, old(vault))
      ensures calls == old(calls) + Tried(params, old(vault))
      ensures vault == Without(old(vault), Tried(params, old(vault)))
    {
      var values: map<Text, Text> := map[];
      var rendered: seq<ParameterWrite> := [];
      ghost var contents := vault;
      for i := 0 to |params|
        invariant Openable(params[..i], contents) && rendered == Substitute(params[..i], contents)
        invariant Remembers(values, Handles(params[..i]), contents)
        invariant vault == Without(contents, Handles(params[..i]))
        invariant calls == old(calls) + Handles(params[..i])
      {
        var p := params[i];
        NextHandle(params, contents, i);
        if p.handle.Some? {
          if p.handle.value !in values {
            var v := Open(p.handle.value);
            if v.None? {
              assert p.handle.value !in contents;
              TriedAtFailure(params, contents, i);
              return None;
            }
            values := values[p.handle.value := v.value];
          }
          rendered := rendered + [p.(value := values[p.handle.value], handle := None)];
        } else {
          rendered := rendered + [p];
        }
        NextPlain(params, contents, i);
      }
      assert params[..|params|] == params;
      r := Some(rendered);
    }
  }

  /** The memo holds exactly the handles opened so far, with their values. */
  ghost predicate Remembers(values: map<Text, Text>, handles: seq<Text>, vault: map<Text, Text>) {
    forall h :: (h in values <==> h in handles) && (h in values ==> h in vault && values[h] == vault[h])
  }

  /** Nothing sealed is left after substitution, equal handles get equal values, and plain writes are untouched. */
  lemma SubstituteLeavesNoHandle(params: seq<ParameterWrite>, vault: map<Text, Text>)
    requires Openable(params, vault)
    ensures forall i :: 0 <= i < |params| ==> Substitute(params, vault)[i].handle.None?
    ensures |Substitute(params, vault)| == |params|
    ensures forall i :: 0 <= i < |params| ==> Substitute(params, vault)[i].name == params[i].name
    ensures forall i :: 0 <= i < |params| && params[i].handle.None? ==> Substitute(params, vault)[i] == params[i]
    ensures forall i, j :: 0 <= i < |params| && 0 <= j < |params| && params[i].handle.Some? && params[i].handle == params[j].handle ==>
                             Substitute(params, vault)[i].value == Substitute(params, vault)[j].value
  {
  }
}
