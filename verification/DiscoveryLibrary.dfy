/**
 The discovery library: one entry per firmware, into which every exported walk of that
 firmware is merged, kept as a tab-separated file that is read back before each merge.
 */
module DiscoveryLibrary {
  import opened Paths
  import Verification

  type Text = Verification.Text

  datatype Param = Param(writable: bool, kind: Text)

  type Params = map<Path, Param>

  const NO_TYPE := Verification.Text("")

  /** The entry of one firmware: its parameters, and the objects no walk could observe. */
  datatype Entry = Entry(params: Params, neverObserved: set<Path>)

  const BLANK := Entry(map[], {})

  /** One walk: the names it found with their access, the value types known for some, and the objects it skipped. */
  datatype Snapshot = Snapshot(names: map<Path, bool>, types: map<Path, Text>, skipped: set<Path>)

  function CurrentOf(params: Params, path: Path): Param {
    if path in params then params[path] else Param(false, NO_TYPE)
  }

  function TypeOf(types: map<Path, Text>, path: Path, otherwise: Text): Text {
    if path in types && types[path] != NO_TYPE then types[path] else otherwise
  }

  function MergedRow(params: Params, s: Snapshot, path: Path): Param {
    var current := CurrentOf(params, path);
    if path in s.names then Param(current.writable || s.names[path], TypeOf(s.types, path, current.kind)) else current
  }

  /** The parameters after the merge loop. */
  function Merged(params: Params, s: Snapshot): (r: Params)
    ensures r.Keys == params.Keys + s.names.Keys
    ensures forall p :: p in r ==> r[p] == MergedRow(params, s, p)
  {
    map p | p in params.Keys + s.names.Keys :: MergedRow(params, s, p)
  }

  function Export(e: Entry, s: Snapshot): Entry {
    var params := Merged(e.params, s);
    Entry(params, (e.neverObserved + s.skipped) - params.Keys)
  }

  function Exports(snapshots: seq<Snapshot>): Entry {
    if snapshots == [] then BLANK else Export(Exports(snapshots[..|snapshots| - 1]), snapshots[|snapshots| - 1])
  }

  ghost predicate Found(snapshots: seq<Snapshot>, path: Path) {
    exists i :: 0 <= i < |snapshots| && path in snapshots[i].names
  }

  ghost predicate FoundWritable(snapshots: seq<Snapshot>, path: Path) {
    exists i :: 0 <= i < |snapshots| && path in snapshots[i].names && snapshots[i].names[path]
  }

  lemma FoundExtends(snapshots: seq<Snapshot>, path: Path)
    requires snapshots != []
    ensures var n := |snapshots| - 1;
            && (Found(snapshots, path) <==> Found(snapshots[..n], path) || path in snapshots[n].names)
            && (FoundWritable(snapshots, path) <==>
                FoundWritable(snapshots[..n], path) || (path in snapshots[n].names && snapshots[n].names[path]))
  {
  }

  /**
   However many walks are exported, in any order, the entry holds exactly the union of
   their paths, a path is writable exactly when some walk found it writable, and no
   path it holds is listed as never observed.
   */
  lemma {:induction false} EntryIsUnion(snapshots: seq<Snapshot>, path: Path)
    ensures var e := Exports(snapshots);
            && (path in e.params <==> Found(snapshots, path))
            && (path in e.params ==> (e.params[path].writable <==> FoundWritable(snapshots, path)))
            && !(path in e.params && path in e.neverObserved)
  {
    if snapshots != [] {
      EntryIsUnion(snapshots[..|snapshots| - 1], path);
      FoundExtends(snapshots, path);
      if FoundWritable(snapshots[..|snapshots| - 1], path) {
        var before := snapshots[..|snapshots| - 1];
        var i :| 0 <= i < |before| && path in before[i].names && before[i].names[path];
        assert Found(before, path);
      }
    }
  }

  /** Exporting the same walk again changes no parameter row. */
  lemma ExportTwice(e: Entry, s: Snapshot)
    ensures Export(Export(e, s), s).params == Export(e, s).params
  {
  }

  /** A walk the entry already covers: its paths are there, with at least its access. */
  ghost predicate Covers(e: Entry, s: Snapshot) {
    forall p :: p in s.names ==> p in e.params && (s.names[p] ==> e.params[p].writable)
  }

  lemma ExportedIsCovered(snapshots: seq<Snapshot>, i: nat)
    requires i < |snapshots|
    ensures Covers(Exports(snapshots), snapshots[i])
  {
    forall p | p in snapshots[i].names
      ensures p in Exports(snapshots).params && (snapshots[i].names[p] ==> Exports(snapshots).params[p].writable)
    {
      EntryIsUnion(snapshots, p);
    }
  }

  /** Exported again after any others, a walk adds no path and no access; a row changes exactly when the walk names another type for it. */
  lemma ReexportChangesOnlyTypes(snapshots: seq<Snapshot>, i: nat, path: Path)
    requires i < |snapshots|
    ensures var e := Exports(snapshots);
            var s := snapshots[i];
            var again := Exports(snapshots + [s]);
            && again.params.Keys == e.params.Keys
            && (path in e.params ==>
                  && again.params[path].writable == e.params[path].writable
                  && (again.params[path] != e.params[path] <==>
                      path in s.names && path in s.types && s.types[path] != NO_TYPE && s.types[path] != e.params[path].kind))
  {
    ExportedIsCovered(snapshots, i);
    CoveredChangesOnlyTypes(Exports(snapshots), snapshots[i], path);
    assert (snapshots + [snapshots[i]])[..|snapshots|] == snapshots;
  }

  lemma CoveredChangesOnlyTypes(e: Entry, s: Snapshot, path: Path)
    requires Covers(e, s)
    ensures Export(e, s).params.Keys == e.params.Keys
    ensures path in e.params ==> Export(e, s).params[path].writable == e.params[path].writable
    ensures path in e.params ==>
              (Export(e, s).params[path] != e.params[path] <==>
               path in s.names && path in s.types && s.types[path] != NO_TYPE && s.types[path] != e.params[path].kind)
  {
  }

  /** That happens: two walks that disagree about a type change it back and forth. */
  lemma TypesFlip(path: Path, first: Text, second: Text)
    requires first != second && first != NO_TYPE && second != NO_TYPE
    ensures var a := Snapshot(map[path := true], map[path := first], {});
            var b := Snapshot(map[path := true], map[path := second], {});
            && Exports([a, b]).params == map[path := Param(true, second)]
            && Exports([a, b, a]).params == map[path := Param(true, first)]
  {
    var a := Snapshot(map[path := true], map[path := first], {});
    var b := Snapshot(map[path := true], map[path := second], {});
    assert [a, b, a][..2] == [a, b] && [a, b][..1] == [a];
    assert Exports([a]).params == map[path := Param(true, first)];
  }

  /** The loop after its first n names. */
  function MergeFirst(params: Params, s: Snapshot, order: seq<Path>, n: nat): Params
    requires n <= |order|
  {
    if n == 0 then params
    else
      var before := MergeFirst(params, s, order, n - 1);
      before[order[n - 1] := MergedRow(before, s, order[n - 1])]
  }

  lemma {:induction false} MergeFirstAt(params: Params, s: Snapshot, order: seq<Path>, n: nat, path: Path)
    requires n <= |order| && forall i, j :: 0 <= i < j < |order| ==> order[i] != order[j]
    ensures path in MergeFirst(params, s, order, n) <==> path in params || path in order[..n]
    ensures path in MergeFirst(params, s, order, n) ==>
              MergeFirst(params, s, order, n)[path] == if path in order[..n] then MergedRow(params, s, path) else params[path]
  {
    if n > 0 {
      MergeFirstAt(params, s, order, n - 1, path);
      assert order[..n] == order[..n - 1] + [order[n - 1]];
      if path == order[n - 1] {
        assert path !in order[..n - 1];
      }
    }
  }

  /** A dictionary's items come in some order, each key once. */
  ghost predicate ItemsOf(order: seq<Path>, names: map<Path, bool>) {
    && (forall i, j :: 0 <= i < j < |order| ==> order[i] != order[j])
    && (forall p :: p in order <==> p in names)
  }

  lemma MergeIsUnion(params: Params, s: Snapshot, order: seq<Path>)
    requires ItemsOf(order, s.names)
    ensures MergeFirst(params, s, order, |order|) == Merged(params, s)
  {
    assert order[..|order|] == order;
    forall p ensures p in MergeFirst(params, s, order, |order|) <==> p in Merged(params, s) {
      MergeFirstAt(params, s, order, |order|, p);
    }
    forall p | p in Merged(params, s) ensures MergeFirst(params, s, order, |order|)[p] == Merged(params, s)[p] {
      MergeFirstAt(params, s, order, |order|, p);
    }
  }

  /** The merge loop, whatever order the names come in. */
  method Merge(params: Params, s: Snapshot, order: seq<Path>) returns (r: Params)
    requires ItemsOf(order, s.names)
    ensures r == Merged(params, s)
  {
    r := params;
    for i := 0 to |order|
      invariant r == MergeFirst(params, s, order, i)
    {
      var path := order[i];
      assert path in order;
      var current := CurrentOf(r, path);
      r := r[path := Param(current.writable || s.names[path], TypeOf(s.types, path, current.kind))];
    }
    MergeIsUnion(params, s, order);
  }

  /** The characters str.splitlines breaks at. */
  predicate Breaks(c: char) {
    || c == '\n' || c == '\r' || c == '\U{000B}' || c == '\U{000C}' || c == '\U{001C}' || c == '\U{001D}' || c == '\U{001E}'
    || c == '\U{0085}' || c == '\U{2028}' || c == '\U{2029}'
  }

  /** The lines of a text; every break ends one, so a carriage return and line feed give one line and one empty line, which the reader skips. */
  function Lines(text: string): seq<string> {
    LinesFrom(text, "")
  }

  function LinesFrom(text: string, line: string): seq<string> {
    if text == "" then (if line == "" then [] else [line])
    else if Breaks(text[0]) then [line] + LinesFrom(text[1..], "")
    else LinesFrom(text[1..], line + [text[0]])
  }

  /** The field before the first tab, and what follows it. */
  function Cut(line: string): (string, string) {
    if line == "" then ("", "")
    else if line[0] == '\t' then ("", line[1..])
    else
      var (field, rest) := Cut(line[1..]);
      ([line[0]] + field, rest)
  }

  function Access(p: Param): string {
    if p.writable then "RW" else "RO"
  }

  function Line(path: Path, p: Param): string {
    path.text + "\t" + Access(p) + "\t" + p.kind.chars
  }

  const HEADER := "# path\taccess\ttype"

  predicate Skipped(line: string) {
    line == "" || line[0] == '#'
  }

  /** One line of the file: path, access and type; missing fields are empty, further ones ignored. */
  function Parsed(line: string): (Path, Param) {
    var (path, rest) := Cut(line);
    var (access, more) := Cut(rest);
    (Path(path), Param(access == "RW", Verification.Text(Cut(more).0)))
  }

  function Load(lines: seq<string>): Params {
    if lines == [] then map[]
    else
      var n := |lines| - 1;
      if Skipped(lines[n]) then Load(lines[..n]) else Load(lines[..n])[Parsed(lines[n]).0 := Parsed(lines[n]).1]
  }

  function Rows(order: seq<Path>, params: Params): seq<string>
    requires forall i :: 0 <= i < |order| ==> order[i] in params
  {
    seq(|order|, i requires 0 <= i < |order| => Line(order[i], params[order[i]]))
  }

  function Joined(lines: seq<string>): string {
    if lines == [] then "" else lines[0] + "\n" + Joined(lines[1..])
  }

  /** The rows come in some order that names each path once; the writer uses the sorted one. */
  ghost predicate Enumerates(order: seq<Path>, params: Params) {
    && (forall i :: 0 <= i < |order| ==> order[i] in params)
    && (forall p :: p in params ==> p in order)
    && (forall i, j :: 0 <= i < j < |order| ==> order[i] != order[j])
  }

  function Written(order: seq<Path>, params: Params): string
    requires forall i :: 0 <= i < |order| ==> order[i] in params
  {
    Joined([HEADER] + Rows(order, params))
  }

  predicate Plain(text: string) {
    forall i :: 0 <= i < |text| ==> !Breaks(text[i]) && text[i] != '\t'
  }

  /** The path can stand in the file and be read back. */
  predicate Storable(path: Path, p: Param) {
    Plain(path.text) && Plain(p.kind.chars) && !(path.text != "" && path.text[0] == '#')
  }

  predicate Unbroken(text: string) {
    forall i :: 0 <= i < |text| ==> !Breaks(text[i])
  }

  lemma {:induction false} FirstLine(line: string, rest: string, read: string)
    requires Unbroken(line)
    ensures LinesFrom(line + "\n" + rest, read) == [read + line] + LinesFrom(rest, "")
    decreases |line|
  {
    var text := line + "\n" + rest;
    if line == "" {
      assert text == "\n" + rest && text[1..] == rest;
      assert read + line == read;
    } else {
      assert text[0] == line[0] && text[1..] == line[1..] + "\n" + rest;
      FirstLine(line[1..], rest, read + [line[0]]);
      assert read + [line[0]] + line[1..] == read + line;
    }
  }

  /** Splitting undoes joining, for lines without breaks. */
  lemma {:induction false} SplitJoined(lines: seq<string>)
    requires forall i :: 0 <= i < |lines| ==> Unbroken(lines[i])
    ensures Lines(Joined(lines)) == lines
  {
    if lines != [] {
      FirstLine(lines[0], Joined(lines[1..]), "");
      assert lines[0] + "\n" + Joined(lines[1..]) == Joined(lines);
      SplitJoined(lines[1..]);
      assert "" + lines[0] == lines[0];
      assert lines == [lines[0]] + lines[1..];
    }
  }

  lemma {:induction false} LinesUnbroken(text: string, read: string)
    requires Unbroken(read)
    ensures forall i :: 0 <= i < |LinesFrom(text, read)| ==> Unbroken(LinesFrom(text, read)[i])
    decreases |text|
  {
    if text != "" {
      if Breaks(text[0]) {
        LinesUnbroken(text[1..], "");
      } else {
        LinesUnbroken(text[1..], read + [text[0]]);
      }
    }
  }

  lemma {:induction false} CutAtTab(field: string, rest: string)
    requires '\t' !in field
    ensures Cut(field + "\t" + rest) == (field, rest)
  {
    var line := field + "\t" + rest;
    if field == "" {
      assert line == "\t" + rest && line[1..] == rest;
    } else {
      assert field[0] in field && line[0] == field[0] && line[1..] == field[1..] + "\t" + rest;
      CutAtTab(field[1..], rest);
      assert field == [field[0]] + field[1..];
    }
  }

  lemma {:induction false} CutWhole(field: string)
    requires '\t' !in field
    ensures Cut(field) == (field, "")
  {
    if field != "" {
      assert field[0] in field;
      CutWhole(field[1..]);
      assert field == [field[0]] + field[1..];
    }
  }

  /** A field holds no tab, and starts and reads like its line. */
  lemma {:induction false} CutFields(line: string)
    ensures var (field, rest) := Cut(line);
            && '\t' !in field && (field != "" ==> line != "" && field[0] == line[0])
            && (Unbroken(line) ==> Unbroken(field) && Unbroken(rest))
  {
    if line != "" {
      CutFields(line[1..]);
    }
  }

  lemma ParsedLine(path: Path, p: Param)
    requires Storable(path, p)
    ensures Parsed(Line(path, p)) == (path, p) && !Skipped(Line(path, p)) && Unbroken(Line(path, p))
  {
    var rest := Access(p) + "\t" + p.kind.chars;
    assert Line(path, p) == path.text + "\t" + rest;
    CutAtTab(path.text, rest);
    CutAtTab(Access(p), p.kind.chars);
    CutWhole(p.kind.chars);
  }

  lemma ParsedStorable(line: string)
    requires Unbroken(line) && !Skipped(line)
    ensures Storable(Parsed(line).0, Parsed(line).1)
  {
    CutFields(line);
    CutFields(Cut(line).1);
    CutFields(Cut(Cut(line).1).1);
  }

  /** Whatever is read back could have been written. */
  lemma {:induction false} LoadedStorable(lines: seq<string>, path: Path)
    requires (forall i :: 0 <= i < |lines| ==> Unbroken(lines[i])) && path in Load(lines)
    ensures Storable(path, Load(lines)[path])
  {
    var n := |lines| - 1;
    if !Skipped(lines[n]) && Parsed(lines[n]).0 == path {
      ParsedStorable(lines[n]);
    } else {
      LoadedStorable(lines[..n], path);
    }
  }

  /** Reading one written row more adds that parameter. */
  lemma LoadOneMore(lines: seq<string>, path: Path, p: Param)
    requires Storable(path, p)
    ensures Load(lines + [Line(path, p)]) == Load(lines)[path := p]
  {
    ParsedLine(path, p);
    assert (lines + [Line(path, p)])[..|lines|] == lines;
  }

  /** The first n parameters, as the rows give them back. */
  function FirstParams(order: seq<Path>, params: Params, n: nat): Params
    requires n <= |order| && forall i :: 0 <= i < |order| ==> order[i] in params
  {
    if n == 0 then map[] else FirstParams(order, params, n - 1)[order[n - 1] := params[order[n - 1]]]
  }

  lemma {:induction false} LoadRows(order: seq<Path>, params: Params, n: nat)
    requires n <= |order| && (forall i :: 0 <= i < |order| ==> order[i] in params) && forall p :: p in params ==> Storable(p, params[p])
    ensures Load([HEADER] + Rows(order, params)[..n]) == FirstParams(order, params, n)
  {
    var lines := [HEADER] + Rows(order, params)[..n];
    if n == 0 {
      assert lines == [HEADER] && Skipped(HEADER) && lines[..0] == [];
    } else {
      LoadRows(order, params, n - 1);
      assert lines == [HEADER] + Rows(order, params)[..n - 1] + [Line(order[n - 1], params[order[n - 1]])];
      LoadOneMore([HEADER] + Rows(order, params)[..n - 1], order[n - 1], params[order[n - 1]]);
    }
  }

  lemma {:induction false} FirstParamsAt(order: seq<Path>, params: Params, n: nat, path: Path)
    requires n <= |order| && forall i :: 0 <= i < |order| ==> order[i] in params
    ensures path in FirstParams(order, params, n) <==> path in order[..n]
    ensures path in FirstParams(order, params, n) ==> FirstParams(order, params, n)[path] == params[path]
  {
    if n > 0 {
      FirstParamsAt(order, params, n - 1, path);
      assert order[..n] == order[..n - 1] + [order[n - 1]];
    }
  }

  lemma AllParams(order: seq<Path>, params: Params)
    requires Enumerates(order, params)
    ensures FirstParams(order, params, |order|) == params
  {
    assert order[..|order|] == order;
    forall p ensures p in FirstParams(order, params, |order|) <==> p in params {
      FirstParamsAt(order, params, |order|, p);
    }
    forall p | p in params ensures FirstParams(order, params, |order|)[p] == params[p] {
      FirstParamsAt(order, params, |order|, p);
    }
  }

  lemma RowsRoundTrip(order: seq<Path>, params: Params)
    requires Enumerates(order, params) && forall p :: p in params ==> Storable(p, params[p])
    ensures Load([HEADER] + Rows(order, params)) == params
  {
    assert Rows(order, params)[..|order|] == Rows(order, params);
    LoadRows(order, params, |order|);
    AllParams(order, params);
  }

  lemma RowsUnbroken(order: seq<Path>, params: Params)
    requires Enumerates(order, params) && forall p :: p in params ==> Storable(p, params[p])
    ensures forall i :: 0 <= i < |[HEADER] + Rows(order, params)| ==> Unbroken(([HEADER] + Rows(order, params))[i])
  {
  }

  /**
   Reading undoes writing exactly when every path does not start with '#' and neither
   path nor type holds a tab or a line break; an empty path is no exception.
   */
  lemma FileRoundTrip(order: seq<Path>, params: Params)
    requires Enumerates(order, params)
    ensures Load(Lines(Written(order, params))) == params <==> forall p :: p in params ==> Storable(p, params[p])
  {
    if forall p :: p in params ==> Storable(p, params[p]) {
      RowsUnbroken(order, params);
      SplitJoined([HEADER] + Rows(order, params));
      RowsRoundTrip(order, params);
    } else {
      var p :| p in params && !Storable(p, params[p]);
      LinesUnbroken(Written(order, params), "");
      if p in Load(Lines(Written(order, params))) {
        LoadedStorable(Lines(Written(order, params)), p);
      }
    }
  }

  /** write_entry writes the rows in the order of their paths. */
  function FileOf(params: Params): string
  {
    SortedEnumerates(params);
    Written(Sorted(params.Keys), params)
  }

  lemma SortedEnumerates(params: Params)
    ensures Enumerates(Sorted(params.Keys), params)
  {
    var order := Sorted(params.Keys);
    forall p ensures p in order <==> p in params {
      SortedMember(params.Keys, p);
    }
    forall i | 0 <= i < |order| ensures order[i] in params {
      assert order[i] in order;
    }
    forall i, j | 0 <= i < j < |order| ensures order[i] != order[j] {
      SortedIncreases(params.Keys, i, j);
      PrecedesOneWay(order[i].text, order[j].text);
    }
  }

  /** One export as the script does it: read the file, merge the walk, write the file. */
  function ExportFile(text: string, s: Snapshot): string {
    FileOf(Merged(Load(Lines(text)), s))
  }

  /** The file after some exports; before the first there is none, which reads as an empty one. */
  function FileAfter(snapshots: seq<Snapshot>): string {
    if snapshots == [] then "" else ExportFile(FileAfter(snapshots[..|snapshots| - 1]), snapshots[|snapshots| - 1])
  }

  /** The file holds what the exports amount to. */
  ghost predicate Faithful(snapshots: seq<Snapshot>) {
    Load(Lines(FileAfter(snapshots))) == Exports(snapshots).params
  }

  /** What a walk names can be stored: its paths, and the types it knows for them. */
  ghost predicate Clean(s: Snapshot) {
    forall p :: p in s.names ==> Storable(p, Param(false, TypeOf(s.types, p, NO_TYPE)))
  }

  ghost predicate AllStorable(params: Params) {
    forall p :: p in params ==> Storable(p, params[p])
  }

  /** Merging a walk into storable rows gives storable rows exactly when the walk is clean. */
  lemma MergedStorable(params: Params, s: Snapshot)
    requires AllStorable(params)
    ensures AllStorable(Merged(params, s)) <==> Clean(s)
  {
    var merged := Merged(params, s);
    if AllStorable(merged) {
      forall p | p in s.names ensures Storable(p, Param(false, TypeOf(s.types, p, NO_TYPE))) {
        assert Storable(p, merged[p]);
      }
    }
    if Clean(s) {
      forall p | p in merged ensures Storable(p, merged[p]) {
        assert p in s.names ==> Storable(p, Param(false, TypeOf(s.types, p, NO_TYPE)));
      }
    }
  }

  lemma FileOfRoundTrip(params: Params)
    ensures Load(Lines(FileOf(params))) == params <==> AllStorable(params)
  {
    SortedEnumerates(params);
    FileRoundTrip(Sorted(params.Keys), params);
  }

  /** After each export so far the file held what the exports amounted to. */
  ghost predicate FaithfulThroughout(snapshots: seq<Snapshot>) {
    Faithful(snapshots) && (snapshots == [] || FaithfulThroughout(snapshots[..|snapshots| - 1]))
  }

  lemma ExportStep(text: string, params: Params, s: Snapshot)
    requires Load(Lines(text)) == params && AllStorable(params)
    ensures Load(Lines(ExportFile(text, s))) == Merged(params, s) <==> Clean(s)
    ensures Clean(s) ==> AllStorable(Merged(params, s))
  {
    MergedStorable(params, s);
    FileOfRoundTrip(Merged(params, s));
  }

  lemma FaithfulStep(snapshots: seq<Snapshot>, before: seq<Snapshot>, s: Snapshot)
    requires snapshots == before + [s] && Faithful(before) && AllStorable(Exports(before).params)
    ensures Faithful(snapshots) <==> Clean(s)
    ensures Clean(s) ==> AllStorable(Exports(snapshots).params)
  {
    assert snapshots[..|snapshots| - 1] == before;
    ExportStep(FileAfter(before), Exports(before).params, s);
  }

  ghost predicate AllClean(snapshots: seq<Snapshot>) {
    forall i :: 0 <= i < |snapshots| ==> Clean(snapshots[i])
  }

  lemma AllCleanExtends(snapshots: seq<Snapshot>, before: seq<Snapshot>, s: Snapshot)
    requires snapshots == before + [s]
    ensures AllClean(snapshots) <==> AllClean(before) && Clean(s)
  {
    if AllClean(snapshots) {
      assert Clean(snapshots[|before|]);
      forall i | 0 <= i < |before| ensures Clean(before[i]) {
        assert Clean(snapshots[i]);
      }
    }
  }

  /**
   Exports through the file: after each of any number of exports the file holds exactly
   the union of the walks, if and only if every path and type those walks name can be stored.
   */
  lemma {:induction false} ExportsThroughFile(snapshots: seq<Snapshot>)
    ensures FaithfulThroughout(snapshots) <==> AllClean(snapshots)
    ensures FaithfulThroughout(snapshots) ==> AllStorable(Exports(snapshots).params)
  {
    if snapshots != [] {
      var n := |snapshots| - 1;
      ExportsThroughFile(snapshots[..n]);
      assert snapshots == snapshots[..n] + [snapshots[n]];
      AllCleanExtends(snapshots, snapshots[..n], snapshots[n]);
      if FaithfulThroughout(snapshots[..n]) {
        FaithfulStep(snapshots, snapshots[..n], snapshots[n]);
      }
    }
  }

  /** load_entry's loop. */
  method LoadEntry(text: string) returns (params: Params)
    ensures params == Load(Lines(text))
  {
    var lines := Lines(text);
    params := map[];
    for i := 0 to |lines|
      invariant params == Load(lines[..i])
    {
      assert lines[..i + 1][..i] == lines[..i];
      if !Skipped(lines[i]) {
        var (path, p) := Parsed(lines[i]);
        params := params[path := p];
      }
    }
    assert lines[..|lines|] == lines;
  }

  /** write_entry's loop over the sorted paths, and the join. */
  method WriteEntry(params: Params) returns (text: string)
    ensures text == FileOf(params)
  {
    SortedEnumerates(params);
    var order := Sorted(params.Keys);
    var lines := [HEADER];
    for i := 0 to |order|
      invariant lines == [HEADER] + Rows(order, params)[..i]
    {
      lines := lines + [Line(order[i], params[order[i]])];
    }
    assert Rows(order, params)[..|order|] == Rows(order, params);
    text := Joined(lines);
  }
}
