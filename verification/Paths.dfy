/**
 Data-model paths: their order, and which instances of a table a discovery walk
 descends into.
 */
module Paths {
  import opened Options

  /** A data-model path such as "Device.WiFi." */
  datatype Path = Path(text: string)

  predicate IsObject(path: Path) {
    |path.text| > 0 && path.text[|path.text| - 1] == '.'
  }

  /** String order, by code point, which is also the order of the UTF-8 bytes. */
  predicate Precedes(a: string, b: string) {
    b != "" && (a == "" || a[0] < b[0] || (a[0] == b[0] && Precedes(a[1..], b[1..])))
  }

  predicate Before(a: Path, b: Path) {
    Precedes(a.text, b.text)
  }

  lemma PrecedesOneWay(a: string, b: string)
    ensures a != b ==> Precedes(a, b) || Precedes(b, a)
    ensures !(Precedes(a, b) && Precedes(b, a))
    ensures a == b ==> !Precedes(a, b)
  {
    if a != "" && b != "" && a[0] == b[0] {
      PrecedesOneWay(a[1..], b[1..]);
      if a[1..] == b[1..] {
        assert a == [a[0]] + a[1..] && b == [b[0]] + b[1..];
      }
    }
  }

  lemma PrecedesTransitive(a: string, b: string, c: string)
    requires Precedes(a, b) && Precedes(b, c)
    ensures Precedes(a, c)
  {
    if a != "" && a[0] == b[0] == c[0] {
      PrecedesTransitive(a[1..], b[1..], c[1..]);
    }
  }

  lemma BeforeOneWay(a: Path, b: Path)
    ensures a != b <==> Before(a, b) || Before(b, a)
    ensures !(Before(a, b) && Before(b, a))
  {
    PrecedesOneWay(a.text, b.text);
  }

  lemma BeforeTransitive(a: Path, b: Path, c: Path)
    requires Before(a, b) && Before(b, c)
    ensures Before(a, c)
  {
    PrecedesTransitive(a.text, b.text, c.text);
  }

  predicate IsFirst(m: Path, s: set<Path>) {
    m in s && forall x :: x in s ==> x == m || Before(m, x)
  }

  lemma FirstExists(s: set<Path>)
    requires s != {}
    ensures exists m :: IsFirst(m, s)
  {
    var x :| x in s;
    if s == {x} {
      assert IsFirst(x, s);
    } else {
      var rest := s - {x};
      FirstExists(rest);
      var m :| IsFirst(m, rest);
      BeforeOneWay(m, x);
      if Before(m, x) {
        assert IsFirst(m, s);
      } else {
        forall y | y in s ensures y == x || Before(x, y) {
          if y != x && y != m {
            BeforeTransitive(x, m, y);
          }
        }
        assert IsFirst(x, s);
      }
    }
  }

  lemma FirstIsUnique(a: Path, b: Path, s: set<Path>)
    requires IsFirst(a, s) && IsFirst(b, s)
    ensures a == b
  {
    BeforeOneWay(a, b);
  }

  /** sort.Strings on distinct paths. */
  function Sorted(s: set<Path>): seq<Path> {
    if s == {} then []
    else
      assert exists m :: IsFirst(m, s) by { FirstExists(s); }
      assert forall a, b :: IsFirst(a, s) && IsFirst(b, s) ==> a == b by {
        forall a, b | IsFirst(a, s) && IsFirst(b, s) ensures a == b { FirstIsUnique(a, b, s); }
      }
      var m :| IsFirst(m, s);
      [m] + Sorted(s - {m})
  }

  lemma SortedMember(s: set<Path>, p: Path)
    ensures p in Sorted(s) <==> p in s
  {
  }

  /** The result is in strictly increasing order. */
  lemma SortedIncreases(s: set<Path>, i: nat, j: nat)
    requires i < j < |Sorted(s)|
    ensures Before(Sorted(s)[i], Sorted(s)[j])
  {
    var m :| IsFirst(m, s) && Sorted(s) == [m] + Sorted(s - {m});
    if i == 0 {
      assert Sorted(s)[j] in Sorted(s - {m});
      SortedMember(s - {m}, Sorted(s)[j]);
    } else {
      SortedIncreases(s - {m}, i - 1, j - 1);
    }
  }

  /** An instance object "table" + "number." of a table. */
  datatype Slot = Slot(table: Path, number: nat)

  const MAX_INT: nat := 0x7fff_ffff_ffff_ffff

  /** How many characters follow the last dot. */
  function TailLength(text: string): (n: nat)
    ensures n <= |text|
  {
    if text == "" || text[|text| - 1] == '.' then 0 else 1 + TailLength(text[..|text| - 1])
  }

  predicate AllDigits(text: string) {
    forall i :: 0 <= i < |text| ==> '0' <= text[i] <= '9'
  }

  function Decimal(digits: string): nat
    requires AllDigits(digits)
  {
    if digits == "" then 0 else 10 * Decimal(digits[..|digits| - 1]) + (digits[|digits| - 1] - '0') as int
  }

  /** The instance pattern: a table ending in a dot, a decimal number that fits an integer, and a dot. */
  function InstanceOf(path: Path): Option<Slot> {
    if !IsObject(path) then None
    else
      var inner := path.text[..|path.text| - 1];
      var cut := |inner| - TailLength(inner);
      var table, digits := inner[..cut], inner[cut..];
      if table == "" || '\n' in table || digits == "" || !AllDigits(digits) || Decimal(digits) > MAX_INT then None
      else Some(Slot(Path(table), Decimal(digits)))
  }

  /** The instance numbers listed for a table. */
  function Numbers(objects: seq<Path>, table: Path): seq<nat> {
    if objects == [] then []
    else
      var before := Numbers(objects[..|objects| - 1], table);
      var slot := InstanceOf(objects[|objects| - 1]);
      if slot.Some? && slot.value.table == table then before + [slot.value.number] else before
  }

  function CountBelow(numbers: seq<nat>, n: nat): nat {
    if numbers == [] then 0
    else CountBelow(numbers[..|numbers| - 1], n) + if numbers[|numbers| - 1] < n then 1 else 0
  }

  /** An object is descended into unless its table lists as many lower instances as the table's limit allows. */
  predicate Kept(listed: seq<Path>, path: Path, limit: Path -> nat) {
    match InstanceOf(path)
    case None => true
    case Some(slot) => CountBelow(Numbers(listed, slot.table), slot.number) < limit(slot.table)
  }

  /** The objects kept among those listed, in their order. */
  function Collapse(objects: seq<Path>, listed: seq<Path>, limit: Path -> nat): seq<Path> {
    if objects == [] then []
    else
      var before := Collapse(objects[..|objects| - 1], listed, limit);
      var last := objects[|objects| - 1];
      if Kept(listed, last, limit) then before + [last] else before
  }

  lemma CollapseMember(objects: seq<Path>, listed: seq<Path>, limit: Path -> nat, p: Path)
    ensures p in Collapse(objects, listed, limit) <==> p in objects && Kept(listed, p, limit)
  {
    if objects != [] {
      var n := |objects| - 1;
      CollapseMember(objects[..n], listed, limit, p);
      assert p in objects <==> p in objects[..n] || p == objects[n];
    }
  }

  /** sort.Ints */
  function Insert(sorted: seq<nat>, n: nat): seq<nat> {
    if sorted == [] || sorted[|sorted| - 1] <= n then sorted + [n]
    else Insert(sorted[..|sorted| - 1], n) + [sorted[|sorted| - 1]]
  }

  function SortNumbers(numbers: seq<nat>): seq<nat> {
    if numbers == [] then [] else Insert(SortNumbers(numbers[..|numbers| - 1]), numbers[|numbers| - 1])
  }

  ghost predicate Ascending(s: seq<nat>) {
    forall i, j :: 0 <= i < j < |s| ==> s[i] <= s[j]
  }

  lemma CountSnoc(s: seq<nat>, x: nat, n: nat)
    ensures CountBelow(s + [x], n) == CountBelow(s, n) + if x < n then 1 else 0
  {
    assert (s + [x])[..|s|] == s;
  }

  lemma {:induction false} InsertCounts(s: seq<nat>, x: nat, n: nat)
    ensures CountBelow(Insert(s, x), n) == CountBelow(s, n) + if x < n then 1 else 0
  {
    if s == [] || s[|s| - 1] <= x {
      CountSnoc(s, x, n);
    } else {
      InsertCounts(s[..|s| - 1], x, n);
      CountSnoc(Insert(s[..|s| - 1], x), s[|s| - 1], n);
    }
  }

  lemma {:induction false} InsertMember(s: seq<nat>, x: nat, n: nat)
    ensures n in Insert(s, x) <==> n in s || n == x
  {
    if s != [] && s[|s| - 1] > x {
      InsertMember(s[..|s| - 1], x, n);
      assert s == s[..|s| - 1] + [s[|s| - 1]];
    }
  }

  lemma {:induction false} InsertAscends(s: seq<nat>, x: nat)
    requires Ascending(s)
    ensures Ascending(Insert(s, x))
  {
    if s != [] && s[|s| - 1] > x {
      var front, last := s[..|s| - 1], s[|s| - 1];
      InsertAscends(front, x);
      forall i | 0 <= i < |Insert(front, x)| ensures Insert(front, x)[i] <= last {
        InsertMember(front, x, Insert(front, x)[i]);
      }
    }
  }

  lemma {:induction false} SortFacts(numbers: seq<nat>, n: nat)
    ensures Ascending(SortNumbers(numbers)) && CountBelow(SortNumbers(numbers), n) == CountBelow(numbers, n)
    ensures n in SortNumbers(numbers) <==> n in numbers
  {
    if numbers != [] {
      var front, last := numbers[..|numbers| - 1], numbers[|numbers| - 1];
      SortFacts(front, n);
      InsertCounts(SortNumbers(front), last, n);
      InsertMember(SortNumbers(front), last, n);
      InsertAscends(SortNumbers(front), last);
      assert numbers == front + [last];
    }
  }

  function Prefix(s: seq<nat>, k: nat): seq<nat> {
    if k < |s| then s[..k] else s
  }

  lemma CountBounds(s: seq<nat>, n: nat)
    ensures CountBelow(s, n) <= |s|
    ensures (forall i :: 0 <= i < |s| ==> s[i] < n) ==> CountBelow(s, n) == |s|
  {
  }

  lemma PrefixOfFront(front: seq<nat>, last: nat, n: nat, k: nat)
    requires n in front
    ensures n in Prefix(front + [last], k) <==> n in Prefix(front, k)
  {
    if k <= |front| {
      assert (front + [last])[..k] == front[..k];
      assert k == |front| ==> front[..k] == front;
    }
  }

  lemma PrefixWithLast(front: seq<nat>, last: nat, k: nat)
    requires last !in front
    ensures last in Prefix(front + [last], k) <==> |front| < k
  {
    if k <= |front| {
      assert (front + [last])[..k] == front[..k];
    }
  }

  /** Among the lowest k of an ascending list are exactly the numbers with fewer than k below them. */
  lemma {:induction false} LowestK(s: seq<nat>, n: nat, k: nat)
    requires Ascending(s) && n in s
    ensures n in Prefix(s, k) <==> CountBelow(s, n) < k
  {
    var front, last := s[..|s| - 1], s[|s| - 1];
    assert s == front + [last];
    if n in front {
      LowestK(front, n, k);
      PrefixOfFront(front, last, n, k);
    } else {
      assert forall i :: 0 <= i < |front| ==> front[i] in front && front[i] < n;
      CountBounds(front, n);
      PrefixWithLast(front, n, k);
    }
  }

  function ToSet(s: seq<nat>): (r: set<nat>)
    ensures |r| <= |s| && forall n :: n in r <==> n in s
  {
    if s == [] then {} else ToSet(s[..|s| - 1]) + {s[|s| - 1]}
  }

  /** The instance numbers of a table a walk may descend into; no more of them than its limit. */
  function Allowed(numbers: seq<nat>, limit: nat): (r: set<nat>)
    ensures |r| <= limit
  {
    ToSet(Prefix(SortNumbers(numbers), limit))
  }

  lemma NumbersMember(objects: seq<Path>, path: Path)
    requires path in objects && InstanceOf(path).Some?
    ensures InstanceOf(path).value.number in Numbers(objects, InstanceOf(path).value.table)
  {
  }

  /** The two readings agree: an instance is kept exactly when its number is among the lowest the limit allows. */
  lemma KeptIsAllowed(listed: seq<Path>, path: Path, limit: Path -> nat)
    requires path in listed && InstanceOf(path).Some?
    ensures var slot := InstanceOf(path).value;
            Kept(listed, path, limit) <==> slot.number in Allowed(Numbers(listed, slot.table), limit(slot.table))
  {
    var slot := InstanceOf(path).value;
    var numbers := Numbers(listed, slot.table);
    NumbersMember(listed, path);
    SortFacts(numbers, slot.number);
    LowestK(SortNumbers(numbers), slot.number, limit(slot.table));
  }

  lemma {:induction false} CountBelowMember(numbers: seq<nat>, n: nat)
    requires n in numbers
    ensures CountBelow(numbers, n) < |numbers|
  {
    var front, last := numbers[..|numbers| - 1], numbers[|numbers| - 1];
    CountBounds(front, n);
    if last != n {
      assert numbers == front + [last];
      CountBelowMember(front, n);
    }
  }

  /** A table no longer than its limit is walked whole. */
  lemma ShortTableKeptWhole(listed: seq<Path>, path: Path, limit: Path -> nat)
    requires path in listed && InstanceOf(path).Some?
    requires var table := InstanceOf(path).value.table; |Numbers(listed, table)| <= limit(table)
    ensures Kept(listed, path, limit)
  {
    NumbersMember(listed, path);
    CountBelowMember(Numbers(listed, InstanceOf(path).value.table), InstanceOf(path).value.number);
  }

  /** The name with every instance number between dots written "{i}". */
  function Template(text: string): string {
    TemplateFrom(text, "", false)
  }

  function TemplateFrom(text: string, segment: string, dotted: bool): string {
    if text == "" then segment
    else if text[0] == '.' then
      (if dotted && segment != "" && AllDigits(segment) then "{i}" else segment) + "." + TemplateFrom(text[1..], "", true)
    else TemplateFrom(text[1..], segment + [text[0]], dotted)
  }

  predicate EndsWith(text: string, suffix: string) {
    |suffix| <= |text| && text[|text| - |suffix|..] == suffix
  }

  /** Tables whose rows are live network state: every row has the same parameters. */
  predicate IsRuntimeTable(table: Path) {
    var t := Template(table.text);
    || EndsWith(t, ".Hosts.Host.") || EndsWith(t, ".AssociatedDevice.")
    || EndsWith(t, ".DHCPv4.Server.Pool.{i}.Client.") || EndsWith(t, ".DHCPv6.Server.Pool.{i}.Client.")
    || EndsWith(t, ".DeviceInfo.ProcessStatus.Process.") || EndsWith(t, ".IP.ActivePort.")
    || EndsWith(t, ".IPv4Forwarding.") || EndsWith(t, ".IPv6Forwarding.")
    || EndsWith(t, ".ManagementServer.ManageableDevice.") || EndsWith(t, ".NeighboringWiFiDiagnostic.Result.")
    || EndsWith(t, ".DeviceInfo.VendorLogFile.")
    || EndsWith(t, ".AssociationEvent.AssociationEventData.") || EndsWith(t, ".DisassociationEvent.DisassociationEventData.")
    || EndsWith(t, ".FailedConnectionEvent.FailedConnectionEventData.") || EndsWith(t, ".BSS.{i}.STA.")
    || EndsWith(t, ".ScanResult.") || EndsWith(t, ".OpClassScan.") || EndsWith(t, ".ChannelScan.") || EndsWith(t, ".NeighborBSS.")
    || EndsWith(t, ".UnassociatedSTA.") || EndsWith(t, ".CapableOperatingClassProfile.") || EndsWith(t, ".CurrentOperatingClassProfile.")
    || EndsWith(t, ".FaultMgmt.SupportedAlarm.") || EndsWith(t, ".FaultMgmt.CurrentAlarm.") || EndsWith(t, ".FaultMgmt.HistoryEvent.")
    || EndsWith(t, ".FaultMgmt.ExpeditedEvent.") || EndsWith(t, ".FaultMgmt.QueuedEvent.") || EndsWith(t, ".InterfaceStack.")
  }

  const MAX_INSTANCES: nat := 32

  function TableLimit(table: Path): nat {
    if IsRuntimeTable(table) then 1 else MAX_INSTANCES
  }

  /** The lists of instance numbers by table, as the first loop collects them. */
  ghost predicate Collected(instances: map<Path, seq<nat>>, objects: seq<Path>) {
    forall t :: if t in instances then instances[t] == Numbers(objects, t) else Numbers(objects, t) == []
  }

  method CollectInstances(objects: seq<Path>) returns (instances: map<Path, seq<nat>>)
    ensures Collected(instances, objects)
  {
    instances := map[];
    for k := 0 to |objects|
      invariant Collected(instances, objects[..k])
    {
      assert objects[..k + 1][..k] == objects[..k];
      var slot := InstanceOf(objects[k]);
      if slot.Some? {
        var table := slot.value.table;
        instances := instances[table := (if table in instances then instances[table] else []) + [slot.value.number]];
      }
    }
    assert objects[..|objects|] == objects;
  }

  /** The loop over the tables: sort, cut off at the limit, remember. */
  method AllowedByTable(instances: map<Path, seq<nat>>, limit: Path -> nat) returns (allowed: map<Path, set<nat>>)
    ensures allowed.Keys == instances.Keys
    ensures forall t :: t in allowed ==> allowed[t] == Allowed(instances[t], limit(t))
  {
    allowed := map[];
    var left := instances.Keys;
    while left != {}
      invariant left <= instances.Keys && allowed.Keys == instances.Keys - left
      invariant forall t :: t in allowed ==> allowed[t] == Allowed(instances[t], limit(t))
      decreases |left|
    {
      var table :| table in left;
      left := left - {table};
      allowed := allowed[table := ToSet(Prefix(SortNumbers(instances[table]), limit(table)))];
    }
  }

  /** collapseRuntimeInstances */
  method CollapseInstances(objects: seq<Path>, limit: Path -> nat) returns (kept: seq<Path>)
    ensures kept == Collapse(objects, objects, limit)
  {
    var instances := CollectInstances(objects);
    var allowed := AllowedByTable(instances, limit);
    kept := [];
    for k := 0 to |objects|
      invariant kept == Collapse(objects[..k], objects, limit)
    {
      assert objects[..k + 1][..k] == objects[..k];
      var path := objects[k];
      var slot := InstanceOf(path);
      if slot.Some? {
        NumbersMember(objects, path);
        KeptIsAllowed(objects, path, limit);
        if slot.value.number in allowed[slot.value.table] {
          kept := kept + [path];
        }
      } else {
        kept := kept + [path];
      }
    }
    assert objects[..|objects|] == objects;
  }
}
