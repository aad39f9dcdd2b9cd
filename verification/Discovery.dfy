/**
 The incremental parameter-discovery walk: one durable PARAMETER_DISCOVERY job
 asks a CPE for the names below one object at a time, defers an object the CPE
 cannot serve, and gives it up on the second failure.
 */
module Discovery {
  import opened Options
  import opened Paths

  const MAX_OBJECTS: nat := 512
  const MAX_NAMES: nat := 50000
  const MAX_SKIPPED: nat := 32
  const MAX_PATH_LENGTH: nat := 1024
  const MAX_DEPTH: nat := 16

  /** The discovery payload stored in the job row. No cursor means the root has not been answered yet. */
  datatype Walk = Walk(root: Path, fallbackRoot: Option<Path>, isFallback: bool, incremental: bool, merge: bool,
                       cursor: Option<Path>, pending: seq<Path>, visited: set<Path>, names: map<Path, bool>,
                       skipped: seq<Path>, retried: set<Path>)
  {
    function RequestPath(): Path {
      if cursor.Some? then cursor.value else root
    }

    /** Every object the walk has heard of and decided to descend into. */
    ghost function Known(): set<Path> {
      visited + {RequestPath()} + Elements(pending)
    }
  }

  /** Refused ends the job as FAILED; Finished ends it with what was found; More requeues it. */
  datatype Progress = Refused | More(walk: Walk) | Finished(walk: Walk)

  function Dots(text: string): nat {
    if text == "" then 0 else (if text[0] == '.' then 1 else 0) + Dots(text[1..])
  }

  function TrimPrefix(path: Path, prefix: Path): string {
    if prefix.text <= path.text then path.text[|prefix.text|..] else path.text
  }

  /** An answered path the walk would descend into: an object not visited before. */
  predicate Descends(w: Walk, path: Path) {
    IsObject(path) && path != w.RequestPath() && path !in w.visited
  }

  predicate PathRefused(w: Walk, path: Path) {
    || !(w.RequestPath().text <= path.text)
    || |path.text| > MAX_PATH_LENGTH
    || (Descends(w, path) && Dots(TrimPrefix(path, w.root)) > MAX_DEPTH)
  }

  predicate AnyRefused(w: Walk, names: map<Path, bool>) {
    exists path {:trigger PathRefused(w, path)} :: path in names && PathRefused(w, path)
  }

  function Children(w: Walk, names: map<Path, bool>): set<Path> {
    set path | path in names && Descends(w, path)
  }

  /** The new objects the walk descends into: sorted, and collapsed to the instances each table's limit allows. */
  function Listing(objects: set<Path>): seq<Path> {
    Collapse(Sorted(objects), Sorted(objects), TableLimit)
  }

  /** A new object is descended into exactly when collapsing keeps it. */
  lemma ListingMember(objects: set<Path>, p: Path)
    ensures p in Listing(objects) <==> p in objects && Kept(Sorted(objects), p, TableLimit)
  {
    SortedMember(objects, p);
    CollapseMember(Sorted(objects), Sorted(objects), TableLimit, p);
  }

  /** Appends the listed objects that are not queued yet, keeping their order. */
  function AppendNew(pending: seq<Path>, order: seq<Path>): seq<Path>
    decreases |order|
  {
    if order == [] then pending
    else AppendNew(if order[0] in pending then pending else pending + [order[0]], order[1..])
  }

  ghost function Elements(s: seq<Path>): set<Path> {
    if s == [] then {} else {s[0]} + Elements(s[1..])
  }

  ghost predicate Distinct(s: seq<Path>) {
    s == [] || (s[0] !in Elements(s[1..]) && Distinct(s[1..]))
  }

  lemma ElementsMember(s: seq<Path>, p: Path)
    ensures p in Elements(s) <==> p in s
  {
  }

  lemma Snoc(s: seq<Path>, p: Path)
    ensures Elements(s + [p]) == Elements(s) + {p}
    ensures Distinct(s) && p !in Elements(s) ==> Distinct(s + [p])
  {
    if s != [] {
      Snoc(s[1..], p);
      assert (s + [p])[1..] == s[1..] + [p];
    }
  }

  lemma AppendNewElements(pending: seq<Path>, order: seq<Path>)
    ensures Elements(AppendNew(pending, order)) == Elements(pending) + Elements(order)
    ensures Distinct(pending) ==> Distinct(AppendNew(pending, order))
    decreases |order|
  {
    if order != [] {
      ElementsMember(pending, order[0]);
      if order[0] in pending {
        AppendNewElements(pending, order[1..]);
      } else {
        Snoc(pending, order[0]);
        AppendNewElements(pending + [order[0]], order[1..]);
      }
    }
  }

  /** One answered GetParameterNames. */
  function Advance(w: Walk, names: map<Path, bool>): Progress {
    if AnyRefused(w, names) then Refused else Descend(w, names, Listing(Children(w, names)))
  }

  function Descend(w: Walk, names: map<Path, bool>, order: seq<Path>): Progress {
    var visited := w.visited + {w.RequestPath()};
    var pending := AppendNew(w.pending, order);
    var found := w.names + names;
    if |visited| + |pending| > MAX_OBJECTS || |found| > MAX_NAMES then Refused
    else if pending == [] then Finished(w.(visited := visited, names := found, pending := pending))
    else More(w.(visited := visited, names := found, cursor := Some(pending[0]), pending := pending[1..]))
  }

  /** The object in progress was faulted on or dropped: defer it once, then give it up. */
  function SkipCursor(w: Walk): Progress {
    if w.cursor.None? then Refused
    else if w.cursor.value !in w.retried then
      var pending := w.pending + [w.cursor.value];
      More(w.(retried := w.retried + {w.cursor.value}, cursor := Some(pending[0]), pending := pending[1..]))
    else if |w.skipped| >= MAX_SKIPPED then Refused
    else
      var given := w.(visited := w.visited + {w.cursor.value}, skipped := w.skipped + [w.cursor.value]);
      if w.pending == [] then Finished(given.(cursor := None))
      else More(given.(cursor := Some(w.pending[0]), pending := w.pending[1..]))
  }

  /** jobs.AdvanceDiscovery: refuse any bad path, sort and collapse the new objects, queue each once. */
  method AdvanceDiscovery(w: Walk, names: map<Path, bool>) returns (r: Progress)
    ensures r == Advance(w, names)
  {
    var unchecked := names.Keys;
    var objects: set<Path> := {};
    while unchecked != {}
      invariant unchecked <= names.Keys
      invariant forall path :: path in names.Keys - unchecked ==> !PathRefused(w, path)
      invariant objects == set path | path in names.Keys - unchecked && Descends(w, path)
      decreases |unchecked|
    {
      var path :| path in unchecked;
      if PathRefused(w, path) {
        return Refused;
      }
      if Descends(w, path) {
        objects := objects + {path};
      }
      unchecked := unchecked - {path};
    }
    assert objects == Children(w, names);
    var order := CollapseInstances(Sorted(objects), TableLimit);
    r := QueueObjects(w, names, order);
  }

  method QueueObjects(w: Walk, names: map<Path, bool>, order: seq<Path>) returns (r: Progress)
    ensures r == Descend(w, names, order)
  {
    var pending := w.pending;
    for i := 0 to |order|
      invariant AppendNew(pending, order[i..]) == AppendNew(w.pending, order)
    {
      assert order[i..][1..] == order[i + 1..];
      if order[i] !in pending {
        pending := pending + [order[i]];
      }
    }
    var visited := w.visited + {w.RequestPath()};
    var found := w.names + names;
    if |visited| + |pending| > MAX_OBJECTS || |found| > MAX_NAMES {
      return Refused;
    }
    if |pending| == 0 {
      return Finished(w.(visited := visited, names := found, pending := pending));
    }
    return More(w.(visited := visited, names := found, cursor := Some(pending[0]), pending := pending[1..]));
  }

  /** What every stored walk satisfies: nothing is queued twice, nothing visited is queued, and the budget holds. */
  ghost predicate Sound(w: Walk) {
    if w.cursor.None? then
      w.visited == {} && w.pending == [] && w.retried == {} && w.skipped == []
    else
      && Distinct(w.pending)
      && w.cursor.value !in Elements(w.pending) && w.cursor.value !in w.visited
      && w.visited !! Elements(w.pending)
      && w.retried <= w.Known()
      && |w.visited| + |w.pending| + 1 <= MAX_OBJECTS
  }

  lemma ElementsSize(s: seq<Path>)
    ensures |Elements(s)| <= |s|
  {
  }

  lemma SubsetSize(a: set<Path>, b: set<Path>)
    requires a <= b
    ensures |a| <= |b|
  {
    assert b == a + (b - a);
  }

  lemma RetriedSize(w: Walk)
    requires Sound(w)
    ensures |w.retried| <= MAX_OBJECTS
  {
    ElementsSize(w.pending);
    if w.cursor.Some? {
      SubsetSize(w.retried, w.Known());
    }
  }

  /** A walk positioned at the head of a queue of new objects is sound. */
  lemma QueueSound(v: Walk, queue: seq<Path>)
    requires queue != [] && v.cursor == Some(queue[0]) && v.pending == queue[1..]
    requires Distinct(queue) && v.visited !! Elements(queue) && v.retried <= v.visited + Elements(queue)
    requires |v.visited| + |queue| <= MAX_OBJECTS
    ensures Sound(v) && v.Known() == v.visited + Elements(queue)
  {
  }

  lemma DescendKeepsSound(w: Walk, names: map<Path, bool>, order: seq<Path>)
    requires Sound(w) && Elements(order) !! w.visited && w.RequestPath() !in Elements(order)
    requires Descend(w, names, order).More?
    ensures Sound(Descend(w, names, order).walk)
    ensures Descend(w, names, order).walk.Known() == w.Known() + Elements(order)
  {
    QueueFacts(w, order);
    DescendTo(w, Descend(w, names, order).walk, AppendNew(w.pending, order), w.Known() + Elements(order));
  }

  lemma DescendTo(w: Walk, v: Walk, queue: seq<Path>, known: set<Path>)
    requires queue != [] && v.cursor == Some(queue[0]) && v.pending == queue[1..] && v.visited == w.visited + {w.RequestPath()}
    requires Distinct(queue) && Elements(queue) !! w.visited + {w.RequestPath()} && |v.visited| + |queue| <= MAX_OBJECTS
    requires w.visited + {w.RequestPath()} + Elements(queue) == known && v.retried == w.retried && w.retried <= known
    ensures Sound(v) && v.Known() == known
  {
  }

  lemma QueueFacts(w: Walk, order: seq<Path>)
    requires Sound(w) && Elements(order) !! w.visited && w.RequestPath() !in Elements(order)
    ensures Distinct(AppendNew(w.pending, order))
    ensures Elements(AppendNew(w.pending, order)) !! w.visited + {w.RequestPath()}
    ensures w.visited + {w.RequestPath()} + Elements(AppendNew(w.pending, order)) == w.Known() + Elements(order)
    ensures w.retried <= w.Known() + Elements(order)
  {
    AppendNewElements(w.pending, order);
    QueueSets(w.visited, w.RequestPath(), Elements(w.pending), Elements(order), Elements(AppendNew(w.pending, order)));
  }

  lemma QueueSets(visited: set<Path>, request: Path, pending: set<Path>, added: set<Path>, queue: set<Path>)
    requires queue == pending + added && pending !! visited && request !in pending && added !! visited && request !in added
    ensures queue !! visited + {request} && visited + {request} + queue == visited + {request} + pending + added
  {
  }

  lemma ListingIsNew(w: Walk, names: map<Path, bool>)
    ensures Elements(Listing(Children(w, names))) !! w.visited && w.RequestPath() !in Elements(Listing(Children(w, names)))
  {
    forall p | p in Elements(Listing(Children(w, names))) ensures p in Children(w, names) {
      ElementsMember(Listing(Children(w, names)), p);
      ListingMember(Children(w, names), p);
    }
  }

  lemma AdvanceKeepsSound(w: Walk, names: map<Path, bool>)
    requires Sound(w)
    requires Advance(w, names).More?
    ensures Sound(Advance(w, names).walk)
    ensures Advance(w, names).walk.cursor.Some?
    ensures w.RequestPath() !in w.visited
    ensures Advance(w, names).walk.visited == w.visited + {w.RequestPath()}
    ensures Advance(w, names).walk.Known() == w.Known() + Elements(Listing(Children(w, names)))
  {
    ListingIsNew(w, names);
    DescendKeepsSound(w, names, Listing(Children(w, names)));
  }

  lemma RetryKeepsSound(w: Walk)
    requires Sound(w) && w.cursor.Some? && w.cursor.value !in w.retried
    ensures SkipCursor(w).More? && Sound(SkipCursor(w).walk) && SkipCursor(w).walk.cursor.Some?
    ensures SkipCursor(w).walk.Known() == w.Known()
  {
    var c := w.cursor.value;
    Snoc(w.pending, c);
    RetrySets(w.visited, c, Elements(w.pending), w.retried, Elements(w.pending + [c]));
    QueueSound(SkipCursor(w).walk, w.pending + [c]);
  }

  lemma RetrySets(visited: set<Path>, c: Path, pending: set<Path>, retried: set<Path>, queue: set<Path>)
    requires queue == pending + {c} && pending !! visited && c !in visited && retried <= visited + {c} + pending
    ensures visited !! queue && retried + {c} <= visited + queue && visited + queue == visited + {c} + pending
  {
  }

  lemma GiveUpKeepsSound(w: Walk)
    requires Sound(w) && w.cursor.Some? && w.cursor.value in w.retried && SkipCursor(w).More?
    ensures Sound(SkipCursor(w).walk) && SkipCursor(w).walk.cursor.Some?
    ensures SkipCursor(w).walk.Known() == w.Known()
  {
  }

  lemma SkipKeepsSound(w: Walk)
    requires Sound(w) && SkipCursor(w).More?
    ensures Sound(SkipCursor(w).walk) && SkipCursor(w).walk.cursor.Some?
    ensures SkipCursor(w).walk.Known() == w.Known()
    ensures |SkipCursor(w).walk.visited| + |SkipCursor(w).walk.retried| == |w.visited| + |w.retried| + 1
  {
    if w.cursor.value !in w.retried {
      RetryKeepsSound(w);
    } else {
      GiveUpKeepsSound(w);
    }
  }

  /** How many further answers the walk can take; one more than any set of objects and retries it can hold. */
  ghost function StepsLeft(w: Walk): int {
    if w.cursor.None? then 2 * MAX_OBJECTS + 1 else 2 * MAX_OBJECTS - |w.visited| - |w.retried|
  }

  lemma StepsLeftPositive(w: Walk)
    requires Sound(w)
    ensures StepsLeft(w) >= 1
  {
    RetriedSize(w);
  }

  /** An answer to one request of the walk: names, or a failure (a fault, or a session dropped on the object). */
  datatype Answer = Names(names: map<Path, bool>) | Failure

  function Take(w: Walk, a: Answer): Progress {
    match a
    case Names(names) => Advance(w, names)
    case Failure => SkipCursor(w)
  }

  /** A whole walk against any sequence of answers, stopping when it ends. */
  function Drive(w: Walk, answers: seq<Answer>): Progress
    decreases |answers|
  {
    if answers == [] then More(w)
    else match Take(w, answers[0])
         case More(next) => Drive(next, answers[1..])
         case Refused => Refused
         case Finished(done) => Finished(done)
  }

  lemma TakeDecreases(w: Walk, a: Answer)
    requires Sound(w)
    ensures Take(w, a).More? ==> Sound(Take(w, a).walk) && StepsLeft(Take(w, a).walk) < StepsLeft(w)
  {
    if Take(w, a).More? {
      match a
      case Names(names) => AdvanceKeepsSound(w, names);
      RetriedSize(w);
      case Failure => SkipKeepsSound(w);
    }
  }

  /** A walk ends: whatever the CPE answers, it takes at most 1025 answers. */
  lemma {:induction false} WalkEnds(w: Walk, answers: seq<Answer>)
    requires Sound(w)
    ensures Drive(w, answers).More? ==> |answers| < StepsLeft(w)
    decreases |answers|
  {
    StepsLeftPositive(w);
    if answers != [] {
      TakeDecreases(w, answers[0]);
      if Take(w, answers[0]).More? {
        WalkEnds(Take(w, answers[0]).walk, answers[1..]);
      }
    }
  }

  /** The paths a walk requests, in order. */
  function Requests(w: Walk, answers: seq<Answer>): seq<Path>
    decreases |answers|
  {
    if answers == [] then []
    else
      var later := match Take(w, answers[0]) case More(next) => Requests(next, answers[1..]) case _ => [];
      [w.RequestPath()] + later
  }

  function Chances(w: Walk, path: Path): nat {
    if path in w.visited then 0 else if path in w.retried then 1 else 2
  }

  lemma CountFirst(a: Path, rest: seq<Path>, path: Path)
    ensures multiset([a] + rest)[path] == multiset(rest)[path] + if a == path then 1 else 0
  {
  }

  /** No object is requested more than twice, and an object already visited is never requested again. */
  lemma {:induction false} RequestedAtMostTwice(w: Walk, answers: seq<Answer>, path: Path)
    requires Sound(w)
    ensures multiset(Requests(w, answers))[path] <= Chances(w, path) <= 2
    decreases |answers|
  {
    if answers != [] {
      RequestIsNew(w);
      if Take(w, answers[0]).More? {
        var next := Take(w, answers[0]).walk;
        TakeDecreases(w, answers[0]);
        RequestedAtMostTwice(next, answers[1..], path);
        ChancesDrop(w, answers[0], path);
        CountFirst(w.RequestPath(), Requests(next, answers[1..]), path);
      } else {
        CountFirst(w.RequestPath(), [], path);
      }
    }
  }

  lemma ChancesDrop(w: Walk, a: Answer, path: Path)
    requires Sound(w) && Take(w, a).More?
    ensures Chances(Take(w, a).walk, path) + (if path == w.RequestPath() then 1 else 0) <= Chances(w, path)
  {
    RequestIsNew(w);
    match a
    case Names(names) =>
      AdvanceShape(w, names);
      VisitingDrops(w, Advance(w, names).walk, path);
    case Failure =>
      SkipShape(w);
      if w.cursor.value in w.retried {
        VisitingDrops(w, SkipCursor(w).walk, path);
      } else {
        RetryingDrops(w, SkipCursor(w).walk, path);
      }
  }

  lemma RequestIsNew(w: Walk)
    requires Sound(w)
    ensures w.RequestPath() !in w.visited
  {
  }

  lemma VisitingDrops(w: Walk, v: Walk, path: Path)
    requires w.RequestPath() !in w.visited && v.visited == w.visited + {w.RequestPath()} && v.retried == w.retried
    ensures Chances(v, path) + (if path == w.RequestPath() then 1 else 0) <= Chances(w, path)
  {
  }

  lemma RetryingDrops(w: Walk, v: Walk, path: Path)
    requires w.RequestPath() !in w.visited && w.RequestPath() !in w.retried
    requires v.visited == w.visited && v.retried == w.retried + {w.RequestPath()}
    ensures Chances(v, path) + (if path == w.RequestPath() then 1 else 0) <= Chances(w, path)
  {
  }

  lemma SkipShape(w: Walk)
    requires SkipCursor(w).More?
    ensures w.cursor.Some? && SkipCursor(w).walk.names == w.names
    ensures SkipCursor(w).walk.cursor.Some? && SkipCursor(w).walk.incremental == w.incremental
    ensures if w.cursor.value !in w.retried
            then SkipCursor(w).walk.visited == w.visited && SkipCursor(w).walk.retried == w.retried + {w.cursor.value}
            else SkipCursor(w).walk.visited == w.visited + {w.cursor.value} && SkipCursor(w).walk.retried == w.retried
  {
  }

  lemma AdvanceShape(w: Walk, names: map<Path, bool>)
    requires Advance(w, names).More?
    ensures Advance(w, names).walk.visited == w.visited + {w.RequestPath()}
    ensures Advance(w, names).walk.retried == w.retried
    ensures Advance(w, names).walk.names == w.names + names
    ensures Advance(w, names).walk.cursor.Some? && Advance(w, names).walk.incremental == w.incremental
  {
  }

  function ReportedBy(a: Answer): set<Path> {
    if a.Names? then a.names.Keys else {}
  }

  /** The new objects of an answer that the walk agrees to descend into. */
  ghost function AdmittedBy(w: Walk, a: Answer): set<Path> {
    if a.Names? then Elements(Listing(Children(w, a.names))) else {}
  }

  /** Those are the reported objects, neither requested nor visited before, that collapsing their table keeps. */
  lemma AdmittedExactly(w: Walk, names: map<Path, bool>, path: Path)
    ensures path in AdmittedBy(w, Names(names)) <==>
            path in names && Descends(w, path) && Kept(Sorted(Children(w, names)), path, TableLimit)
  {
    ElementsMember(Listing(Children(w, names)), path);
    ListingMember(Children(w, names), path);
  }

  /** Every path any accepted answer reported. */
  function Reported(w: Walk, answers: seq<Answer>): set<Path>
    decreases |answers|
  {
    if answers == [] then {}
    else
      var later := match Take(w, answers[0]) case More(next) => Reported(next, answers[1..]) case _ => {};
      ReportedBy(answers[0]) + later
  }

  /** Every object the walk agreed to descend into. */
  ghost function Admitted(w: Walk, answers: seq<Answer>): set<Path>
    decreases |answers|
  {
    if answers == [] then {}
    else
      var later := match Take(w, answers[0]) case More(next) => Admitted(next, answers[1..]) case _ => {};
      AdmittedBy(w, answers[0]) + later
  }

  /** What one answer settles about the object requested: it was answered, given up, or (deferred) neither. */
  function AnsweredBy(w: Walk, a: Answer): set<Path> {
    if a.Names? then {w.RequestPath()} else {}
  }

  function GivenUpBy(w: Walk, a: Answer): seq<Path> {
    if a.Failure? && w.RequestPath() in w.retried then [w.RequestPath()] else []
  }

  /** Every object the CPE answered for. */
  function AnsweredObjects(w: Walk, answers: seq<Answer>): set<Path>
    decreases |answers|
  {
    if answers == [] then {}
    else
      var later := match Take(w, answers[0]) case More(next) => AnsweredObjects(next, answers[1..]) case _ => {};
      AnsweredBy(w, answers[0]) + later
  }

  /** Every object the walk gave up on, in order. */
  function GivenUpObjects(w: Walk, answers: seq<Answer>): seq<Path>
    decreases |answers|
  {
    if answers == [] then []
    else
      var later := match Take(w, answers[0]) case More(next) => GivenUpObjects(next, answers[1..]) case _ => [];
      GivenUpBy(w, answers[0]) + later
  }

  /** Where an accepted answer leaves the walk, whether it goes on or ends. */
  ghost predicate Leaves(w: Walk, v: Walk, answered: set<Path>, givenUp: seq<Path>) {
    && v.visited == w.visited + answered + Elements(givenUp) && v.skipped == w.skipped + givenUp
    && (|w.skipped| <= MAX_SKIPPED ==> |v.skipped| <= MAX_SKIPPED)
  }

  lemma DescendSettles(w: Walk, names: map<Path, bool>, order: seq<Path>)
    requires !Descend(w, names, order).Refused?
    ensures Leaves(w, Descend(w, names, order).walk, {w.RequestPath()}, [])
  {
    LeavesAnswered(w, Descend(w, names, order).walk, w.RequestPath());
  }

  lemma LeavesAnswered(w: Walk, v: Walk, path: Path)
    requires v.visited == w.visited + {path} && v.skipped == w.skipped
    ensures Leaves(w, v, {path}, [])
  {
    assert w.skipped + [] == w.skipped;
  }

  lemma SkipSettles(w: Walk)
    requires !SkipCursor(w).Refused?
    ensures Leaves(w, SkipCursor(w).walk, {}, if w.RequestPath() in w.retried then [w.RequestPath()] else [])
  {
  }

  lemma TakeSettles(w: Walk, a: Answer)
    requires !Take(w, a).Refused?
    ensures Leaves(w, Take(w, a).walk, AnsweredBy(w, a), GivenUpBy(w, a))
  {
    match a
    case Names(names) => DescendSettles(w, names, Listing(Children(w, names)));
    case Failure => SkipSettles(w);
  }

  lemma LeavesChain(u: Walk, v: Walk, w: Walk, a: set<Path>, g: seq<Path>, b: set<Path>, h: seq<Path>)
    requires Leaves(u, v, a, g) && Leaves(v, w, b, h)
    ensures Leaves(u, w, a + b, g + h)
  {
    ElementsConcat(g, h);
  }

  lemma ElementsConcat(a: seq<Path>, b: seq<Path>)
    ensures Elements(a + b) == Elements(a) + Elements(b)
  {
    if a == [] {
      assert a + b == b;
    } else {
      assert (a + b)[1..] == a[1..] + b;
      ElementsConcat(a[1..], b);
    }
  }

  /** Objects answered and given up over the whole walk are new, and no object is both. */
  lemma {:induction false} SettledOnce(w: Walk, answers: seq<Answer>)
    requires Sound(w)
    ensures AnsweredObjects(w, answers) !! w.visited && Elements(GivenUpObjects(w, answers)) !! w.visited
    ensures AnsweredObjects(w, answers) !! Elements(GivenUpObjects(w, answers))
    decreases |answers|
  {
    if answers != [] {
      var a := answers[0];
      SettlesNew(w, a);
      if Take(w, a).More? {
        var next := Take(w, a).walk;
        TakeDecreases(w, a);
        SettledOnce(next, answers[1..]);
        ElementsConcat(GivenUpBy(w, a), GivenUpObjects(next, answers[1..]));
        DisjointChain(w.visited, AnsweredBy(w, a), Elements(GivenUpBy(w, a)),
                      AnsweredObjects(next, answers[1..]), Elements(GivenUpObjects(next, answers[1..])));
      }
    }
  }

  /** One answer settles an object that was not visited, in one way only. */
  lemma SettlesNew(w: Walk, a: Answer)
    requires Sound(w)
    ensures AnsweredBy(w, a) !! w.visited && Elements(GivenUpBy(w, a)) !! w.visited && AnsweredBy(w, a) !! Elements(GivenUpBy(w, a))
    ensures Take(w, a).More? ==> Take(w, a).walk.visited == w.visited + AnsweredBy(w, a) + Elements(GivenUpBy(w, a))
  {
    RequestIsNew(w);
    if Take(w, a).More? {
      TakeSettles(w, a);
    }
  }

  lemma DisjointChain(visited: set<Path>, a: set<Path>, g: set<Path>, b: set<Path>, h: set<Path>)
    requires a !! visited && g !! visited && a !! g && b !! visited + a + g && h !! visited + a + g && b !! h
    ensures a + b !! visited && g + h !! visited && a + b !! g + h
  {
  }

  /**
   What a finished walk leaves: it visited every object it knew of or was told of and
   admitted; each of these it was answered for or gave up on after two failures, none
   both, at most 32 given up and listed as skipped; and its result is exactly the names
   its answers reported.
   */
  lemma {:induction false} FinishedWalkIsComplete(w: Walk, answers: seq<Answer>)
    requires Sound(w) && |w.skipped| <= MAX_SKIPPED && Drive(w, answers).Finished?
    ensures var done := Drive(w, answers).walk;
            && done.visited == w.Known() + Admitted(w, answers)
            && done.visited == w.visited + AnsweredObjects(w, answers) + Elements(GivenUpObjects(w, answers))
            && AnsweredObjects(w, answers) !! Elements(GivenUpObjects(w, answers))
            && done.skipped == w.skipped + GivenUpObjects(w, answers) && |done.skipped| <= MAX_SKIPPED
            && done.names.Keys == w.names.Keys + Reported(w, answers)
  {
    SettledOnce(w, answers);
    VisitsAdmitted(w, answers);
    VisitsSettled(w, answers);
  }

  lemma {:induction false} VisitsSettled(w: Walk, answers: seq<Answer>)
    requires Sound(w) && Drive(w, answers).Finished?
    ensures Leaves(w, Drive(w, answers).walk, AnsweredObjects(w, answers), GivenUpObjects(w, answers))
    decreases |answers|
  {
    var a, rest := answers[0], answers[1..];
    TakeSettles(w, a);
    if Take(w, a).More? {
      var next := Take(w, a).walk;
      TakeDecreases(w, a);
      VisitsSettled(next, rest);
      LeavesChain(w, next, Drive(next, rest).walk, AnsweredBy(w, a), GivenUpBy(w, a), AnsweredObjects(next, rest), GivenUpObjects(next, rest));
    } else {
      assert AnsweredBy(w, a) + {} == AnsweredBy(w, a) && GivenUpBy(w, a) + [] == GivenUpBy(w, a);
    }
  }

  /** The walk visits what it knows, and its names are those it knows. */
  ghost predicate Visits(w: Walk, done: Walk, admitted: set<Path>, reported: set<Path>) {
    done.visited == w.Known() + admitted && done.names.Keys == w.names.Keys + reported
  }

  lemma VisitsChain(w: Walk, v: Walk, done: Walk, a: set<Path>, r: set<Path>, b: set<Path>, q: set<Path>)
    requires v.Known() == w.Known() + a && v.names.Keys == w.names.Keys + r && Visits(v, done, b, q)
    ensures Visits(w, done, a + b, r + q)
  {
  }

  lemma {:induction false} VisitsAdmitted(w: Walk, answers: seq<Answer>)
    requires Sound(w) && Drive(w, answers).Finished?
    ensures Visits(w, Drive(w, answers).walk, Admitted(w, answers), Reported(w, answers))
    decreases |answers|
  {
    var a, rest := answers[0], answers[1..];
    if Take(w, a).More? {
      var next := Take(w, a).walk;
      MiddleStep(w, a);
      VisitsAdmitted(next, rest);
      VisitsChain(w, next, Drive(next, rest).walk, AdmittedBy(w, a), ReportedBy(a), Admitted(next, rest), Reported(next, rest));
    } else {
      LastStep(w, a);
      assert AdmittedBy(w, a) + {} == AdmittedBy(w, a) && ReportedBy(a) + {} == ReportedBy(a);
    }
  }

  lemma MiddleStep(w: Walk, a: Answer)
    requires Sound(w) && Take(w, a).More?
    ensures Sound(Take(w, a).walk)
    ensures Take(w, a).walk.Known() == w.Known() + AdmittedBy(w, a)
    ensures Take(w, a).walk.names.Keys == w.names.Keys + ReportedBy(a)
  {
    match a
    case Names(names) => NamesStep(w, names);
    case Failure => FailureStep(w);
  }

  lemma FailureStep(w: Walk)
    requires Sound(w) && SkipCursor(w).More?
    ensures Sound(SkipCursor(w).walk)
    ensures SkipCursor(w).walk.Known() == w.Known() + {}
    ensures SkipCursor(w).walk.names.Keys == w.names.Keys + {}
  {
    SkipKeepsSound(w);
    SkipShape(w);
  }

  lemma NamesStep(w: Walk, names: map<Path, bool>)
    requires Sound(w) && Advance(w, names).More?
    ensures Sound(Advance(w, names).walk)
    ensures Advance(w, names).walk.Known() == w.Known() + Elements(Listing(Children(w, names)))
    ensures Advance(w, names).walk.names.Keys == w.names.Keys + names.Keys
  {
    AdvanceKeepsSound(w, names);
    AdvanceShape(w, names);
  }

  lemma LastStep(w: Walk, a: Answer)
    requires Sound(w) && Take(w, a).Finished?
    ensures Visits(w, Take(w, a).walk, AdmittedBy(w, a), ReportedBy(a))
  {
    match a
    case Names(names) => DescendFinished(w, names, Listing(Children(w, names)));
    case Failure => SkipFinished(w);
  }

  lemma SkipFinished(w: Walk)
    requires SkipCursor(w).Finished?
    ensures Visits(w, SkipCursor(w).walk, {}, {})
  {
  }

  lemma DescendFinished(w: Walk, names: map<Path, bool>, order: seq<Path>)
    requires Descend(w, names, order).Finished?
    ensures Visits(w, Descend(w, names, order).walk, Elements(order), names.Keys)
  {
    AppendNewElements(w.pending, order);
  }
}
