/**
 The token-version cache: a revocation check that asks the database at most once per
 operator and TTL. The cache is locked only while it is read and while it is written, so
 the steps of different checks, revocations and logouts interleave freely; times are
 milliseconds.
 */
module TokenVersions {
  import opened Options

  type Subject = nat
  type RequestId = nat

  const TTL: int := 15000

  datatype Entry = Entry(version: int, expires: int)

  datatype Verdict = Accepted | Refused | Unavailable

  /** Where a check is: waiting for the database, holding what it read, holding the entry it will store, or done. */
  datatype Phase = Looking | Read(seen: int) | Stamped(entry: Entry) | Decided(verdict: Verdict)

  /** `service` is the service identity, which has no operator row. */
  datatype Request = Request(subject: Subject, version: int, service: bool, phase: Phase)

  /** The operators' live token versions, this process's cache of them, and its checks. */
  datatype State = State(live: map<Subject, int>, cache: map<Subject, Entry>, requests: seq<Request>)

  const START := State(map[], map[], [])

  /** A logout is a Revoke and, after it, a Forget; other processes revoke without forgetting here. */
  datatype Event =
    | Arrive(at: int, subject: Subject, version: int, service: bool)
    | Lookup(at: int, request: RequestId, works: bool)
    | Stamp(at: int, request: RequestId)
    | Store(at: int, request: RequestId)
    | Revoke(at: int, subject: Subject, raise: nat)
    | Forget(at: int, subject: Subject)

  function Live(s: State, subject: Subject): int {
    if subject in s.live then s.live[subject] else 0
  }

  predicate Cached(s: State, subject: Subject, now: int) {
    subject in s.cache && now <= s.cache[subject].expires
  }

  function Judge(version: int, current: int): Phase {
    Decided(if version >= current then Accepted else Refused)
  }

  /** The first locked section: what a check finds in the cache. */
  function Opening(s: State, at: int, subject: Subject, version: int, service: bool): Phase {
    if service then Decided(Accepted)
    else if Cached(s, subject, at) then Judge(version, s.cache[subject].version)
    else Looking
  }

  function To(s: State, r: RequestId, p: Phase): State
    requires r < |s.requests|
  {
    s.(requests := s.requests[r := s.requests[r].(phase := p)])
  }

  /** The next step of a check already begun; a step that is not its next one does nothing. */
  function Proceed(s: State, e: Event): State
    requires (e.Lookup? || e.Stamp? || e.Store?) && e.request < |s.requests|
  {
    var q := s.requests[e.request];
    match q.phase
    case Looking => if !e.Lookup? then s else To(s, e.request, if e.works then Read(Live(s, q.subject)) else Decided(Unavailable))
    case Read(seen) => if e.Stamp? then To(s, e.request, Stamped(Entry(seen, e.at + TTL))) else s
    case Stamped(entry) =>
      if e.Store? then To(s, e.request, Judge(q.version, entry.version)).(cache := s.cache[q.subject := entry]) else s
    case Decided(_) => s
  }

  function Next(s: State, e: Event): State {
    match e
    case Arrive(at, subject, version, service) =>
      s.(requests := s.requests + [Request(subject, version, service, Opening(s, at, subject, version, service))])
    case Revoke(_, subject, raise) => s.(live := s.live[subject := Live(s, subject) + raise])
    case Forget(_, subject) => s.(cache := s.cache - {subject})
    case _ => if e.request < |s.requests| then Proceed(s, e) else s
  }

  function Run(s: State, events: seq<Event>): State {
    if events == [] then s else Next(Run(s, events[..|events| - 1]), events[|events| - 1])
  }

  /** No event is earlier than the one before it, nor than `from`. */
  ghost predicate OrderedFrom(from: int, events: seq<Event>) {
    && (forall i :: 0 <= i < |events| ==> from <= events[i].at)
    && forall i, j :: 0 <= i < j < |events| ==> events[i].at <= events[j].at
  }

  /** Nothing held or cached is above the live version, and what was refused is below it. */
  ghost predicate BelowLive(s: State, q: Request) {
    match q.phase
    case Read(seen) => seen <= Live(s, q.subject)
    case Stamped(entry) => entry.version <= Live(s, q.subject)
    case Decided(verdict) => verdict.Refused? ==> q.version < Live(s, q.subject)
    case Looking => true
  }

  ghost predicate NeverAhead(s: State) {
    && (forall subject :: subject in s.cache ==> s.cache[subject].version <= Live(s, subject))
    && (forall r :: 0 <= r < |s.requests| ==> BelowLive(s, s.requests[r]))
  }

  lemma StepNeverAhead(s: State, e: Event)
    requires NeverAhead(s)
    ensures NeverAhead(Next(s, e))
  {
    var t := Next(s, e);
    forall r | 0 <= r < |t.requests| ensures BelowLive(t, t.requests[r]) {
      if r < |s.requests| {
        assert BelowLive(s, s.requests[r]);
      }
    }
    if e.Store? && e.request < |s.requests| {
      assert BelowLive(s, s.requests[e.request]);
    }
  }

  lemma {:induction false} RunNeverAhead(events: seq<Event>)
    ensures NeverAhead(Run(START, events))
  {
    if events != [] {
      RunNeverAhead(events[..|events| - 1]);
      StepNeverAhead(Run(START, events[..|events| - 1]), events[|events| - 1]);
    }
  }

  /** A token at the live version is never refused by staleness: only a failing lookup, which fails closed, turns it away. */
  lemma LiveTokenAccepted(events: seq<Event>, r: RequestId)
    requires r < |Run(START, events).requests| && Run(START, events).requests[r].phase.Decided?
    ensures var s := Run(START, events);
            var q := s.requests[r];
            q.version >= Live(s, q.subject) ==> q.phase.verdict.Accepted? || q.phase.verdict.Unavailable?
  {
    RunNeverAhead(events);
    assert BelowLive(Run(START, events), Run(START, events).requests[r]);
  }

  /** Event k read the version that was live then. */
  ghost predicate ReadBy(events: seq<Event>, k: nat, r: RequestId, subject: Subject, version: int) {
    k < |events| && events[k].Lookup? && events[k].request == r && Live(Run(START, events[..k]), subject) == version
  }

  /** The entry was read by event k and stamped by event m, of one check. */
  ghost predicate FetchedBy(events: seq<Event>, k: nat, m: nat, subject: Subject, entry: Entry) {
    k < m < |events| && events[m].Stamp? && ReadBy(events, k, events[m].request, subject, entry.version) && events[m].at + TTL == entry.expires
  }

  ghost predicate Fetched(events: seq<Event>, subject: Subject, entry: Entry) {
    exists k: nat, m: nat :: FetchedBy(events, k, m, subject, entry)
  }

  ghost predicate WasRead(events: seq<Event>, r: RequestId, subject: Subject, version: int) {
    exists k: nat :: ReadBy(events, k, r, subject, version)
  }

  /** Where what is held and cached comes from. */
  ghost predicate Traced(events: seq<Event>, s: State) {
    && (forall subject :: subject in s.cache ==> Fetched(events, subject, s.cache[subject]))
    && (forall r :: 0 <= r < |s.requests| && s.requests[r].phase.Read? ==>
                      WasRead(events, r, s.requests[r].subject, s.requests[r].phase.seen))
    && (forall r :: 0 <= r < |s.requests| && s.requests[r].phase.Stamped? ==>
                      Fetched(events, s.requests[r].subject, s.requests[r].phase.entry)
                      && WasRead(events, r, s.requests[r].subject, s.requests[r].phase.entry.version))
  }

  lemma ReadStays(events: seq<Event>, e: Event, r: RequestId, subject: Subject, version: int)
    requires WasRead(events, r, subject, version)
    ensures WasRead(events + [e], r, subject, version)
  {
    var k: nat :| ReadBy(events, k, r, subject, version);
    assert (events + [e])[..k] == events[..k];
    assert ReadBy(events + [e], k, r, subject, version);
  }

  lemma FetchedStays(events: seq<Event>, e: Event, subject: Subject, entry: Entry)
    requires Fetched(events, subject, entry)
    ensures Fetched(events + [e], subject, entry)
  {
    var k: nat, m: nat :| FetchedBy(events, k, m, subject, entry);
    assert (events + [e])[..k] == events[..k];
    assert FetchedBy(events + [e], k, m, subject, entry);
  }

  /** Reading and stamping, the two steps that give a check something new to hold. */
  lemma ReadsNow(events: seq<Event>, e: Event, subject: Subject)
    requires e.Lookup?
    ensures WasRead(events + [e], e.request, subject, Live(Run(START, events), subject))
  {
    assert (events + [e])[..|events|] == events;
    assert ReadBy(events + [e], |events|, e.request, subject, Live(Run(START, events), subject));
  }

  lemma StampsNow(events: seq<Event>, e: Event, subject: Subject, version: int)
    requires e.Stamp? && WasRead(events, e.request, subject, version)
    ensures Fetched(events + [e], subject, Entry(version, e.at + TTL))
  {
    var k: nat :| ReadBy(events, k, e.request, subject, version);
    assert (events + [e])[..k] == events[..k];
    assert FetchedBy(events + [e], k, |events|, subject, Entry(version, e.at + TTL));
  }

  lemma StepTraced(events: seq<Event>, e: Event)
    requires Traced(events, Run(START, events))
    ensures Traced(events + [e], Next(Run(START, events), e))
  {
    var s := Run(START, events);
    var t := Next(s, e);
    forall subject | subject in t.cache ensures Fetched(events + [e], subject, t.cache[subject]) {
      FetchedStays(events, e, subject, t.cache[subject]);
    }
    forall r | 0 <= r < |t.requests| && t.requests[r].phase.Read?
      ensures WasRead(events + [e], r, t.requests[r].subject, t.requests[r].phase.seen)
    {
      HeldTraced(events, e, s, t, r);
    }
    forall r | 0 <= r < |t.requests| && t.requests[r].phase.Stamped?
      ensures Fetched(events + [e], t.requests[r].subject, t.requests[r].phase.entry)
      ensures WasRead(events + [e], r, t.requests[r].subject, t.requests[r].phase.entry.version)
    {
      HeldTraced(events, e, s, t, r);
    }
  }

  lemma HeldTraced(events: seq<Event>, e: Event, s: State, t: State, r: RequestId)
    requires s == Run(START, events) && t == Next(s, e) && Traced(events, s) && r < |t.requests|
    ensures var q := t.requests[r];
            && (q.phase.Read? ==> WasRead(events + [e], r, q.subject, q.phase.seen))
            && (q.phase.Stamped? ==>
                  Fetched(events + [e], q.subject, q.phase.entry) && WasRead(events + [e], r, q.subject, q.phase.entry.version))
  {
    if r < |s.requests| {
      var q := s.requests[r];
      if q.phase.Looking? && e.Lookup? && e.request == r {
        ReadsNow(events, e, q.subject);
      } else if q.phase.Read? {
        ReadStays(events, e, r, q.subject, q.phase.seen);
        if e.Stamp? && e.request == r {
          StampsNow(events, e, q.subject, q.phase.seen);
        }
      } else if q.phase.Stamped? {
        ReadStays(events, e, r, q.subject, q.phase.entry.version);
        FetchedStays(events, e, q.subject, q.phase.entry);
      }
    }
  }

  lemma {:induction false} RunTraced(events: seq<Event>)
    ensures Traced(events, Run(START, events))
  {
    if events != [] {
      var n := |events| - 1;
      RunTraced(events[..n]);
      StepTraced(events[..n], events[n]);
      assert events == events[..n] + [events[n]];
    }
  }

  /** Event e, in state s, accepts request r, which is no service identity. */
  ghost predicate Accepts(s: State, e: Event, r: RequestId) {
    var t := Next(s, e);
    && r < |t.requests| && !t.requests[r].service && t.requests[r].phase == Decided(Accepted)
    && (r < |s.requests| ==> !s.requests[r].phase.Decided?)
  }

  /** There are two ways: at the end of a check's own fetch, or from the cache. */
  lemma AcceptingSteps(s: State, e: Event, r: RequestId)
    requires Accepts(s, e, r)
    ensures var q := Next(s, e).requests[r];
            if r < |s.requests|
            then e.Store? && q.subject == s.requests[r].subject && s.requests[r].phase.Stamped? && s.requests[r].phase.entry.version <= q.version
            else e.Arrive? && e.subject == q.subject && e.version == q.version && Cached(s, q.subject, e.at) && s.cache[q.subject].version <= q.version
  {
  }

  ghost predicate ReadAtMost(events: seq<Event>, r: RequestId, subject: Subject, version: int) {
    exists v: int :: v <= version && WasRead(events, r, subject, v)
  }

  ghost predicate FetchedAtMost(events: seq<Event>, subject: Subject, version: int, now: int) {
    exists entry: Entry :: entry.version <= version && now <= entry.expires && Fetched(events, subject, entry)
  }

  /**
   A token is accepted only with at least the version its own check read from the
   database, or one that some check read and stamped at most a TTL ago.
   */
  lemma AcceptedWasCurrent(events: seq<Event>, e: Event, r: RequestId)
    requires Accepts(Run(START, events), e, r)
    ensures var q := Next(Run(START, events), e).requests[r];
            ReadAtMost(events, r, q.subject, q.version) || FetchedAtMost(events, q.subject, q.version, e.at)
  {
    RunTraced(events);
    var s := Run(START, events);
    AcceptingSteps(s, e, r);
    if r < |s.requests| {
      assert WasRead(events, r, s.requests[r].subject, s.requests[r].phase.entry.version);
    } else {
      assert Fetched(events, e.subject, s.cache[e.subject]);
    }
  }

  /** Every check stamps what it read within `delay` of reading it. */
  ghost predicate Prompt(events: seq<Event>, delay: int) {
    forall k, m :: 0 <= k < m < |events| && events[k].Lookup? && events[m].Stamp? && events[m].request == events[k].request ==>
                     events[m].at <= events[k].at + delay
  }

  /** At the moment of event k, at most a TTL and the delay before `now`, no more than this version was live. */
  ghost predicate LiveWithin(events: seq<Event>, k: nat, subject: Subject, version: int, now: int, delay: int) {
    k < |events| && now - TTL - delay <= events[k].at && Live(Run(START, events[..k]), subject) <= version
  }

  /**
   So a token accepted from the cache at time t has at least the version live at some
   moment no earlier than t - TTL - delay: a revoked token works one TTL longer than the
   slowest lookup takes to be stamped.
   */
  lemma RevokedWorksAtMost(events: seq<Event>, e: Event, r: RequestId, delay: int)
    requires Accepts(Run(START, events), e, r) && e.Arrive? && Prompt(events, delay)
    ensures exists k: nat :: LiveWithin(events, k, e.subject, e.version, e.at, delay)
  {
    RunTraced(events);
    AcceptingSteps(Run(START, events), e, r);
    var entry := Run(START, events).cache[e.subject];
    assert Fetched(events, e.subject, entry);
    var k: nat, m: nat :| FetchedBy(events, k, m, e.subject, entry);
    assert LiveWithin(events, k, e.subject, e.version, e.at, delay);
  }

  /** The bound is reached: a token revoked while its version is on its way from the database works for that delay and a whole TTL more. */
  lemma SlowLookupOutlivesTtl(subject: Subject, delay: nat)
    ensures var s1 := Next(Next(START, Arrive(0, subject, 0, false)), Lookup(0, 0, true));
            var s2 := Next(s1, Revoke(0, subject, 1));
            var s3 := Next(Next(s2, Stamp(delay, 0)), Store(delay, 0));
            Live(s2, subject) == 1 && Accepts(s3, Arrive(delay + TTL, subject, 0, false), 1)
  {
  }

  /** A check that holds a version below `least` of the operator, read before and not yet too old to matter. */
  ghost predicate Stale(q: Request, subject: Subject, least: int, now: int) {
    && q.subject == subject
    && match q.phase
       case Read(seen) => seen < least
       case Stamped(entry) => entry.version < least && now <= entry.expires
       case _ => false
  }

  /** No check in flight holds such a version. */
  ghost predicate NoStaleFetch(s: State, subject: Subject, least: int, now: int) {
    forall r :: 0 <= r < |s.requests| ==> !Stale(s.requests[r], subject, least, now)
  }

  /** From here on, a token of the operator presented anew and accepted has at least version `least`. */
  ghost predicate Obeyed(s: State, later: seq<Event>, r: RequestId, subject: Subject, least: int, now: int) {
    var t := Run(s, later);
    OrderedFrom(now, later) && |s.requests| <= r < |t.requests| ==>
      var q := t.requests[r];
      q.subject == subject && !q.service && q.phase == Decided(Accepted) ==> q.version >= least
  }

  ghost predicate Effective(s: State, subject: Subject, least: int, now: int) {
    forall later: seq<Event>, r: RequestId :: Obeyed(s, later, r, subject, least, now)
  }

  /** What a check begun after the logout can hold or have been told. */
  ghost predicate Current(q: Request, subject: Subject, least: int) {
    q.subject == subject && !q.service ==>
      match q.phase
      case Read(seen) => seen >= least
      case Stamped(entry) => entry.version >= least
      case Decided(verdict) => verdict.Accepted? ==> q.version >= least
      case Looking => true
  }

  /** The state after a logout, with `base` checks begun before it. */
  ghost predicate Renewed(s: State, base: nat, subject: Subject, least: int, now: int) {
    && base <= |s.requests| && Live(s, subject) >= least && NoStaleFetch(s, subject, least, now)
    && (Cached(s, subject, now) ==> s.cache[subject].version >= least)
    && forall r :: base <= r < |s.requests| ==> Current(s.requests[r], subject, least)
  }

  lemma RenewedLater(s: State, base: nat, subject: Subject, least: int, now: int, later: int)
    requires Renewed(s, base, subject, least, now) && now <= later
    ensures Renewed(s, base, subject, least, later)
  {
    forall r | 0 <= r < |s.requests| ensures !Stale(s.requests[r], subject, least, later) {
      assert !Stale(s.requests[r], subject, least, now);
    }
  }

  lemma StepRenewed(s: State, e: Event, base: nat, subject: Subject, least: int)
    requires Renewed(s, base, subject, least, e.at)
    ensures Renewed(Next(s, e), base, subject, least, e.at)
  {
    var t := Next(s, e);
    forall r | 0 <= r < |t.requests| ensures !Stale(t.requests[r], subject, least, e.at) && (r >= base ==> Current(t.requests[r], subject, least)) {
      if r < |s.requests| {
        assert !Stale(s.requests[r], subject, least, e.at);
        assert r >= base ==> Current(s.requests[r], subject, least);
      }
    }
    if e.Store? && e.request < |s.requests| {
      assert !Stale(s.requests[e.request], subject, least, e.at);
    }
  }

  lemma {:induction false} RunRenewed(s: State, later: seq<Event>, subject: Subject, least: int, now: int, at: int)
    requires Renewed(s, |s.requests|, subject, least, now) && OrderedFrom(now, later)
    requires now <= at && forall i :: 0 <= i < |later| ==> later[i].at <= at
    ensures Renewed(Run(s, later), |s.requests|, subject, least, at)
  {
    if later == [] {
      RenewedLater(s, |s.requests|, subject, least, now, at);
    } else {
      var n := |later| - 1;
      RunRenewed(s, later[..n], subject, least, now, later[n].at);
      StepRenewed(Run(s, later[..n]), later[n], |s.requests|, subject, least);
      RenewedLater(Run(s, later), |s.requests|, subject, least, later[n].at, at);
    }
  }

  lemma NoStaleFetchSuffices(s: State, subject: Subject, least: int, now: int)
    requires subject !in s.cache && Live(s, subject) >= least && NoStaleFetch(s, subject, least, now)
    ensures Effective(s, subject, least, now)
  {
    forall later: seq<Event>, r: RequestId ensures Obeyed(s, later, r, subject, least, now) {
      if OrderedFrom(now, later) && |s.requests| <= r < |Run(s, later).requests| {
        RunRenewed(s, later, subject, least, now, if later == [] then now else later[|later| - 1].at);
        assert Current(Run(s, later).requests[r], subject, least);
      }
    }
  }

  /** A check that holds an old version stores it after the logout, and the next token of that version is taken. */
  lemma StaleFetchSurvives(s: State, subject: Subject, least: int, now: int, r: RequestId)
    requires r < |s.requests| && Stale(s.requests[r], subject, least, now)
    ensures !Effective(s, subject, least, now)
  {
    var phase := s.requests[r].phase;
    var version := if phase.Read? then phase.seen else phase.entry.version;
    var ready := if phase.Read? then Next(s, Stamp(now, r)) else s;
    var before := if phase.Read? then [Stamp(now, r)] else [];
    assert Run(s, before) == ready by {
      if phase.Read? {
        assert before[..0] == [];
      }
    }
    var later := before + [Store(now, r)] + [Arrive(now, subject, version, false)];
    RunTwo(s, before, Store(now, r), Arrive(now, subject, version, false));
    StoredIsUsed(ready, r, subject, version, now);
    assert !Obeyed(s, later, |s.requests|, subject, least, now);
  }

  lemma RunTwo(s: State, before: seq<Event>, a: Event, b: Event)
    ensures Run(s, before + [a] + [b]) == Next(Next(Run(s, before), a), b)
  {
    assert (before + [a] + [b])[..|before| + 1] == before + [a];
    assert (before + [a])[..|before|] == before;
  }

  lemma StoredIsUsed(s: State, r: RequestId, subject: Subject, version: int, now: int)
    requires r < |s.requests| && s.requests[r].subject == subject && s.requests[r].phase.Stamped?
    requires s.requests[r].phase.entry.version == version && now <= s.requests[r].phase.entry.expires
    ensures var t := Next(Next(s, Store(now, r)), Arrive(now, subject, version, false));
            |t.requests| == |s.requests| + 1 && t.requests[|s.requests|] == Request(subject, version, false, Decided(Accepted))
  {
  }

  /**
   A logout takes effect at once, for every token presented after it in whatever
   interleaving, if and only if no check in flight at that moment holds an older version.
   */
  lemma LogoutTakesEffectAtOnce(events: seq<Event>, logout: Event)
    requires logout.Forget?
    ensures var s := Next(Run(START, events), logout);
            var least := Live(s, logout.subject);
            Effective(s, logout.subject, least, logout.at) <==> NoStaleFetch(s, logout.subject, least, logout.at)
  {
    var s := Next(Run(START, events), logout);
    var least := Live(s, logout.subject);
    if NoStaleFetch(s, logout.subject, least, logout.at) {
      NoStaleFetchSuffices(s, logout.subject, least, logout.at);
    } else {
      var r :| 0 <= r < |s.requests| && Stale(s.requests[r], logout.subject, least, logout.at);
      StaleFetchSurvives(s, logout.subject, least, logout.at, r);
    }
  }

  /** Such a check exists: one whose lookup returned just before the revocation. */
  lemma FetchAcrossLogout(subject: Subject)
    ensures var s1 := Next(Next(START, Arrive(0, subject, 0, false)), Lookup(0, 0, true));
            var s2 := Next(Next(s1, Revoke(0, subject, 1)), Forget(0, subject));
            && !NoStaleFetch(s2, subject, Live(s2, subject), 0)
            && Accepts(Next(Next(s2, Stamp(0, 0)), Store(0, 0)), Arrive(0, subject, 0, false), 1)
  {
    var s1 := Next(Next(START, Arrive(0, subject, 0, false)), Lookup(0, 0, true));
    var s2 := Next(Next(s1, Revoke(0, subject, 1)), Forget(0, subject));
    assert Stale(s2.requests[0], subject, 1, 0);
  }

  /** One check with nothing in between: it arrives at `now` and the lookup, if there is one, returns at `returned`. */
  function Alone(s: State, subject: Subject, version: int, service: bool, now: int, returned: int, works: bool): State {
    var r := |s.requests|;
    Next(Next(Next(Next(s, Arrive(now, subject, version, service)), Lookup(now, r, works)), Stamp(returned, r)), Store(returned, r))
  }

  lemma AloneResult(s: State, subject: Subject, version: int, service: bool, now: int, returned: int, works: bool)
    ensures var t := Alone(s, subject, version, service, now, returned, works);
            && |t.requests| == |s.requests| + 1
            && t.cache == (if service || Cached(s, subject, now) || !works then s.cache else s.cache[subject := Entry(Live(s, subject), returned + TTL)])
            && (t.requests[|s.requests|].phase == Decided(Accepted) <==>
                service || (if Cached(s, subject, now) then version >= s.cache[subject].version else works && version >= Live(s, subject)))
  {
    var r := |s.requests|;
    var s1 := Next(s, Arrive(now, subject, version, service));
    var s2 := Next(s1, Lookup(now, r, works));
    var s3 := Next(s2, Stamp(returned, r));
    assert s1.requests[r].subject == s2.requests[r].subject == s3.requests[r].subject == subject && |s3.requests| == r + 1;
    assert s1.requests[r].version == s2.requests[r].version == s3.requests[r].version == version;
    assert s3.cache == s.cache;
  }

  /** The handler's cache, in place. */
  class VersionCache {
    var cache: map<Subject, Entry>

    /** tokenCurrent, alone in state `s`; `live` is what TokenVersion returns, or nothing when it fails. */
    method TokenCurrent(subject: Subject, version: int, service: bool, now: int, returned: int, live: Option<int>, ghost s: State)
      returns (current: bool)
      requires s.cache == cache && (live.Some? ==> live.value == Live(s, subject))
      modifies this
      ensures var t := Alone(s, subject, version, service, now, returned, live.Some?);
              && cache == t.cache && |t.requests| == |s.requests| + 1
              && (current <==> t.requests[|s.requests|].phase == Decided(Accepted))
    {
      AloneResult(s, subject, version, service, now, returned, live.Some?);
      if service {
        return true;
      }
      var found := subject in cache && now <= cache[subject].expires;
      if !found {
        if live.None? {
          return false;
        }
        cache := cache[subject := Entry(live.value, returned + TTL)];
      }
      current := version >= cache[subject].version;
    }

    /** forgetTokenVersion */
    method Forget(subject: Subject)
      modifies this
      ensures cache == old(cache) - {subject}
    {
      cache := cache - {subject};
    }
  }
}
