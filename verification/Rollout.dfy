/**
 Firmware rollout in waves: a canary batch, then equal waves gated on the failure rate
 of the devices dispatched so far, until nothing is left or the brake fires and the
 rollback image goes to the devices that took the bad build.
 */
module Rollout {
  import opened Options

  datatype JobState = Running | Succeeded | Failed

  /** One rollout row: the job it is dispatched with, and jobs queued for it that were never recorded. */
  datatype Device = Device(job: Option<JobState>, unrecorded: seq<JobState>)

  datatype Status = Draft | Active | Blocked | Completed

  datatype Fleet = Fleet(status: Status, percentage: int, maximumRate: real, rollbackImage: bool, rollbackSent: bool,
                         rollbackJobs: seq<nat>, devices: seq<Device>)

  /** What queueing one download came to; Lost means the job was queued but MarkDispatched failed. */
  datatype Outcome = Queued | QueueError | Lost

  /** One start or advance request: the clock, the eligible rows in the order the database lists them, and each queueing's outcome. */
  datatype Batch = Batch(inWindow: bool, listing: seq<nat>, outcomes: seq<Outcome>)

  datatype Event =
    | Start(batch: Batch)
    | Advance(batch: Batch, rollbackErrors: set<nat>)
    | Report(device: nat, state: JobState)
    | ReportUnrecorded(device: nat, index: nat, state: JobState)

  datatype Reply = NotDraft | NotActive | OutsideWindow | RateExceeded | NothingEligible | Done(dispatched: nat, finalWave: bool)

  /** What a row counts as: dispatched, succeeded, failed, with a failed download of any kind, or with one the brake cannot see. */
  datatype Kind = Sent | Good | Bad | Hurt | Unseen

  predicate Is(d: Device, kind: Kind) {
    match kind
    case Sent => d.job.Some?
    case Good => d.job == Some(Succeeded)
    case Bad => d.job == Some(Failed)
    case Hurt => d.job == Some(Failed) || Failed in d.unrecorded
    case Unseen => d.job != Some(Failed) && Failed in d.unrecorded
  }

  function Count(devices: seq<Device>, kind: Kind): nat {
    if devices == [] then 0
    else Count(devices[..|devices| - 1], kind) + if Is(devices[|devices| - 1], kind) then 1 else 0
  }

  function Terminal(devices: seq<Device>): nat {
    Count(devices, Good) + Count(devices, Bad)
  }

  /** The failures a rate allows among n downloads: rate times n. */
  function Allowance(rate: real, n: nat): real {
    if n == 0 then 0.0 else Allowance(rate, n - 1) + rate
  }

  /** FailureRate against the maximum: only resolved downloads count. */
  predicate Brakes(s: Fleet) {
    Terminal(s.devices) > 0 && Count(s.devices, Bad) as real > Allowance(s.maximumRate, Terminal(s.devices))
  }

  lemma {:induction false} AllowanceIsProduct(rate: real, n: nat)
    ensures Allowance(rate, n) == rate * n as real
  {
    if n > 0 {
      AllowanceIsProduct(rate, n - 1);
      assert (n - 1) as real == n as real - 1.0;
    }
  }

  lemma QuotientExceeds(f: real, t: real, m: real)
    requires t > 0.0
    ensures f / t > m <==> f > m * t
  {
  }

  /** The brake compares the quotient failed/terminal with the maximum, as the handler does. */
  lemma BrakesAtRate(s: Fleet)
    ensures Brakes(s) <==>
            Terminal(s.devices) > 0 && Count(s.devices, Bad) as real / Terminal(s.devices) as real > s.maximumRate
  {
    AllowanceIsProduct(s.maximumRate, Terminal(s.devices));
    if Terminal(s.devices) > 0 {
      QuotientExceeds(Count(s.devices, Bad) as real, Terminal(s.devices) as real, s.maximumRate);
    }
  }

  /** The wave is a share of the original pool, at least one device. */
  function Wave(s: Fleet): (w: nat)
    ensures w >= 1
  {
    var share := |s.devices| * s.percentage / 100;
    if share < 1 then 1 else share
  }

  function OutcomeAt(outcomes: seq<Outcome>, i: nat): Outcome {
    if i < |outcomes| then outcomes[i] else Queued
  }

  function Tried(d: Device, o: Outcome): Device {
    match o
    case Queued => d.(job := Some(Running))
    case QueueError => d
    case Lost => d.(unrecorded := d.unrecorded + [Running])
  }

  /** The loop over the first n devices of the batch. */
  function Dispatch(devices: seq<Device>, batch: Batch, n: nat): (r: seq<Device>)
    requires n <= |batch.listing|
    ensures |r| == |devices|
  {
    if n == 0 then devices
    else
      var before := Dispatch(devices, batch, n - 1);
      var i := batch.listing[n - 1];
      if i < |devices| then before[i := Tried(before[i], OutcomeAt(batch.outcomes, n - 1))] else before
  }

  function QueuedCount(outcomes: seq<Outcome>, n: nat): nat {
    if n == 0 then 0 else QueuedCount(outcomes, n - 1) + if OutcomeAt(outcomes, n - 1).Queued? then 1 else 0
  }

  function BatchSize(s: Fleet, batch: Batch): (n: nat)
    ensures n <= |batch.listing|
  {
    if Wave(s) < |batch.listing| then Wave(s) else |batch.listing|
  }

  /** The devices of the first n rows that took the build, in order. */
  function GoodDevices(devices: seq<Device>, n: nat, errors: set<nat>): seq<nat>
    requires n <= |devices|
  {
    if n == 0 then []
    else GoodDevices(devices, n - 1, errors) + if Is(devices[n - 1], Good) && n - 1 !in errors then [n - 1] else []
  }

  /** dispatchRollback */
  function Rollback(s: Fleet, errors: set<nat>): Fleet {
    if !s.rollbackImage || s.rollbackSent then s
    else s.(rollbackSent := true, rollbackJobs := s.rollbackJobs + GoodDevices(s.devices, |s.devices|, errors))
  }

  function SendWave(s: Fleet, batch: Batch, start: bool): (Fleet, Reply) {
    var n := BatchSize(s, batch);
    var final := n == |batch.listing|;
    var status := if start then Active else if final then Completed else s.status;
    (s.(status := status, devices := Dispatch(s.devices, batch, n)), Done(QueuedCount(batch.outcomes, n), final))
  }

  /** dispatchRolloutBatch */
  function Request(s: Fleet, batch: Batch, start: bool, errors: set<nat>): (Fleet, Reply) {
    if start && !s.status.Draft? then (s, NotDraft)
    else if !start && !s.status.Active? then (s, NotActive)
    else if !batch.inWindow then (s, OutsideWindow)
    else if !start && Brakes(s) then (Rollback(s.(status := Blocked), errors), RateExceeded)
    else if batch.listing == [] then (if start then (s, NothingEligible) else (s.(status := Completed), Done(0, true)))
    else SendWave(s, batch, start)
  }

  /** A download resolves once; only a failure the ACS had assumed is ever corrected. */
  predicate MayBecome(before: JobState, after: JobState) {
    before.Running? || (before.Failed? && !after.Running?) || after == before
  }

  function Step(s: Fleet, e: Event): Fleet {
    match e
    case Start(batch) => Request(s, batch, true, {}).0
    case Advance(batch, errors) => Request(s, batch, false, errors).0
    case Report(i, state) =>
      if i < |s.devices| && s.devices[i].job.Some? && MayBecome(s.devices[i].job.value, state)
      then s.(devices := s.devices[i := s.devices[i].(job := Some(state))]) else s
    case ReportUnrecorded(i, k, state) =>
      if i < |s.devices| && k < |s.devices[i].unrecorded| && MayBecome(s.devices[i].unrecorded[k], state)
      then s.(devices := s.devices[i := s.devices[i].(unrecorded := s.devices[i].unrecorded[k := state])]) else s
  }

  function Run(s: Fleet, events: seq<Event>): Fleet {
    if events == [] then s else Step(Run(s, events[..|events| - 1]), events[|events| - 1])
  }

  /** EligibleDeviceIDs: every undispatched row, each once, in any order. */
  ghost predicate Lists(devices: seq<Device>, listing: seq<nat>) {
    && (forall k :: 0 <= k < |listing| ==> listing[k] < |devices| && !Is(devices[listing[k]], Sent))
    && (forall j, k :: 0 <= j < k < |listing| ==> listing[j] != listing[k])
    && (forall i :: 0 <= i < |devices| && !Is(devices[i], Sent) ==> i in listing)
  }

  ghost predicate Truthful(s: Fleet, e: Event) {
    (e.Start? || e.Advance?) ==> Lists(s.devices, e.batch.listing)
  }

  /** Every listing of the run was what the database held. */
  ghost predicate TruthfulRun(s: Fleet, events: seq<Event>) {
    events == [] || (TruthfulRun(s, events[..|events| - 1]) && Truthful(Run(s, events[..|events| - 1]), events[|events| - 1]))
  }

  /** A rollout as Create leaves it. */
  ghost predicate Created(s: Fleet) {
    && s.status.Draft? && !s.rollbackSent && s.rollbackJobs == []
    && forall i :: 0 <= i < |s.devices| ==> s.devices[i] == Device(None, [])
  }

  lemma CountUpdate(devices: seq<Device>, i: nat, d: Device, kind: Kind)
    requires i < |devices|
    ensures Count(devices[i := d], kind) == Count(devices, kind) - (if Is(devices[i], kind) then 1 else 0) + (if Is(d, kind) then 1 else 0)
  {
    var n := |devices| - 1;
    if i < n {
      assert devices[i := d][..n] == devices[..n][i := d];
      CountUpdate(devices[..n], i, d, kind);
    } else {
      assert devices[i := d][..n] == devices[..n];
    }
  }

  lemma CountBounds(devices: seq<Device>)
    ensures Terminal(devices) <= Count(devices, Sent) <= |devices|
  {
  }

  lemma AllSent(devices: seq<Device>)
    requires forall i :: 0 <= i < |devices| ==> Is(devices[i], Sent)
    ensures Count(devices, Sent) == |devices|
  {
  }

  /** Each device of the batch is tried once, and nothing else changes. */
  lemma DispatchRows(devices: seq<Device>, batch: Batch, n: nat)
    requires n <= |batch.listing| && Lists(devices, batch.listing)
    ensures var after := Dispatch(devices, batch, n);
            && (forall k :: n <= k < |batch.listing| ==> after[batch.listing[k]] == devices[batch.listing[k]])
            && (forall i :: 0 <= i < |devices| && Is(devices[i], Sent) ==> after[i] == devices[i])
            && (forall k :: 0 <= k < n ==> after[batch.listing[k]] == Tried(devices[batch.listing[k]], OutcomeAt(batch.outcomes, k)))
  {
  }

  lemma TriedCounts(devices: seq<Device>, i: nat, o: Outcome)
    requires i < |devices| && devices[i].job.None?
    ensures var after := devices[i := Tried(devices[i], o)];
            && Count(after, Sent) == Count(devices, Sent) + (if o.Queued? then 1 else 0)
            && Count(after, Good) == Count(devices, Good) && Count(after, Bad) == Count(devices, Bad)
  {
    CountUpdate(devices, i, Tried(devices[i], o), Sent);
    CountUpdate(devices, i, Tried(devices[i], o), Good);
    CountUpdate(devices, i, Tried(devices[i], o), Bad);
  }

  lemma NextUntried(devices: seq<Device>, batch: Batch, n: nat)
    requires n < |batch.listing| && Lists(devices, batch.listing)
    ensures batch.listing[n] < |devices| && Dispatch(devices, batch, n)[batch.listing[n]].job.None?
  {
    DispatchRows(devices, batch, n);
  }

  /** Each queueing that succeeds moves one row from eligible to dispatched, and resolves nothing. */
  lemma {:induction false} DispatchCounts(devices: seq<Device>, batch: Batch, n: nat)
    requires n <= |batch.listing| && Lists(devices, batch.listing)
    ensures var after := Dispatch(devices, batch, n);
            && Count(after, Sent) == Count(devices, Sent) + QueuedCount(batch.outcomes, n)
            && Count(after, Good) == Count(devices, Good) && Count(after, Bad) == Count(devices, Bad)
  {
    if n > 0 {
      DispatchCounts(devices, batch, n - 1);
      NextUntried(devices, batch, n - 1);
      TriedCounts(Dispatch(devices, batch, n - 1), batch.listing[n - 1], OutcomeAt(batch.outcomes, n - 1));
    }
  }

  lemma AllQueuedCount(n: nat)
    ensures QueuedCount([], n) == n
  {
  }

  /** The eligible rows are exactly those the dispatched ones leave over. */
  lemma ListingSize(devices: seq<Device>, listing: seq<nat>)
    requires Lists(devices, listing)
    ensures |listing| + Count(devices, Sent) == |devices|
  {
    var batch := Batch(true, listing, []);
    DispatchCounts(devices, batch, |listing|);
    DispatchRows(devices, batch, |listing|);
    AllQueuedCount(|listing|);
    var after := Dispatch(devices, batch, |listing|);
    forall i | 0 <= i < |after| ensures Is(after[i], Sent) {
      if !Is(devices[i], Sent) {
        var k :| 0 <= k < |listing| && listing[k] == i;
        assert after[listing[k]] == Tried(devices[listing[k]], Queued);
      }
    }
    AllSent(after);
  }

  lemma QueuedCountBound(outcomes: seq<Outcome>, n: nat)
    ensures QueuedCount(outcomes, n) <= n
  {
  }

  /** The counts at the last check that let a wave out. */
  datatype Check = Check(dispatched: nat, terminal: nat, failed: nat)

  function Checked(s: Fleet): Check {
    Check(Count(s.devices, Sent), Terminal(s.devices), Count(s.devices, Bad))
  }

  predicate LetsWaveOut(s: Fleet, e: Event) {
    match e
    case Start(batch) => s.status.Draft? && batch.inWindow && batch.listing != []
    case Advance(batch, _) => s.status.Active? && batch.inWindow && !Brakes(s) && batch.listing != []
    case _ => false
  }

  ghost function LastCheck(s: Fleet, events: seq<Event>): Check {
    if events == [] then Check(0, 0, 0)
    else
      var before := Run(s, events[..|events| - 1]);
      if LetsWaveOut(before, events[|events| - 1])
      then Checked(before)
      else LastCheck(s, events[..|events| - 1])
  }

  /** A check passed, at most a wave of w devices was sent since, and no success was taken back. */
  ghost predicate Braked(s: Fleet, c: Check, w: nat) {
    && c.failed <= c.terminal <= c.dispatched
    && Count(s.devices, Sent) <= c.dispatched + w
    && Count(s.devices, Good) >= c.terminal - c.failed
    && (s.status.Draft? ==> Count(s.devices, Sent) == 0)
  }

  lemma PassedCheck(s: Fleet)
    requires !Brakes(s)
    ensures Count(s.devices, Bad) as real <= Allowance(s.maximumRate, Terminal(s.devices))
  {
  }

  lemma WaveBraked(s: Fleet, batch: Batch, n: nat, c: Check)
    requires Lists(s.devices, batch.listing) && n <= |batch.listing|
    requires c.dispatched == Count(s.devices, Sent) && c.terminal == Terminal(s.devices) && c.failed == Count(s.devices, Bad)
    ensures forall status: Status, w: nat :: n <= w && !status.Draft? ==>
                                               Braked(s.(status := status, devices := Dispatch(s.devices, batch, n)), c, w)
  {
    DispatchCounts(s.devices, batch, n);
    QueuedCountBound(batch.outcomes, n);
    CountBounds(s.devices);
  }

  lemma ChangedBraked(s: Fleet, i: nat, d: Device, c: Check, w: nat)
    requires Braked(s, c, w) && i < |s.devices| && (d.job.Some? <==> s.devices[i].job.Some?) && (Is(s.devices[i], Good) ==> Is(d, Good))
    ensures Braked(s.(devices := s.devices[i := d]), c, w)
  {
    CountUpdate(s.devices, i, d, Sent);
    CountUpdate(s.devices, i, d, Good);
  }

  lemma NoneResolved(s: Fleet)
    requires Count(s.devices, Sent) == 0
    ensures Terminal(s.devices) == 0 && !Brakes(s)
  {
    CountBounds(s.devices);
  }

  lemma RequestBraked(s: Fleet, batch: Batch, start: bool, errors: set<nat>, c: Check)
    requires Lists(s.devices, batch.listing) && Braked(s, c, Wave(s))
    ensures var out := LetsWaveOut(s, if start then Start(batch) else Advance(batch, errors));
            Braked(Request(s, batch, start, errors).0, if out then Checked(s) else c, Wave(s))
  {
    if LetsWaveOut(s, if start then Start(batch) else Advance(batch, errors)) {
      if start {
        NoneResolved(s);
      }
      WaveBraked(s, batch, BatchSize(s, batch), Checked(s));
    }
  }

  lemma StepBraked(s: Fleet, e: Event, c: Check)
    requires Truthful(s, e) && Braked(s, c, Wave(s))
    ensures Braked(Step(s, e), if LetsWaveOut(s, e) then Checked(s) else c, Wave(s))
  {
    match e
    case Start(batch) => RequestBraked(s, batch, true, {}, c);
    case Advance(batch, errors) => RequestBraked(s, batch, false, errors, c);
    case Report(i, state) =>
      if i < |s.devices| && s.devices[i].job.Some? && MayBecome(s.devices[i].job.value, state) {
        ChangedBraked(s, i, s.devices[i].(job := Some(state)), c, Wave(s));
      }
    case ReportUnrecorded(i, k, state) =>
      if i < |s.devices| && k < |s.devices[i].unrecorded| {
        ChangedBraked(s, i, s.devices[i].(unrecorded := s.devices[i].unrecorded[k := state]), c, Wave(s));
      }
  }

  lemma CreatedCounts(devices: seq<Device>)
    requires forall i :: 0 <= i < |devices| ==> devices[i] == Device(None, [])
    ensures Count(devices, Sent) == 0
  {
  }

  /** The terms of the rollout do not change: its pool, its percentage and its limit. */
  ghost predicate SameTerms(s: Fleet, t: Fleet) {
    |t.devices| == |s.devices| && t.percentage == s.percentage && t.maximumRate == s.maximumRate && t.rollbackImage == s.rollbackImage
  }

  lemma StepTerms(s: Fleet, e: Event)
    ensures SameTerms(s, Step(s, e)) && Wave(Step(s, e)) == Wave(s)
  {
  }

  lemma {:induction false} RunTerms(s: Fleet, events: seq<Event>)
    ensures SameTerms(s, Run(s, events)) && Wave(Run(s, events)) == Wave(s)
  {
    if events != [] {
      var n := |events| - 1;
      RunTerms(s, events[..n]);
      StepTerms(Run(s, events[..n]), events[n]);
    }
  }

  lemma {:induction false} RunBraked(s: Fleet, events: seq<Event>, w: nat)
    requires Created(s) && TruthfulRun(s, events) && w == Wave(s)
    ensures Braked(Run(s, events), LastCheck(s, events), w)
  {
    if events == [] {
      CreatedCounts(s.devices);
    } else {
      var n := |events| - 1;
      RunBraked(s, events[..n], w);
      RunTerms(s, events[..n]);
      StepBraked(Run(s, events[..n]), events[n], LastCheck(s, events[..n]));
    }
  }

  /** The rate at the last check was within the limit, or nothing had been resolved yet. */
  lemma {:induction false} CheckPassed(s: Fleet, events: seq<Event>)
    requires Created(s) && TruthfulRun(s, events)
    ensures LastCheck(s, events).failed as real <= Allowance(s.maximumRate, LastCheck(s, events).terminal)
  {
    if events != [] {
      var n := |events| - 1;
      var before := Run(s, events[..n]);
      if LetsWaveOut(before, events[n]) {
        RunTerms(s, events[..n]);
        RunBraked(s, events[..n], Wave(s));
        if before.status.Draft? {
          NoneResolved(before);
        }
        PassedCheck(before);
        assert LastCheck(s, events) == Checked(before);
      } else {
        CheckPassed(s, events[..n]);
        assert LastCheck(s, events) == LastCheck(s, events[..n]);
      }
    }
  }

  lemma BrakedBound(s: Fleet, c: Check, w: nat)
    requires Braked(s, c, w)
    ensures Count(s.devices, Bad) <= c.failed + (c.dispatched - c.terminal) + w
  {
    CountBounds(s.devices);
  }

  lemma Combine(bad: int, failed: int, rest: int, allowed: real)
    requires bad <= failed + rest && failed as real <= allowed
    ensures bad as real <= allowed + rest as real
  {
  }

  /**
   The failure bound. With D dispatched, T resolved and m the maximum rate at the last
   check that let a wave out, and w the wave size, recorded failures never exceed
   m*T + (D-T) + w, in any run.
   */
  lemma FailureBound(s: Fleet, events: seq<Event>)
    requires Created(s) && TruthfulRun(s, events)
    ensures var c := LastCheck(s, events);
            Count(Run(s, events).devices, Bad) as real
            <= Allowance(s.maximumRate, c.terminal) + (c.dispatched - c.terminal + Wave(s)) as real
  {
    var c := LastCheck(s, events);
    RunBraked(s, events, Wave(s));
    CheckPassed(s, events);
    BrakedBound(Run(s, events), c, Wave(s));
    Combine(Count(Run(s, events).devices, Bad), c.failed, c.dispatched - c.terminal + Wave(s), Allowance(s.maximumRate, c.terminal));
  }

  /** Every queued download is also recorded as dispatched. */
  predicate Recorded(e: Event) {
    (e.Start? || e.Advance?) ==> Lost !in e.batch.outcomes
  }

  ghost predicate AllRecorded(devices: seq<Device>) {
    forall i :: 0 <= i < |devices| ==> devices[i].unrecorded == []
  }

  lemma DispatchRecorded(devices: seq<Device>, batch: Batch, n: nat)
    requires n <= |batch.listing| && AllRecorded(devices) && Lost !in batch.outcomes
    ensures AllRecorded(Dispatch(devices, batch, n))
  {
  }

  lemma {:induction false} RunRecorded(s: Fleet, events: seq<Event>)
    requires Created(s) && forall i :: 0 <= i < |events| ==> Recorded(events[i])
    ensures AllRecorded(Run(s, events).devices)
  {
    if events != [] {
      var n := |events| - 1;
      var before := Run(s, events[..n]);
      RunRecorded(s, events[..n]);
      if events[n].Start? || events[n].Advance? {
        DispatchRecorded(before.devices, events[n].batch, BatchSize(before, events[n].batch));
      }
    }
  }

  lemma HurtSplits(devices: seq<Device>)
    ensures Count(devices, Hurt) == Count(devices, Bad) + Count(devices, Unseen)
  {
  }

  lemma NoneUnseen(devices: seq<Device>)
    requires AllRecorded(devices)
    ensures Count(devices, Unseen) == 0
  {
  }

  /** In every run the bound covers every device that a download of this rollout failed on, up to those whose failure was never recorded. */
  lemma HurtDevicesBound(s: Fleet, events: seq<Event>)
    requires Created(s) && TruthfulRun(s, events)
    ensures var c := LastCheck(s, events);
            var devices := Run(s, events).devices;
            && Count(devices, Hurt) == Count(devices, Bad) + Count(devices, Unseen)
            && Count(devices, Hurt) as real
               <= Allowance(s.maximumRate, c.terminal) + (c.dispatched - c.terminal + Wave(s) + Count(devices, Unseen)) as real
  {
    FailureBound(s, events);
    HurtSplits(Run(s, events).devices);
  }

  /** When every queued download is recorded, it covers them all. */
  lemma RecordedHurtBound(s: Fleet, events: seq<Event>)
    requires Created(s) && TruthfulRun(s, events) && forall i :: 0 <= i < |events| ==> Recorded(events[i])
    ensures var c := LastCheck(s, events);
            Count(Run(s, events).devices, Hurt) as real
            <= Allowance(s.maximumRate, c.terminal) + (c.dispatched - c.terminal + Wave(s)) as real
  {
    HurtDevicesBound(s, events);
    RunRecorded(s, events);
    NoneUnseen(Run(s, events).devices);
  }

  /** A wave of one device whose download is queued and not recorded. */
  lemma LostWave(s: Fleet, batch: Batch, start: bool)
    requires Wave(s) == 1 && |batch.listing| == 2 && batch.outcomes == [Lost] && batch.listing[0] < |s.devices|
    ensures var t := SendWave(s, batch, start).0;
            var i := batch.listing[0];
            && t.devices == s.devices[i := s.devices[i].(unrecorded := s.devices[i].unrecorded + [Running])]
            && t.status == if start then Active else s.status
  {
    assert Dispatch(s.devices, batch, 0) == s.devices;
  }

  /** Without that it does not: downloads that MarkDispatched failed to record are invisible to the brake. */
  lemma LostRecordsEscapeTheBrake()
    ensures var row := Device(None, []);
            var s := Fleet(Draft, 50, 0.0, false, false, [], [row, row]);
            var t1 := Step(s, Start(Batch(true, [0, 1], [Lost])));
            var t2 := Step(t1, ReportUnrecorded(0, 0, Failed));
            var t3 := Step(t2, Advance(Batch(true, [1, 0], [Lost]), {}));
            var t4 := Step(t3, ReportUnrecorded(1, 0, Failed));
            && Created(s) && Lists(s.devices, [0, 1]) && Lists(t2.devices, [1, 0])
            && Wave(s) == 1 && Checked(t2) == Check(0, 0, 0) && Count(t4.devices, Hurt) == 2
  {
    var row := Device(None, []);
    var s := Fleet(Draft, 50, 0.0, false, false, [], [row, row]);
    FirstLost(s, row);
    SecondLost(Fleet(Active, 50, 0.0, false, false, [], [Device(None, [Failed]), row]));
  }

  lemma FirstLost(s: Fleet, row: Device)
    requires row == Device(None, []) && s == Fleet(Draft, 50, 0.0, false, false, [], [row, row])
    ensures Wave(s) == 1 && Created(s) && Lists(s.devices, [0, 1])
    ensures Step(Step(s, Start(Batch(true, [0, 1], [Lost]))), ReportUnrecorded(0, 0, Failed))
         == Fleet(Active, 50, 0.0, false, false, [], [Device(None, [Failed]), row])
  {
    assert Wave(s) == 1;
    LostWave(s, Batch(true, [0, 1], [Lost]), true);
    assert [] + [Running] == [Running] && [Running][0 := Failed] == [Failed];
    var t1 := Step(s, Start(Batch(true, [0, 1], [Lost])));
    assert t1.devices == [Device(None, [Running]), row];
    assert t1.devices[0 := Device(None, [Failed])] == [Device(None, [Failed]), row];
  }

  lemma SecondLost(t2: Fleet)
    requires t2 == Fleet(Active, 50, 0.0, false, false, [], [Device(None, [Failed]), Device(None, [])])
    ensures var t3 := Step(t2, Advance(Batch(true, [1, 0], [Lost]), {}));
            var t4 := Step(t3, ReportUnrecorded(1, 0, Failed));
            Lists(t2.devices, [1, 0]) && Checked(t2) == Check(0, 0, 0) && Count(t4.devices, Hurt) == 2
  {
    NoneSent(t2.devices[0], t2.devices[1]);
    SecondWave(t2, t2.devices[0]);
    SecondReport(Step(t2, Advance(Batch(true, [1, 0], [Lost]), {})), t2.devices[0]);
  }

  lemma SecondWave(t2: Fleet, hurt: Device)
    requires t2 == Fleet(Active, 50, 0.0, false, false, [], [hurt, Device(None, [])]) && Terminal(t2.devices) == 0
    ensures Step(t2, Advance(Batch(true, [1, 0], [Lost]), {})).devices == [hurt, Device(None, [Running])]
  {
    assert Wave(t2) == 1;
    LostWave(t2, Batch(true, [1, 0], [Lost]), false);
    assert [] + [Running] == [Running];
  }

  lemma SecondReport(t3: Fleet, hurt: Device)
    requires t3.devices == [hurt, Device(None, [Running])] && hurt == Device(None, [Failed])
    ensures Count(Step(t3, ReportUnrecorded(1, 0, Failed)).devices, Hurt) == 2
  {
    assert [Running][0 := Failed] == [Failed];
    assert Step(t3, ReportUnrecorded(1, 0, Failed)).devices == [hurt, hurt];
    BothHurt(hurt);
  }

  lemma CountPair(a: Device, b: Device, kind: Kind)
    ensures Count([a, b], kind) == (if Is(a, kind) then 1 else 0) + (if Is(b, kind) then 1 else 0)
  {
    assert [a, b][..1] == [a] && [a][..0] == [];
    assert Count([a], kind) == Count([], kind) + if Is(a, kind) then 1 else 0;
    assert Count([a, b], kind) == Count([a], kind) + if Is(b, kind) then 1 else 0;
  }

  lemma NoneSent(a: Device, b: Device)
    requires a.job.None? && b.job.None?
    ensures Terminal([a, b]) == 0 && Count([a, b], Sent) == 0 && Count([a, b], Bad) == 0
  {
    CountPair(a, b, Sent);
    CountPair(a, b, Good);
    CountPair(a, b, Bad);
  }

  lemma BothHurt(a: Device)
    requires Is(a, Hurt)
    ensures Count([a, a], Hurt) == 2
  {
    CountPair(a, a, Hurt);
  }

  /** The number of waves a pool of n devices takes in batches of w. */
  function Waves(n: nat, w: nat): nat
    requires w >= 1
  {
    (n + w - 1) / w
  }

  /** ceil(n/w) <= j exactly when j waves cover the pool. */
  lemma WavesCover(n: nat, w: nat, j: nat)
    requires w >= 1
    ensures Waves(n, w) <= j <==> n <= j * w
  {
    var q := Waves(n, w);
    assert q * w <= n + w - 1 < (q + 1) * w;
    if q <= j {
      assert q * w <= j * w by { Monotone(q, j, w); }
    } else {
      assert (j + 1) * w <= q * w by { Monotone(j + 1, q, w); }
    }
  }

  lemma Monotone(a: nat, b: nat, w: nat)
    requires a <= b
    ensures a * w <= b * w
  {
  }

  /** The advances a rollout takes: one wave went out with the start, and the last one always needs an advance. */
  function AdvancesNeeded(n: nat, w: nat): nat
    requires w >= 1
  {
    if Waves(n, w) <= 2 then 1 else Waves(n, w) - 1
  }

  /** Every request falls into the window, every queueing succeeds and the brake does not fire. */
  ghost predicate Smooth(s: Fleet, e: Event) {
    && Truthful(s, e)
    && ((e.Start? || e.Advance?) ==> e.batch.inWindow && e.batch.outcomes == [] && !Brakes(s))
  }

  ghost predicate SmoothRun(s: Fleet, events: seq<Event>) {
    events == [] || (SmoothRun(s, events[..|events| - 1]) && Smooth(Run(s, events[..|events| - 1]), events[|events| - 1]))
  }

  /** The advances of the run that were not turned away. */
  ghost function Advances(s: Fleet, events: seq<Event>): nat {
    if events == [] then 0
    else
      var before := Run(s, events[..|events| - 1]);
      Advances(s, events[..|events| - 1]) + if events[|events| - 1].Advance? && before.status.Active? then 1 else 0
  }

  function Least(a: int, b: int): int {
    if a <= b then a else b
  }

  /** Where a smooth rollout of n devices in waves of w is after k advances. */
  ghost predicate OnSchedule(s: Fleet, k: nat, n: nat, w: nat)
    requires w >= 1
  {
    match s.status
    case Draft => k == 0 && Count(s.devices, Sent) == 0
    case Active => n > 0 && k < AdvancesNeeded(n, w) && Count(s.devices, Sent) == Least(n, (k + 1) * w)
    case Completed => n > 0 && k == AdvancesNeeded(n, w) && Count(s.devices, Sent) == n
    case Blocked => false
  }

  /** The arithmetic of one advance. */
  lemma NextWave(k: nat, n: nat, w: nat)
    requires w >= 1 && n > 0 && k < AdvancesNeeded(n, w)
    ensures Least(n, (k + 1) * w) == n ==> k + 1 == AdvancesNeeded(n, w)
    ensures Least(n, (k + 1) * w) < n ==> (n - (k + 1) * w <= w <==> k + 1 == AdvancesNeeded(n, w))
    ensures Least(n, (k + 1) * w) + Least(w, n - Least(n, (k + 1) * w)) == Least(n, (k + 2) * w)
  {
    WavesCover(n, w, k + 1);
    WavesCover(n, w, k + 2);
    assert (k + 2) * w == (k + 1) * w + w;
  }

  lemma WaveSchedule(s: Fleet, batch: Batch, start: bool)
    requires Lists(s.devices, batch.listing) && batch.outcomes == []
    ensures var t := SendWave(s, batch, start).0;
            && Count(t.devices, Sent) == Count(s.devices, Sent) + Least(Wave(s), |s.devices| - Count(s.devices, Sent))
            && (BatchSize(s, batch) == |batch.listing| <==> |s.devices| - Count(s.devices, Sent) <= Wave(s))
            && |batch.listing| == |s.devices| - Count(s.devices, Sent)
  {
    var n := BatchSize(s, batch);
    ListingSize(s.devices, batch.listing);
    DispatchCounts(s.devices, batch, n);
    AllQueuedCount(n);
  }

  lemma AdvanceOnSchedule(s: Fleet, batch: Batch, errors: set<nat>, k: nat, n: nat, w: nat)
    requires w == Wave(s) && n == |s.devices| && OnSchedule(s, k, n, w) && s.status.Active?
    requires Lists(s.devices, batch.listing) && batch.inWindow && batch.outcomes == [] && !Brakes(s)
    ensures OnSchedule(Request(s, batch, false, errors).0, k + 1, n, w)
  {
    WaveSchedule(s, batch, false);
    NextWave(k, n, w);
  }

  lemma StartOnSchedule(s: Fleet, batch: Batch, n: nat, w: nat)
    requires w == Wave(s) && n == |s.devices| && OnSchedule(s, 0, n, w) && s.status.Draft?
    requires Lists(s.devices, batch.listing) && batch.inWindow && batch.outcomes == []
    ensures OnSchedule(Request(s, batch, true, {}).0, 0, n, w)
  {
    WaveSchedule(s, batch, true);
  }

  lemma ReportOnSchedule(s: Fleet, i: nat, d: Device, k: nat, n: nat, w: nat)
    requires w >= 1 && OnSchedule(s, k, n, w) && i < |s.devices| && (d.job.Some? <==> s.devices[i].job.Some?)
    ensures OnSchedule(s.(devices := s.devices[i := d]), k, n, w)
  {
    CountUpdate(s.devices, i, d, Sent);
  }

  lemma StepOnSchedule(s: Fleet, e: Event, k: nat, n: nat, w: nat)
    requires w == Wave(s) && n == |s.devices| && OnSchedule(s, k, n, w) && Smooth(s, e)
    ensures OnSchedule(Step(s, e), k + (if e.Advance? && s.status.Active? then 1 else 0), n, w)
  {
    match e
    case Start(batch) =>
      if s.status.Draft? {
        StartOnSchedule(s, batch, n, w);
      }
    case Advance(batch, errors) =>
      if s.status.Active? {
        AdvanceOnSchedule(s, batch, errors, k, n, w);
      }
    case Report(i, state) =>
      if i < |s.devices| && s.devices[i].job.Some? {
        ReportOnSchedule(s, i, s.devices[i].(job := Some(state)), k, n, w);
      }
    case ReportUnrecorded(i, j, state) =>
      if i < |s.devices| && j < |s.devices[i].unrecorded| {
        ReportOnSchedule(s, i, s.devices[i].(unrecorded := s.devices[i].unrecorded[j := state]), k, n, w);
      }
  }

  /**
   Waves: in a smooth run, after the start and k advances exactly min(N, (k+1)*w)
   devices are dispatched, and COMPLETED comes with advance max(1, ceil(N/w)-1), not
   before and not after; a rollout of no devices never leaves DRAFT.
   */
  lemma {:induction false} SmoothSchedule(s: Fleet, events: seq<Event>)
    requires Created(s) && SmoothRun(s, events)
    ensures OnSchedule(Run(s, events), Advances(s, events), |s.devices|, Wave(s))
  {
    if events == [] {
      CreatedCounts(s.devices);
    } else {
      var n := |events| - 1;
      SmoothSchedule(s, events[..n]);
      RunTerms(s, events[..n]);
      StepOnSchedule(Run(s, events[..n]), events[n], Advances(s, events[..n]), |s.devices|, Wave(s));
    }
  }

  /** With queue errors, COMPLETED still means that every undispatched device was tried in the last wave. */
  lemma CompletedTriedEveryone(s: Fleet, e: Event, i: nat)
    requires Truthful(s, e) && !s.status.Completed? && Step(s, e).status.Completed?
    requires i < |s.devices| && !Is(Step(s, e).devices[i], Sent)
    ensures e.Advance? && exists k :: 0 <= k < |e.batch.listing| && e.batch.listing[k] == i && !OutcomeAt(e.batch.outcomes, k).Queued?
  {
    assert e.Advance?;
    var n := BatchSize(s, e.batch);
    DispatchRows(s.devices, e.batch, n);
    assert !Is(s.devices[i], Sent);
    var k :| 0 <= k < |e.batch.listing| && e.batch.listing[k] == i;
  }

  /** BLOCKED and COMPLETED are final: nothing more is dispatched, recorded or rolled back. */
  lemma {:induction false} FinalStatus(s: Fleet, events: seq<Event>)
    requires s.status.Blocked? || s.status.Completed?
    ensures var t := Run(s, events);
            && t.status == s.status && t.rollbackSent == s.rollbackSent && t.rollbackJobs == s.rollbackJobs
            && Count(t.devices, Sent) == Count(s.devices, Sent)
  {
    if events != [] {
      var n := |events| - 1;
      FinalStatus(s, events[..n]);
      var t := Run(s, events[..n]);
      match events[n]
      case Report(i, state) =>
        if i < |t.devices| {
          CountUpdate(t.devices, i, t.devices[i].(job := Some(state)), Sent);
        }
      case ReportUnrecorded(i, k, state) =>
        if i < |t.devices| && k < |t.devices[i].unrecorded| {
          CountUpdate(t.devices, i, t.devices[i].(unrecorded := t.devices[i].unrecorded[k := state]), Sent);
        }
      case _ =>
    }
  }

  /** A rollback is queued for exactly the devices that took the build and whose queueing succeeds, once each. */
  lemma GoodDevicesExact(devices: seq<Device>, n: nat, errors: set<nat>, i: nat)
    requires n <= |devices|
    ensures i in GoodDevices(devices, n, errors) <==> i < n && Is(devices[i], Good) && i !in errors
    ensures forall j, k :: 0 <= j < k < |GoodDevices(devices, n, errors)| ==>
                             GoodDevices(devices, n, errors)[j] < GoodDevices(devices, n, errors)[k] < n
  {
    if n > 0 {
      GoodDevicesExact(devices, n - 1, errors, i);
      GoodBelow(devices, n - 1, errors);
    }
  }

  lemma GoodBelow(devices: seq<Device>, n: nat, errors: set<nat>)
    requires n <= |devices|
    ensures forall j :: 0 <= j < |GoodDevices(devices, n, errors)| ==> GoodDevices(devices, n, errors)[j] < n
  {
  }

  ghost predicate Increasing(rows: seq<nat>) {
    forall j, k :: 0 <= j < k < |rows| ==> rows[j] < rows[k]
  }

  /** Nothing was rolled back before the brake, and no device twice. */
  ghost predicate RolledBackOnce(s: Fleet) {
    && (s.rollbackSent ==> s.status.Blocked? && s.rollbackImage) && (!s.rollbackSent ==> s.rollbackJobs == [])
    && Increasing(s.rollbackJobs)
  }

  lemma RollbackIncreasing(s: Fleet, errors: set<nat>)
    requires RolledBackOnce(s) && s.status.Blocked?
    ensures RolledBackOnce(Rollback(s, errors))
  {
    GoodDevicesExact(s.devices, |s.devices|, errors, 0);
    assert [] + GoodDevices(s.devices, |s.devices|, errors) == GoodDevices(s.devices, |s.devices|, errors);
  }

  lemma StepRolledBackOnce(s: Fleet, e: Event)
    requires RolledBackOnce(s)
    ensures RolledBackOnce(Step(s, e))
  {
    if e.Advance? && s.status.Active? {
      RollbackIncreasing(s.(status := Blocked), e.rollbackErrors);
    }
  }

  /** In every run a rollback is sent only by the brake, and to no device twice; FinalStatus says nothing follows it. */
  lemma {:induction false} RollbackOnce(s: Fleet, events: seq<Event>)
    requires Created(s)
    ensures RolledBackOnce(Run(s, events))
  {
    if events != [] {
      RollbackOnce(s, events[..|events| - 1]);
      StepRolledBackOnce(Run(s, events[..|events| - 1]), events[|events| - 1]);
    }
  }

  /** Event n is the advance at which the brake fires. */
  ghost predicate BlocksAt(s: Fleet, events: seq<Event>, n: nat) {
    n < |events| && events[n].Advance? && Run(s, events[..n]).status.Active? && events[n].batch.inWindow && Brakes(Run(s, events[..n]))
  }

  /** What is rolled back: the devices that had succeeded when the brake fired and could be queued. */
  ghost predicate RollsBackAt(s: Fleet, events: seq<Event>, n: nat, rows: seq<nat>) {
    && BlocksAt(s, events, n)
    && var devices := Run(s, events[..n]).devices;
    forall i: nat :: i in rows <==> i < |devices| && Is(devices[i], Good) && i !in events[n].rollbackErrors
  }

  lemma BlockingStep(s: Fleet, e: Event)
    requires !s.status.Blocked? && Step(s, e).status.Blocked? && s.rollbackImage && !s.rollbackSent && s.rollbackJobs == []
    ensures e.Advance? && s.status.Active? && e.batch.inWindow && Brakes(s)
    ensures Step(s, e).rollbackJobs == GoodDevices(s.devices, |s.devices|, e.rollbackErrors)
  {
    assert e.Advance?;
    assert [] + GoodDevices(s.devices, |s.devices|, e.rollbackErrors) == GoodDevices(s.devices, |s.devices|, e.rollbackErrors);
  }

  /**
   In every run that ends BLOCKED with an image configured, the rollback went to exactly
   the devices that had succeeded when the brake fired, minus those whose queueing failed.
   */
  lemma {:induction false} RollbackTargets(s: Fleet, events: seq<Event>)
    requires Created(s) && s.rollbackImage && Run(s, events).status.Blocked?
    ensures exists n: nat :: RollsBackAt(s, events, n, Run(s, events).rollbackJobs)
  {
    var n := |events| - 1;
    var before := Run(s, events[..n]);
    RunTerms(s, events[..n]);
    RollbackOnce(s, events[..n]);
    if before.status.Blocked? {
      RollbackTargets(s, events[..n]);
      var m: nat :| RollsBackAt(s, events[..n], m, before.rollbackJobs);
      assert events[..n][..m] == events[..m];
      assert RollsBackAt(s, events, m, Run(s, events).rollbackJobs);
    } else {
      BlockingStep(before, events[n]);
      forall i: nat ensures i in Run(s, events).rollbackJobs <==>
                            i < |before.devices| && Is(before.devices[i], Good) && i !in events[n].rollbackErrors
      {
        GoodDevicesExact(before.devices, |before.devices|, events[n].rollbackErrors, i);
      }
      assert RollsBackAt(s, events, n, Run(s, events).rollbackJobs);
    }
  }

  /** That is not every device that takes the build: a download still running when the brake fires and succeeding later is left on it. */
  lemma LateSuccessKeepsBuild()
    ensures var row := Device(None, []);
            var s := Fleet(Draft, 100, 0.0, true, false, [], [row, row]);
            var t1 := Step(s, Start(Batch(true, [0, 1], [])));
            var t2 := Step(t1, Report(0, Failed));
            var t3 := Step(t2, Advance(Batch(true, [], []), {}));
            var t4 := Step(t3, Report(1, Succeeded));
            && Created(s) && Lists(s.devices, [0, 1]) && Lists(t2.devices, [])
            && t4.status.Blocked? && t4.rollbackSent && t4.rollbackJobs == [] && |t4.devices| == 2 && Is(t4.devices[1], Good)
  {
    var row := Device(None, []);
    var running, failed := Device(Some(Running), []), Device(Some(Failed), []);
    var s := Fleet(Draft, 100, 0.0, true, false, [], [row, row]);
    FullWave(s, row, running);
    Listings(row, failed, running);
    var t2 := s.(status := Active, devices := [failed, running]);
    Resolves(s.(status := Active, devices := [running, running]), 0, running, running, Failed);
    BrakeFires(t2, failed, running);
    Resolves(t2.(status := Blocked, rollbackSent := true), 1, failed, running, Succeeded);
  }

  lemma Listings(row: Device, failed: Device, running: Device)
    requires row.job.None? && failed.job.Some? && running.job.Some?
    ensures Lists([row, row], [0, 1]) && Lists([failed, running], [])
  {
  }

  /** A report for one of two devices. */
  lemma Resolves(s: Fleet, i: nat, a: Device, b: Device, state: JobState)
    requires i < 2 && s.devices == [a, b] && s.devices[i].job == Some(Running)
    ensures Step(s, Report(i, state)) ==
            s.(devices := if i == 0 then [a.(job := Some(state)), b] else [a, b.(job := Some(state))])
  {
    assert [a, b][0 := a.(job := Some(state))] == [a.(job := Some(state)), b];
    assert [a, b][1 := b.(job := Some(state))] == [a, b.(job := Some(state))];
  }

  lemma FullWave(s: Fleet, row: Device, running: Device)
    requires row == Device(None, []) && running == Device(Some(Running), []) && s == Fleet(Draft, 100, 0.0, true, false, [], [row, row])
    ensures Step(s, Start(Batch(true, [0, 1], []))) == s.(status := Active, devices := [running, running])
  {
    var batch := Batch(true, [0, 1], []);
    assert Wave(s) == 2 && BatchSize(s, batch) == 2;
    assert Dispatch(s.devices, batch, 0) == [row, row];
    assert Dispatch(s.devices, batch, 1) == [running, row];
    assert Dispatch(s.devices, batch, 2) == [running, running];
  }

  lemma BrakeFires(s: Fleet, failed: Device, running: Device)
    requires failed == Device(Some(Failed), []) && running == Device(Some(Running), [])
    requires s == Fleet(Active, 100, 0.0, true, false, [], [failed, running])
    ensures Step(s, Advance(Batch(true, [], []), {})) == s.(status := Blocked, rollbackSent := true)
  {
    OneFailed(s, failed, running);
    NoneGood(failed, running);
  }

  lemma OneFailed(s: Fleet, failed: Device, running: Device)
    requires failed.job == Some(Failed) && running.job == Some(Running) && s.devices == [failed, running] && s.maximumRate == 0.0
    ensures Brakes(s)
  {
    CountPair(failed, running, Good);
    CountPair(failed, running, Bad);
    assert Allowance(0.0, 1) == Allowance(0.0, 0) + 0.0;
  }

  lemma NoneGood(a: Device, b: Device)
    requires !Is(a, Good) && !Is(b, Good)
    ensures GoodDevices([a, b], 2, {}) == []
  {
    assert GoodDevices([a, b], 0, {}) == [];
    assert GoodDevices([a, b], 1, {}) == [];
  }

  /** The handlers, as they run: one row and one counter at a time. */
  class RolloutService {
    var fleet: Fleet

    /** dispatchRolloutBatch */
    method DispatchRolloutBatch(batch: Batch, start: bool, errors: set<nat>) returns (reply: Reply)
      modifies this
      ensures (fleet, reply) == Request(old(fleet), batch, start, errors)
    {
      if start && !fleet.status.Draft? {
        return NotDraft;
      }
      if !start && !fleet.status.Active? {
        return NotActive;
      }
      if !batch.inWindow {
        return OutsideWindow;
      }
      if !start && Brakes(fleet) {
        fleet := fleet.(status := Blocked);
        DispatchRollback(errors);
        return RateExceeded;
      }
      if batch.listing == [] {
        if start {
          return NothingEligible;
        }
        fleet := fleet.(status := Completed);
        return Done(0, true);
      }
      var n := BatchSize(fleet, batch);
      var dispatched := 0;
      for k := 0 to n
        invariant fleet == old(fleet).(devices := Dispatch(old(fleet).devices, batch, k))
        invariant dispatched == QueuedCount(batch.outcomes, k)
      {
        var i := batch.listing[k];
        var outcome := OutcomeAt(batch.outcomes, k);
        if i < |fleet.devices| {
          fleet := fleet.(devices := fleet.devices[i := Tried(fleet.devices[i], outcome)]);
        }
        if outcome.Queued? {
          dispatched := dispatched + 1;
        }
      }
      if start {
        fleet := fleet.(status := Active);
      } else if n == |batch.listing| {
        fleet := fleet.(status := Completed);
      }
      reply := Done(dispatched, n == |batch.listing|);
    }

    /** dispatchRollback */
    method DispatchRollback(errors: set<nat>)
      modifies this
      ensures fleet == Rollback(old(fleet), errors)
    {
      if !fleet.rollbackImage || fleet.rollbackSent {
        return;
      }
      var queued: seq<nat> := [];
      for i := 0 to |fleet.devices|
        invariant queued == GoodDevices(fleet.devices, i, errors)
      {
        if Is(fleet.devices[i], Good) && i !in errors {
          queued := queued + [i];
        }
      }
      fleet := fleet.(rollbackSent := true, rollbackJobs := fleet.rollbackJobs + queued);
    }
  }
}
