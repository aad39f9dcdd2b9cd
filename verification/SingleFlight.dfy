/**
 One RPC in flight per device: in every run in which the device posts only on its latest
 session, its job in RPC_SENT is the current job of that session, whatever other devices
 do and whatever leases expire.
 */
module SingleFlight {
  import opened Options
  import opened Paths
  import opened Discovery
  import opened Verification
  import opened Jobs
  import opened Gateway
  import opened Isolation

  /** The one exception: a discovery walk recoverAbandonedDiscovery leaves to the reaper. */
  predicate Stranded(job: Job) {
    job.kind.ParameterDiscovery? && LeftToReaper(job.payload)
  }

  ghost predicate Accounted(s: Store, j: JobId, device: DeviceId)
    requires j < |s.jobs|
  {
    s.jobs[j].device == device && s.jobs[j].status.RpcSent? ==>
      Renderable(s.jobs[j]) && (Stranded(s.jobs[j]) || InFlight(s.sessions, device) == Some(j))
  }

  ghost predicate Invariant(s: Store, device: DeviceId) {
    forall j :: 0 <= j < |s.jobs| ==> Accounted(s, j, device)
  }

  /** The invariant, with nothing of `device` in flight. */
  ghost predicate Landed(s: Store, device: DeviceId) {
    && Invariant(s, device)
    && forall j :: 0 <= j < |s.jobs| && s.jobs[j].device == device && s.jobs[j].status.RpcSent? ==> Stranded(s.jobs[j])
  }

  lemma InFlightUpdate(sessions: seq<Session>, sid: SessionId, session: Session, device: DeviceId)
    requires IsLatest(sessions, sid) && session.device == sessions[sid].device
    ensures InFlight(sessions[sid := session], device) ==
            if device == session.device then session.current else InFlight(sessions, device)
  {
    var n := |sessions| - 1;
    if sid < n {
      assert sessions[sid := session][..n] == sessions[..n][sid := session];
      InFlightUpdate(sessions[..n], sid, session, device);
    } else {
      assert sessions[sid := session][..n] == sessions[..n];
    }
  }

  lemma InFlightAppend(sessions: seq<Session>, session: Session, device: DeviceId)
    ensures InFlight(sessions + [session], device) == if device == session.device then session.current else InFlight(sessions, device)
  {
  }

  /** Updating the latest session of a device nothing is in flight for keeps the invariant. */
  lemma UpdateSession(s: Store, sid: SessionId, session: Session)
    requires IsLatest(s.sessions, sid) && session.device == s.sessions[sid].device
    requires Landed(s, session.device)
    ensures Landed(s.(sessions := s.sessions[sid := session]), session.device)
  {
    var t := s.(sessions := s.sessions[sid := session]);
    InFlightUpdate(s.sessions, sid, session, session.device);
    forall j | 0 <= j < |t.jobs| ensures Accounted(t, j, session.device) {
      assert Accounted(s, j, session.device);
    }
  }

  /** Replacing one row by one not in flight and appending queued rows keeps everything accounted for. */
  lemma SettleKeeps(s: Store, id: JobId, e: Effect, device: DeviceId)
    requires Invariant(s, device) && id < |s.jobs|
    requires !e.job.status.RpcSent? && forall i :: 0 <= i < |e.queued| ==> e.queued[i].status.Queued?
    ensures Invariant(Settle(s, id, e), device)
  {
    var t := Settle(s, id, e);
    forall j | 0 <= j < |t.jobs| ensures Accounted(t, j, device) {
      if j < |s.jobs| {
        assert Accounted(s, j, device);
      }
    }
  }

  lemma AnswerLands(s: Store, sid: SessionId, body: Body, env: Env)
    requires sid < |s.sessions| && Invariant(s, s.sessions[sid].device) && IsLatest(s.sessions, sid)
    ensures Landed(AnswerCurrent(s, sid, body, env), s.sessions[sid].device)
    ensures IsLatest(AnswerCurrent(s, sid, body, env).sessions, sid)
    ensures AnswerCurrent(s, sid, body, env).sessions[sid].device == s.sessions[sid].device
  {
    var session := s.sessions[sid];
    InFlightUpdate(s.sessions, sid, session, session.device);
    assert s.sessions[sid := session] == s.sessions;
    assert InFlight(s.sessions, session.device) == session.current;
    if session.current.Some? {
      var id := session.current.value;
      var t := CompleteJob(s, session.device, id, body, env);
      if InFlightOf(s, session.device, id) {
        assert Accounted(s, id, session.device);
        AnsweredLeavesFlight(s.jobs[id], body, env, OtherWalk(s.jobs, id, session.device));
        SettleKeeps(s, id, Complete(s.jobs[id], body, env, OtherWalk(s.jobs, id, session.device)), session.device);
      }
      assert Landed(t, session.device) by {
        forall j | 0 <= j < |t.jobs| && t.jobs[j].device == session.device && t.jobs[j].status.RpcSent? ensures Stranded(t.jobs[j]) {
          assert Accounted(t, j, session.device);
        }
      }
      UpdateSession(t, sid, session.(current := None));
    } else {
      assert Landed(s, session.device) by {
        forall j | 0 <= j < |s.jobs| && s.jobs[j].device == session.device && s.jobs[j].status.RpcSent? ensures Stranded(s.jobs[j]) {
          assert Accounted(s, j, session.device);
        }
      }
    }
  }

  lemma AppendQueued(s: Store, rows: seq<Job>, device: DeviceId)
    requires Landed(s, device) && forall i :: 0 <= i < |rows| ==> rows[i].status.Queued?
    ensures Landed(s.(jobs := s.jobs + rows), device)
  {
    var t := s.(jobs := s.jobs + rows);
    forall j | 0 <= j < |t.jobs| ensures Accounted(t, j, device) {
      if j < |s.jobs| {
        assert Accounted(s, j, device);
      }
    }
  }

  /** Sending a job makes it the current one; a job rejected on the way is not in flight at all. */
  lemma LaunchKeeps(s: Store, sid: SessionId, id: JobId, job: Job)
    requires IsLatest(s.sessions, sid) && Landed(s, s.sessions[sid].device)
    requires id < |s.jobs| && job.device == s.sessions[sid].device
    requires job.status.RpcSent? ==> Renderable(job)
    ensures Invariant(SetCurrent(s.(jobs := s.jobs[id := job]), sid, Some(id)), job.device)
  {
    var session := s.sessions[sid].(current := Some(id));
    var t := SetCurrent(s.(jobs := s.jobs[id := job]), sid, Some(id));
    InFlightUpdate(s.sessions, sid, session, job.device);
    forall j | 0 <= j < |t.jobs| ensures Accounted(t, j, job.device) {
      assert Accounted(s, j, job.device);
    }
  }

  lemma SendNextKeeps(s: Store, sid: SessionId, env: Env)
    requires IsLatest(s.sessions, sid) && Landed(s, s.sessions[sid].device)
    ensures Invariant(SendNext(s, sid, env).0, s.sessions[sid].device)
  {
    var device := s.sessions[sid].device;
    ConfigRows(device, env.configure);
    var ready := if NextQueued(s.jobs, device).Some? then s else s.(jobs := s.jobs + ConfigJobs(device, env.configure));
    AppendQueued(s, ConfigJobs(device, env.configure), device);
    match NextQueued(ready.jobs, device)
    case None => UpdateSession(ready, sid, ready.sessions[sid].(closed := true));
    case Some(id) =>
      var leased := Leased(ready.jobs[id]);
      var p := Prepare(leased, env);
      if p.Ready? {
        SentJobsAreRenderable(leased, env);
      }
      LaunchKeeps(ready, sid, id, p.job);
  }

  /** recoverAbandonedDiscovery: nothing but a walk left to the reaper stays in flight among the rows visited. */
  lemma RecoverWalksKeeps(s: Store, device: DeviceId, n: nat, env: Env, of: DeviceId)
    requires n <= |s.jobs| && Invariant(s, of)
    ensures Invariant(RecoverWalks(s, device, n, env), of)
    ensures RecoverWalks(s, device, n, env).sessions == s.sessions
    ensures forall j :: n <= j < |s.jobs| ==> RecoverWalks(s, device, n, env).jobs[j] == s.jobs[j]
    ensures forall j :: |s.jobs| <= j < |RecoverWalks(s, device, n, env).jobs| ==> RecoverWalks(s, device, n, env).jobs[j].status.Queued?
    ensures forall j :: 0 <= j < n && InFlightWalk(RecoverWalks(s, device, n, env).jobs[j], device) ==>
                          LeftToReaper(RecoverWalks(s, device, n, env).jobs[j].payload)
  {
    if n > 0 {
      RecoverWalksKeeps(s, device, n - 1, env, of);
      RecoverWalkKeeps(RecoverWalks(s, device, n - 1, env), device, n - 1, env, of);
    }
  }

  lemma RecoverWalkKeeps(s: Store, device: DeviceId, i: JobId, env: Env, of: DeviceId)
    requires Invariant(s, of) && i < |s.jobs|
    ensures var t := RecoverWalk(s, device, i, env);
            && Invariant(t, of) && t.sessions == s.sessions && (InFlightWalk(t.jobs[i], device) ==> LeftToReaper(t.jobs[i].payload))
            && (forall j :: |s.jobs| <= j < |t.jobs| ==> t.jobs[j].status.Queued?)
            && (forall j :: 0 <= j < |s.jobs| && j != i ==> t.jobs[j] == s.jobs[j])
  {
    var job := s.jobs[i];
    if InFlightWalk(job, device) && !LeftToReaper(job.payload) {
      var other := OtherWalk(s.jobs, i, device);
      ProceedSettles(job, SkipCursor(job.payload.walk), env, other);
      SettleKeeps(s, i, SkipObject(job, job.payload.walk, env, other), of);
    }
  }

  lemma RecoveredRow(job: Job, id: JobId, device: DeviceId, events: Events, env: Env)
    ensures RecoverRow(job, id, device, events, env).device == job.device
    ensures RecoverRow(job, id, device, events, env).status.RpcSent? ==>
              RecoverRow(job, id, device, events, env) == job && !WasDropped(job, device)
  {
  }

  lemma InformLands(s: Store, device: DeviceId, events: Events, env: Env, before: seq<Work>, after: seq<Work>, of: DeviceId)
    requires Invariant(s, of)
    ensures Invariant(OpenAndRecover(s, device, events, env, before, after), of)
  {
    var begun := s.(jobs := s.jobs + Rows(device, before), sessions := s.sessions + [Session(device, false, None)]);
    var unlatched := Store(s.devices, begun.jobs, s.sessions);
    forall j | 0 <= j < |unlatched.jobs| ensures Accounted(unlatched, j, of) {
      if j < |s.jobs| {
        assert Accounted(s, j, of);
      }
    }
    var n := |begun.jobs|;
    RecoverWalksKeeps(unlatched, device, n, env, of);
    SessionsDoNotMatter(begun, s.sessions, device, n, env);
    var walked := RecoverWalks(begun, device, n, env);
    var t := OpenAndRecover(s, device, events, env, before, after);
    forall j | 0 <= j < |t.jobs| ensures Accounted(t, j, of) {
      if j < |walked.jobs| && t.jobs[j].status.RpcSent? && t.jobs[j].device == of {
        assert Accounted(RecoverWalks(unlatched, device, n, env), j, of);
        RecoveredRow(walked.jobs[j], j, device, events, env);
        assert t.jobs[j] == walked.jobs[j];
        assert j < n;
        InFlightAppend(s.sessions, Session(device, false, None), t.jobs[j].device);
        assert t.sessions == s.sessions + [Session(device, false, None)];
      }
    }
  }

  lemma SessionsDoNotMatter(s: Store, sessions: seq<Session>, device: DeviceId, n: nat, env: Env)
    requires n <= |s.jobs|
    ensures RecoverWalks(s.(sessions := sessions), device, n, env).jobs == RecoverWalks(s, device, n, env).jobs
    ensures RecoverWalks(s, device, n, env).sessions == s.sessions
    ensures RecoverWalks(s, device, n, env).devices == s.devices
  {
  }

  lemma InFlightElsewhere(sessions: seq<Session>, sid: SessionId, session: Session, device: DeviceId)
    requires sid < |sessions| && session.device == sessions[sid].device != device
    ensures InFlight(sessions[sid := session], device) == InFlight(sessions, device)
  {
    var n := |sessions| - 1;
    if sid < n {
      assert sessions[sid := session][..n] == sessions[..n][sid := session];
      InFlightElsewhere(sessions[..n], sid, session, device);
    } else {
      assert sessions[sid := session][..n] == sessions[..n];
    }
  }

  /** What is served on another device's session is of no concern here. */
  lemma DispatchElsewhere(s: Store, sid: SessionId, body: Body, env: Env, device: DeviceId)
    requires sid < |s.sessions| && s.sessions[sid].device != device && Invariant(s, device)
    ensures Invariant(Dispatch(s, sid, body, env).0, device)
  {
    var t := Dispatch(s, sid, body, env).0;
    DispatchConfined(s, sid, body, env);
    DispatchSession(s, sid, body, env);
    InFlightElsewhere(s.sessions, sid, t.sessions[sid], device);
    forall j | 0 <= j < |t.jobs| ensures Accounted(t, j, device) {
      if j < |s.jobs| {
        assert Accounted(s, j, device);
      }
    }
  }

  /** The device posts only on its latest session. */
  ghost predicate Orderly(s: Store, step: Step, device: DeviceId) {
    step.PostStep? && OpenSession(s, step.cookie) && s.sessions[step.cookie.value].device == device ==> IsLatest(s.sessions, step.cookie.value)
  }

  lemma PostKeeps(s: Store, sid: SessionId, body: Body, env: Env, device: DeviceId)
    requires sid < |s.sessions| && Invariant(s, device) && (s.sessions[sid].device == device ==> IsLatest(s.sessions, sid))
    ensures Invariant(Dispatch(s, sid, body, env).0, device)
  {
    if s.sessions[sid].device == device {
      AnswerLands(s, sid, body, env);
      SendNextKeeps(AnswerCurrent(s, sid, body, env), sid, env);
    } else {
      DispatchElsewhere(s, sid, body, env, device);
    }
  }

  lemma StepKeeps(s: Store, step: Step, device: DeviceId)
    requires Invariant(s, device) && Orderly(s, step, device)
    ensures Invariant(Next(s, step).0, device)
  {
    match step
    case InformStep(key, events, bound, env, before, after) =>
      if key.Some? && InformAdmitted(s, key.value, bound) {
        var registered := Registered(s, key.value);
        assert forall j :: 0 <= j < |s.jobs| ==> Accounted(s, j, device) ==> Accounted(registered, j, device);
        InformLands(registered, DeviceOf(s, key.value), events, env, before, after, device);
      }
    case PostStep(cookie, body, bound, env) =>
      if !bound.bootstrapOnly && OpenSession(s, cookie) && Admits(s, bound, s.sessions[cookie.value].device) {
        PostKeeps(s, cookie.value, body, env, device);
      }
    case TransferStep(job, fault, bound) =>
      if job.Some? && job.value < |s.jobs| {
        TransferSettles(s.jobs[job.value], fault);
        SettleKeeps(s, job.value, CompleteTransfer(s.jobs[job.value], fault), device);
      }
    case EnqueueStep(_, _) =>
      var t := Next(s, step).0;
      forall j | 0 <= j < |t.jobs| ensures Accounted(t, j, device) {
        if j < |s.jobs| {
          assert Accounted(s, j, device);
        }
      }
    case ReapStep(stale) => ReapKeeps(s, stale, device);
  }

  lemma ReapKeeps(s: Store, stale: set<JobId>, device: DeviceId)
    requires Invariant(s, device)
    ensures Invariant(Reap(s, stale), device)
  {
    forall j | 0 <= j < |s.jobs| ensures Accounted(Reap(s, stale), j, device) {
      assert Accounted(s, j, device);
    }
  }

  lemma TransferSettles(job: Job, fault: Option<Text>)
    ensures !CompleteTransfer(job, fault).job.status.RpcSent?
    ensures forall i :: 0 <= i < |CompleteTransfer(job, fault).queued| ==> CompleteTransfer(job, fault).queued[i].status.Queued?
  {
  }

  /** Every step of the run was orderly in the state it was taken in. */
  ghost predicate OrderlyRun(steps: seq<Step>, device: DeviceId) {
    steps == [] ||
    (OrderlyRun(steps[..|steps| - 1], device) && Orderly(Run(EMPTY, steps[..|steps| - 1]), steps[|steps| - 1], device))
  }

  lemma {:induction false} RunKeeps(steps: seq<Step>, device: DeviceId)
    requires OrderlyRun(steps, device)
    ensures Invariant(Run(EMPTY, steps), device)
  {
    if steps != [] {
      RunKeeps(steps[..|steps| - 1], device);
      StepKeeps(Run(EMPTY, steps[..|steps| - 1]), steps[|steps| - 1], device);
    }
  }

  /**
   In every run in which the device posts on its latest session, its only job in
   RPC_SENT is the current job of that session, apart from walks left to the reaper.
   */
  lemma AtMostOneInFlight(steps: seq<Step>, i: JobId, j: JobId, device: DeviceId)
    requires OrderlyRun(steps, device)
    requires i < |Run(EMPTY, steps).jobs| && j < |Run(EMPTY, steps).jobs|
    requires Run(EMPTY, steps).jobs[i].status.RpcSent? && Run(EMPTY, steps).jobs[j].status.RpcSent?
    requires Run(EMPTY, steps).jobs[i].device == Run(EMPTY, steps).jobs[j].device == device
    ensures var t := Run(EMPTY, steps);
            var current := InFlight(t.sessions, device);
            && (current == Some(i) || Stranded(t.jobs[i])) && (current == Some(j) || Stranded(t.jobs[j]))
            && (i == j || (Stranded(t.jobs[i]) && current != Some(i)) || (Stranded(t.jobs[j]) && current != Some(j)))
  {
    RunKeeps(steps, device);
    assert Accounted(Run(EMPTY, steps), i, device) && Accounted(Run(EMPTY, steps), j, device);
  }

  /** A POST on an idle session sends the oldest queued Reboot of its device. */
  lemma RebootSent(s: Store, sid: SessionId, id: JobId, env: Env)
    requires sid < |s.sessions| && !s.sessions[sid].closed && s.sessions[sid].current.None?
    requires NextQueued(s.jobs, s.sessions[sid].device) == Some(id) && s.jobs[id].kind.Reboot?
    ensures Next(s, PostStep(Some(sid), SILENT, NO_ONE, env)).0
         == s.(jobs := s.jobs[id := Leased(s.jobs[id])], sessions := s.sessions[sid := s.sessions[sid].(current := Some(id))])
  {
    assert AnswerCurrent(s, sid, SILENT, env) == s;
    assert Prepare(Leased(s.jobs[id]), env) == Ready(Leased(s.jobs[id]), Simple(Reboot));
  }

  /** A later Inform of the device, with nothing in flight, only opens a session. */
  lemma IdleReinform(key: Text, row: Job, sessions: seq<Session>, env: Env)
    requires row.device == 0 && row.status.Queued?
    ensures Next(Store([key], [row], sessions), InformStep(Some(key), Events({}, false), NO_ONE, env, [], [])).0
         == Store([key], [row], sessions + [Session(0, false, None)])
  {
    var s := Store([key], [row], sessions);
    var begun := Store([key], [row], sessions + [Session(0, false, None)]);
    assert [row] + Rows(0, []) == [row];
    assert RecoverWalks(begun, 0, 0, env) == begun;
    assert RecoverWalks(begun, 0, 1, env) == begun;
    assert RecoverDropped([row], 0, Events({}, false), env) == [row];
    assert ReleaseDiagnostics([row], 0) == [row];
    assert OpenAndRecover(s, 0, Events({}, false), env, [], []) == begun;
  }

  /** Without the hypothesis the claim is false: with two sessions open, each is sent a job of the device. */
  lemma OldSessionDoubles(key: Text, env: Env)
    ensures var work := Work(Reboot, Other, DEFAULT_MAX_ATTEMPTS, false);
            var idle := Next(EMPTY, InformStep(Some(key), Events({}, false), NO_ONE, env, [work], [])).0;
            var twice := Next(idle, InformStep(Some(key), Events({}, false), NO_ONE, env, [], [])).0;
            var one := Next(twice, PostStep(Some(1), SILENT, NO_ONE, env)).0;
            var two := Next(Next(one, EnqueueStep(0, work)).0, PostStep(Some(0), SILENT, NO_ONE, env)).0;
            && |two.jobs| == 2 && two.jobs[0].device == two.jobs[1].device
            && two.jobs[0].status.RpcSent? && two.jobs[1].status.RpcSent? && !Stranded(two.jobs[0]) && !Stranded(two.jobs[1])
  {
    var work := Work(Reboot, Other, DEFAULT_MAX_ATTEMPTS, false);
    var row := NewJob(0, Reboot, Other, DEFAULT_MAX_ATTEMPTS);
    var idle := Session(0, false, None);
    var busy := Session(0, false, Some(0));
    FirstInform(key, Events({}, false), env, work);
    IdleReinform(key, row, [idle], env);
    assert [idle] + [idle] == [idle, idle] && [idle, idle][1 := busy] == [idle, busy] && [row][0 := Leased(row)] == [Leased(row)];
    assert NextQueued([row], 0) == Some(0) by { NextQueuedIsOldest([row], 0, 0); }
    RebootSent(Store([key], [row], [idle, idle]), 1, 0, env);
    SecondReboot(key, row, idle, busy, work, env);
  }

  lemma SecondReboot(key: Text, row: Job, idle: Session, busy: Session, work: Work, env: Env)
    requires idle == Session(0, false, None) && busy == Session(0, false, Some(0)) && work == Work(Reboot, Other, DEFAULT_MAX_ATTEMPTS, false)
    requires row == NewJob(0, Reboot, Other, DEFAULT_MAX_ATTEMPTS)
    ensures Next(Next(Store([key], [Leased(row)], [idle, busy]), EnqueueStep(0, work)).0, PostStep(Some(0), SILENT, NO_ONE, env)).0.jobs
         == [Leased(row), Leased(row)]
  {
    assert Rows(0, [work]) == [row];
    assert [Leased(row)] + [row] == [Leased(row), row];
    var jobs := [Leased(row), row];
    NextQueuedIsOldest(jobs, 0, 1);
    assert NextQueued(jobs, 0) == Some(1);
    RebootSent(Store([key], jobs, [idle, busy]), 0, 1, env);
    assert jobs[1 := Leased(row)] == [Leased(row), Leased(row)];
  }

  /** The exception is real: a walk still at its root stays in RPC_SENT across the next Inform, and is nobody's current job. */
  lemma RootWalkIsStranded(key: Text, env: Env, root: Path, fallback: Option<Path>)
    ensures var w := FreshWalk(root, fallback, false, true);
            var inform := InformStep(Some(key), Events({}, false), NO_ONE, env, [Work(ParameterDiscovery, Discover(w), MAX_OBJECTS, false)], []);
            var sent := Next(Next(EMPTY, inform).0, PostStep(Some(0), SILENT, NO_ONE, env)).0;
            var again := Inform(sent, Some(key), Events({}, false), NO_ONE, env, [], []).0;
            again.jobs == [Leased(WalkJob(0, w))] && InFlight(again.sessions, 0).None?
  {
    var w := FreshWalk(root, fallback, false, true);
    var row := WalkJob(0, w);
    FirstInform(key, Events({}, false), env, Work(ParameterDiscovery, Discover(w), MAX_OBJECTS, false));
    var begun := Store([key], [row], [Session(0, false, None)]);
    NextQueuedIsOldest(begun.jobs, 0, 0);
    assert Prepare(Leased(row), env) == Ready(Leased(row), GetNames(w.RequestPath(), true));
    var sent := Store([key], [Leased(row)], [Session(0, false, Some(0))]);
    assert Next(begun, PostStep(Some(0), SILENT, NO_ONE, env)).0 == sent;
    ReinformKeepsWalk(sent, row, key, env);
  }

  lemma ReinformKeepsWalk(sent: Store, row: Job, key: Text, env: Env)
    requires sent == Store([key], [Leased(row)], [Session(0, false, Some(0))])
    requires row.device == 0 && Stranded(row)
    ensures var again := Inform(sent, Some(key), Events({}, false), NO_ONE, env, [], []).0;
            again.jobs == [Leased(row)] && InFlight(again.sessions, 0).None?
  {
    var opening := Session(0, false, None);
    var begun := Store([key], [Leased(row)], sent.sessions + [opening]);
    assert Rows(0, []) == [];
    assert sent.jobs + Rows(0, []) == [Leased(row)];
    assert RecoverWalks(begun, 0, 0, env) == begun;
    assert RecoverWalks(begun, 0, 1, env) == begun;
    assert RecoverDropped([Leased(row)], 0, Events({}, false), env) == [Leased(row)];
    assert ReleaseDiagnostics([Leased(row)], 0) == [Leased(row)];
    assert [Leased(row)] + Rows(0, []) == [Leased(row)];
    assert Lookup(sent.devices, key) == Some(0);
    assert OpenAndRecover(sent, 0, Events({}, false), env, [], []) == begun;
    InFlightAppend(sent.sessions, opening, 0);
  }
}
