/**
 Diagnostics across sessions: a test is triggered in one session and polled in later
 ones, once per Inform of its device, and the answers it takes are bounded by its
 attempts.
 */
module Diagnostics {
  import opened Options
  import opened Paths
  import opened Discovery
  import opened Verification
  import opened Jobs
  import opened Gateway
  import opened SingleFlight

  /** One dispatch of the job: the session it was sent in, how many sessions there were in all by then, and its RPC. */
  datatype Sent = Sent(session: SessionId, total: nat, rpc: Rpc)

  ghost function SentBy(s: Store, step: Step, id: JobId): seq<Sent> {
    var reply := Next(s, step).1;
    if reply.Send? && reply.job == id then [Sent(reply.session, |s.sessions|, reply.rpc)] else []
  }

  /** Every dispatch of the job, in order. */
  ghost function Log(steps: seq<Step>, id: JobId): seq<Sent> {
    if steps == [] then []
    else Log(steps[..|steps| - 1], id) + SentBy(Run(EMPTY, steps[..|steps| - 1]), steps[|steps| - 1], id)
  }

  /** The row of an answered diagnostic. */
  function Answered(job: Job, body: Body, env: Env): Job {
    if body.fault.Some? then MarkFailed(job, Reported(body.fault.value)) else CompleteDiagnostic(job, body, env)
  }

  /** The POST answers this job. */
  ghost predicate Answers(s: Store, step: Step, id: JobId) {
    Serves(s, step) && AnswersJob(s, step.cookie.value, id)
  }

  lemma AnsweredRow(s: Store, sid: SessionId, body: Body, env: Env, id: JobId)
    requires sid < |s.sessions| && id < |s.jobs| && IsDiagnostic(s.jobs[id].kind)
    ensures AnswerCurrent(s, sid, body, env).jobs[id] == if AnswersJob(s, sid, id) then Answered(s.jobs[id], body, env) else s.jobs[id]
  {
  }

  /** What answering does: the job is parked or finished; its identity and attempts stay; a deadline is never moved. */
  lemma AnsweredLands(job: Job, body: Body, env: Env)
    requires IsDiagnostic(job.kind)
    ensures var done := Answered(job, body, env);
            && (done.Terminal() || (done.status.AwaitingDiagnostics? && done.deadline.Some? && job.attempts < job.maxAttempts))
            && done.kind == job.kind && done.device == job.device && done.attempts == job.attempts && done.maxAttempts == job.maxAttempts
            && (job.deadline.Some? ==> done.deadline == job.deadline)
  {
  }

  /** The row was leased in this step: sent, or failed on the way. */
  ghost predicate LeasedRow(before: Job, after: Job) {
    && before.status.Queued? && after.kind == before.kind && after.device == before.device && after.deadline == before.deadline
    && after.attempts == before.attempts + 1 && after.maxAttempts == before.maxAttempts
    && (after.status.RpcSent? || after.status.Failed?)
  }

  lemma SentRow(s: Store, sid: SessionId, env: Env, id: JobId)
    requires sid < |s.sessions| && id < |s.jobs| && IsDiagnostic(s.jobs[id].kind)
    ensures var (t, reply) := SendNext(s, sid, env);
            && id < |t.jobs| && (t.jobs[id] == s.jobs[id] || LeasedRow(s.jobs[id], t.jobs[id]))
            && (reply.Send? && reply.job == id ==>
                  && LeasedRow(s.jobs[id], t.jobs[id]) && t.jobs[id].status.RpcSent?
                  && reply.session == sid && s.sessions[sid].device == s.jobs[id].device
                  && (reply.rpc.DiagnosticPoll? <==> s.jobs[id].deadline.Some?))
            && (!(reply.Send? && reply.job == id) && t.jobs[id] != s.jobs[id] ==> t.jobs[id].status.Failed?)
  {
  }

  /** How one step moves the row of a diagnostic. */
  ghost predicate Moved(s: Store, step: Step, id: JobId, before: Job, after: Job) {
    && after.kind == before.kind && after.device == before.device && after.maxAttempts == before.maxAttempts
    && (before.deadline.Some? ==> after.deadline == before.deadline)
    && (before.deadline.None? && after.deadline.Some? ==> before.status.RpcSent?)
    && (SentBy(s, step, id) == [] ==>
          && (after.status.RpcSent? ==> before.status.RpcSent?)
          && (after.status.Queued? ==> before.status.Queued? || Reopened(s, step, before.device)))
    && (forall e :: SentBy(s, step, id) == [e] ==>
                      && step.PostStep? && step.cookie == Some(e.session) && OpenSession(s, step.cookie) && s.sessions[e.session].device == before.device
                      && before.status.Queued? && after.status.RpcSent? && (e.rpc.DiagnosticPoll? <==> before.deadline.Some?)
                      && after.deadline == before.deadline && e.total == |s.sessions|)
  }

  /** The step opens a session of the device. */
  ghost predicate Reopened(s: Store, step: Step, device: DeviceId) {
    var t := Next(s, step).0;
    |t.sessions| == |s.sessions| + 1 && t.sessions[|s.sessions|].device == device
  }

  /** No lease of this job expires in the step. */
  ghost predicate KeepsLease(s: Store, step: Step, id: JobId)
    requires id < |s.jobs|
  {
    step.ReapStep? && id in step.stale ==> !s.jobs[id].status.RpcSent? && !s.jobs[id].status.InProgress?
  }

  lemma PostMoves(s: Store, step: Step, id: JobId)
    requires id < |s.jobs| && IsDiagnostic(s.jobs[id].kind) && Serves(s, step)
    ensures id < |Next(s, step).0.jobs| && Moved(s, step, id, s.jobs[id], Next(s, step).0.jobs[id])
    ensures var after := Next(s, step).0.jobs[id];
            if Answers(s, step, id) then after == Answered(s.jobs[id], step.body, step.postEnv)
            else after == s.jobs[id] || LeasedRow(s.jobs[id], after)
  {
    var sid := step.cookie.value;
    var answered := AnswerCurrent(s, sid, step.body, step.postEnv);
    AnsweredRow(s, sid, step.body, step.postEnv, id);
    AnsweredLands(s.jobs[id], step.body, step.postEnv);
    SentRow(answered, sid, step.postEnv, id);
  }

  /** What an Inform of its device does to a diagnostic. */
  function Recovered(job: Job, id: JobId, device: DeviceId, events: Events, env: Env): Job {
    ReleaseRow(RecoverRow(job, id, device, events, env), device)
  }

  lemma RecoveredRow(s: Store, device: DeviceId, events: Events, env: Env, before: seq<Work>, after: seq<Work>, id: JobId)
    requires id < |s.jobs| && !s.jobs[id].kind.ParameterDiscovery?
    ensures var t := OpenAndRecover(s, device, events, env, before, after);
            && id < |t.jobs| && t.jobs[id] == Recovered(s.jobs[id], id, device, events, env)
            && t.sessions == s.sessions + [Session(device, false, None)]
  {
    var begun := s.(jobs := s.jobs + Rows(device, before), sessions := s.sessions + [Session(device, false, None)]);
    WalksLeaveRow(begun, device, |begun.jobs|, env, id);
    WalksTouchJobsOnly(begun, device, |begun.jobs|, env);
  }

  lemma RecoveredMoves(job: Job, id: JobId, device: DeviceId, events: Events, env: Env)
    requires IsDiagnostic(job.kind)
    ensures var after := Recovered(job, id, device, events, env);
            && after.kind == job.kind && after.device == job.device && after.maxAttempts == job.maxAttempts && after.attempts == job.attempts
            && (job.deadline.Some? ==> after.deadline == job.deadline)
            && (job.deadline.None? && after.deadline.Some? ==> job.status.RpcSent?)
            && (after.status.RpcSent? ==> job.status.RpcSent?)
            && (after.status.Queued? && !job.status.Queued? ==> device == job.device)
            && (job.Terminal() ==> after == job)
  {
  }

  lemma InformMoves(s: Store, step: Step, id: JobId)
    requires id < |s.jobs| && IsDiagnostic(s.jobs[id].kind) && step.InformStep?
    ensures id < |Next(s, step).0.jobs| && Moved(s, step, id, s.jobs[id], Next(s, step).0.jobs[id])
    ensures Next(s, step).0.jobs[id].attempts == s.jobs[id].attempts
    ensures s.jobs[id].Terminal() ==> Next(s, step).0.jobs[id] == s.jobs[id]
  {
    if step.key.Some? && InformAdmitted(s, step.key.value, step.informer) {
      var device := DeviceOf(s, step.key.value);
      var registered := Registered(s, step.key.value);
      RecoveredRow(registered, device, step.events, step.informEnv, step.before, step.after, id);
      RecoveredMoves(s.jobs[id], id, device, step.events, step.informEnv);
    }
  }

  lemma StepMoves(s: Store, step: Step, id: JobId)
    requires id < |s.jobs| && IsDiagnostic(s.jobs[id].kind) && KeepsLease(s, step, id)
    ensures id < |Next(s, step).0.jobs| && Moved(s, step, id, s.jobs[id], Next(s, step).0.jobs[id])
  {
    match step
    case InformStep(_, _, _, _, _, _) => InformMoves(s, step, id);
    case PostStep(_, _, _, _) =>
      if Serves(s, step) {
        PostMoves(s, step, id);
      }
    case TransferStep(_, _, _) =>
    case EnqueueStep(_, _) =>
    case ReapStep(_) =>
  }

  /** A session of the device was opened after the first `from` sessions and among the first `to`. */
  ghost predicate OpenedBetween(s: Store, device: DeviceId, from: nat, to: nat) {
    exists k :: from <= k < to && k < |s.sessions| && s.sessions[k].device == device
  }

  /** Between two dispatches the device opened a session, the first is the trigger, and polls follow the triggers. */
  ghost predicate Spaced(s: Store, device: DeviceId, log: seq<Sent>) {
    && (forall i, j :: 0 <= i < j < |log| ==>
                         OpenedBetween(s, device, log[i].total, log[j].total) && (log[i].rpc.DiagnosticPoll? ==> log[j].rpc.DiagnosticPoll?))
    && (log != [] ==> !log[0].rpc.DiagnosticPoll?)
  }

  /** What the log of a diagnostic says about its row. */
  ghost predicate Consistent(s: Store, log: seq<Sent>, job: Job) {
    && Spaced(s, job.device, log)
    && (forall i :: 0 <= i < |log| ==> log[i].session < log[i].total <= |s.sessions|)
    && (job.status.RpcSent? || job.deadline.Some? ==> log != [])
    && (log != [] && log[|log| - 1].rpc.DiagnosticPoll? ==> job.deadline.Some?)
    && (log != [] && job.status.Queued? ==> OpenedBetween(s, job.device, log[|log| - 1].total, |s.sessions|))
  }

  /** Each dispatch is in a later session than the one before. */
  ghost predicate Ordered(log: seq<Sent>) {
    forall i, j :: 0 <= i < j < |log| ==> log[i].session < log[j].session
  }

  lemma SessionsGrow(s: Store, step: Step)
    ensures Grows(s, Next(s, step).0)
  {
    if step.InformStep? && step.key.Some? && InformAdmitted(s, step.key.value, step.informer) {
      var device := DeviceOf(s, step.key.value);
      var registered := Registered(s, step.key.value);
      var begun := registered.(jobs := s.jobs + Rows(device, step.before), sessions := s.sessions + [Session(device, false, None)]);
      SessionsDoNotMatter(begun, begun.sessions, device, |begun.jobs|, step.informEnv);
    }
  }

  lemma StepConsistent(s: Store, step: Step, log: seq<Sent>, id: JobId)
    requires id < |s.jobs| && IsDiagnostic(s.jobs[id].kind) && KeepsLease(s, step, id)
    requires Consistent(s, log, s.jobs[id])
    ensures id < |Next(s, step).0.jobs| && Consistent(Next(s, step).0, log + SentBy(s, step, id), Next(s, step).0.jobs[id])
  {
    StepMoves(s, step, id);
    var t := Next(s, step).0;
    SessionsGrow(s, step);
    LogConsistent(s, t, step, log, SentBy(s, step, id), id, s.jobs[id], t.jobs[id]);
  }

  /** Sessions are only added, and keep their device. */
  ghost predicate Grows(s: Store, t: Store) {
    |s.sessions| <= |t.sessions| && forall k :: 0 <= k < |s.sessions| ==> t.sessions[k].device == s.sessions[k].device
  }

  lemma OpenedStays(s: Store, t: Store, device: DeviceId, from: nat, to: nat, later: nat)
    requires Grows(s, t) && OpenedBetween(s, device, from, to) && to <= later
    ensures OpenedBetween(t, device, from, later)
  {
    var k :| from <= k < to && k < |s.sessions| && s.sessions[k].device == device;
    assert t.sessions[k].device == device;
  }

  lemma SpacedStays(s: Store, t: Store, device: DeviceId, log: seq<Sent>)
    requires Grows(s, t) && Spaced(s, device, log)
    ensures Spaced(t, device, log)
  {
    forall i, j | 0 <= i < j < |log| ensures OpenedBetween(t, device, log[i].total, log[j].total) {
      OpenedStays(s, t, device, log[i].total, log[j].total, log[j].total);
    }
  }

  /** One dispatch more, after a session the last one did not have. */
  lemma SpacedExtends(s: Store, device: DeviceId, log: seq<Sent>, e: Sent)
    requires Spaced(s, device, log) && log != [] && e.total == |s.sessions|
    requires OpenedBetween(s, device, log[|log| - 1].total, |s.sessions|)
    requires log[|log| - 1].rpc.DiagnosticPoll? ==> e.rpc.DiagnosticPoll?
    ensures Spaced(s, device, log + [e])
  {
    var longer := log + [e];
    var last := |log| - 1;
    forall i, j | 0 <= i < j < |longer|
      ensures OpenedBetween(s, device, longer[i].total, longer[j].total) && (longer[i].rpc.DiagnosticPoll? ==> longer[j].rpc.DiagnosticPoll?)
    {
      if j == |log| && i < last {
        assert OpenedBetween(s, device, log[i].total, log[last].total);
      }
    }
  }

  /** The same on abstract states: all that matters is how the row moved and that sessions only grow. */
  lemma LogConsistent(s: Store, t: Store, step: Step, log: seq<Sent>, more: seq<Sent>, id: JobId, before: Job, after: Job)
    requires t == Next(s, step).0 && more == SentBy(s, step, id)
    requires Moved(s, step, id, before, after) && Consistent(s, log, before) && Grows(s, t)
    ensures Consistent(t, log + more, after)
  {
    SpacedStays(s, t, before.device, log);
    if more == [] {
      assert log + more == log;
      QuietConsistent(s, t, step, log, id, before, after);
    } else {
      var e := more[0];
      assert more == [e];
      if log != [] {
        SpacedExtends(s, before.device, log, e);
        SpacedStays(s, t, before.device, log + [e]);
      }
    }
  }

  lemma QuietConsistent(s: Store, t: Store, step: Step, log: seq<Sent>, id: JobId, before: Job, after: Job)
    requires t == Next(s, step).0 && SentBy(s, step, id) == []
    requires Moved(s, step, id, before, after) && Consistent(s, log, before) && Grows(s, t) && Spaced(t, before.device, log)
    ensures Consistent(t, log, after)
  {
    if log != [] && after.status.Queued? {
      var from := log[|log| - 1].total;
      if before.status.Queued? {
        OpenedStays(s, t, before.device, from, |s.sessions|, |t.sessions|);
      } else {
        assert Reopened(s, step, before.device);
        assert t.sessions[|s.sessions|].device == before.device;
      }
    }
  }

  /** The kinds of jobs a handler queues by itself. */
  predicate QueuedByHandlers(kind: JobType) {
    kind.GetParameter? || kind.ParameterDiscovery? || kind.SetParameter?
  }

  ghost predicate AllByHandlers(rows: seq<Job>) {
    forall i :: 0 <= i < |rows| ==> QueuedByHandlers(rows[i].kind)
  }

  lemma CompleteKeepsKind(job: Job, body: Body, env: Env, otherWalk: bool)
    ensures Complete(job, body, env, otherWalk).job.kind == job.kind && AllByHandlers(Complete(job, body, env, otherWalk).queued)
  {
    if Renderable(job) {
      AnsweredLeavesFlight(job, body, env, otherWalk);
    } else if job.kind.SetParameter? {
      WriteSettles(job, body, env);
    }
  }

  lemma PrepareKeepsKind(job: Job, env: Env)
    ensures Prepare(job, env).job.kind == job.kind
  {
  }

  /** From one list of rows to the next: kinds stay, and only such jobs are added. */
  ghost predicate KindsKept(before: seq<Job>, after: seq<Job>) {
    && |before| <= |after|
    && (forall j :: 0 <= j < |before| ==> after[j].kind == before[j].kind)
    && (forall j :: |before| <= j < |after| ==> QueuedByHandlers(after[j].kind))
  }

  lemma SettleKeepsKinds(s: Store, id: JobId, e: Effect)
    requires id < |s.jobs| && e.job.kind == s.jobs[id].kind && AllByHandlers(e.queued)
    ensures KindsKept(s.jobs, Settle(s, id, e).jobs)
  {
  }

  lemma AnswerKeepsKinds(s: Store, sid: SessionId, body: Body, env: Env)
    requires sid < |s.sessions|
    ensures KindsKept(s.jobs, AnswerCurrent(s, sid, body, env).jobs)
  {
    var session := s.sessions[sid];
    if session.current.Some? && InFlightOf(s, session.device, session.current.value) {
      var id := session.current.value;
      var other := OtherWalk(s.jobs, id, session.device);
      CompleteKeepsKind(s.jobs[id], body, env, other);
      SettleKeepsKinds(s, id, Complete(s.jobs[id], body, env, other));
    }
  }

  lemma SendKeepsKinds(s: Store, sid: SessionId, env: Env)
    requires sid < |s.sessions|
    ensures KindsKept(s.jobs, SendNext(s, sid, env).0.jobs)
  {
    var device := s.sessions[sid].device;
    ConfigRows(device, env.configure);
    var ready := if NextQueued(s.jobs, device).Some? then s else s.(jobs := s.jobs + ConfigJobs(device, env.configure));
    var next := NextQueued(ready.jobs, device);
    if next.Some? {
      PrepareKeepsKind(Leased(ready.jobs[next.value]), env);
    }
  }

  lemma DispatchKeepsKinds(s: Store, sid: SessionId, body: Body, env: Env)
    requires sid < |s.sessions|
    ensures KindsKept(s.jobs, Dispatch(s, sid, body, env).0.jobs)
  {
    AnswerKeepsKinds(s, sid, body, env);
    SendKeepsKinds(AnswerCurrent(s, sid, body, env), sid, env);
  }

  lemma {:induction false} WalksKeepKinds(s: Store, device: DeviceId, n: nat, env: Env)
    requires n <= |s.jobs|
    ensures KindsKept(s.jobs, RecoverWalks(s, device, n, env).jobs)
  {
    if n > 0 {
      WalksKeepKinds(s, device, n - 1, env);
      var prev := RecoverWalks(s, device, n - 1, env);
      RecoverWalksStep(s, device, n, env);
      WalkKeepsKinds(prev, device, n - 1, env);
      KindsKeptTwice(s.jobs, prev.jobs, RecoverWalk(prev, device, n - 1, env).jobs);
    }
  }

  lemma KindsKeptTwice(a: seq<Job>, b: seq<Job>, c: seq<Job>)
    requires KindsKept(a, b) && KindsKept(b, c)
    ensures KindsKept(a, c)
  {
  }

  lemma WalkKeepsKinds(s: Store, device: DeviceId, i: JobId, env: Env)
    requires i < |s.jobs|
    ensures KindsKept(s.jobs, RecoverWalk(s, device, i, env).jobs)
  {
    var job := s.jobs[i];
    if InFlightWalk(job, device) && !LeftToReaper(job.payload) {
      var other := OtherWalk(s.jobs, i, device);
      ProceedSettles(job, SkipCursor(job.payload.walk), env, other);
      SettleKeepsKinds(s, i, SkipObject(job, job.payload.walk, env, other));
    }
  }

  ghost predicate Unsent(job: Job) {
    job.status.Queued? && job.deadline.None? && job.attempts == 0
  }

  lemma RecoverKeepsKind(job: Job, id: JobId, device: DeviceId, events: Events, env: Env)
    ensures Recovered(job, id, device, events, env).kind == job.kind
    ensures Unsent(job) ==> Recovered(job, id, device, events, env) == job
  {
  }

  lemma InformKinds(s: Store, device: DeviceId, events: Events, env: Env, before: seq<Work>, after: seq<Work>, id: JobId)
    ensures var t := OpenAndRecover(s, device, events, env, before, after);
            && |s.jobs| <= |t.jobs|
            && (id < |s.jobs| ==> t.jobs[id].kind == s.jobs[id].kind)
            && (|s.jobs| <= id < |t.jobs| && !QueuedByHandlers(t.jobs[id].kind) ==> Unsent(t.jobs[id]))
  {
    var begun := s.(jobs := s.jobs + Rows(device, before), sessions := s.sessions + [Session(device, false, None)]);
    WalksKeepKinds(begun, device, |begun.jobs|, env);
    var walked := RecoverWalks(begun, device, |begun.jobs|, env);
    var t := OpenAndRecover(s, device, events, env, before, after);
    if id < |walked.jobs| {
      RecoverKeepsKind(walked.jobs[id], id, device, events, env);
      assert t.jobs[id] == Recovered(walked.jobs[id], id, device, events, env);
      if |s.jobs| <= id < |begun.jobs| && !QueuedByHandlers(t.jobs[id].kind) {
        WalksLeaveRow(begun, device, |begun.jobs|, env, id);
        assert begun.jobs[id] == Rows(device, before)[id - |s.jobs|];
      }
    }
  }

  /** A row keeps its kind, and a new one that no handler queues by itself has not been sent yet. */
  lemma StepKinds(s: Store, step: Step, id: JobId)
    ensures |s.jobs| <= |Next(s, step).0.jobs|
    ensures id < |s.jobs| ==> Next(s, step).0.jobs[id].kind == s.jobs[id].kind
    ensures |s.jobs| <= id < |Next(s, step).0.jobs| && !QueuedByHandlers(Next(s, step).0.jobs[id].kind) ==> Unsent(Next(s, step).0.jobs[id])
  {
    match step
    case InformStep(key, events, bound, env, before, after) =>
      if key.Some? && InformAdmitted(s, key.value, bound) {
        InformKinds(Registered(s, key.value),
                    DeviceOf(s, key.value), events, env, before, after, id);
      }
    case PostStep(cookie, body, bound, env) =>
      if Serves(s, step) {
        DispatchKeepsKinds(s, cookie.value, body, env);
      }
    case TransferStep(_, _, _) =>
    case EnqueueStep(_, _) =>
    case ReapStep(_) =>
  }

  lemma SendNextInFlight(s: Store, sid: SessionId, env: Env)
    requires sid < |s.sessions|
    ensures var (t, reply) := SendNext(s, sid, env);
            reply.Send? ==> reply.job < |t.jobs| && t.jobs[reply.job].attempts > 0
  {
  }

  lemma SendIsInFlight(s: Store, step: Step, id: JobId)
    requires SentBy(s, step, id) != []
    ensures id < |Next(s, step).0.jobs| && Next(s, step).0.jobs[id].attempts > 0
  {
    if Serves(s, step) {
      SendNextInFlight(AnswerCurrent(s, step.cookie.value, step.body, step.postEnv), step.cookie.value, step.postEnv);
    }
  }

  /** No lease of the job expires. */
  ghost predicate Patient(steps: seq<Step>, id: JobId) {
    steps == [] ||
    (var s := Run(EMPTY, steps[..|steps| - 1]);
     Patient(steps[..|steps| - 1], id) && (id < |s.jobs| ==> KeepsLease(s, steps[|steps| - 1], id)))
  }

  lemma {:induction false} RunConsistent(steps: seq<Step>, id: JobId)
    requires Patient(steps, id)
    ensures var s := Run(EMPTY, steps);
            if id >= |s.jobs| then Log(steps, id) == [] else IsDiagnostic(s.jobs[id].kind) ==> Consistent(s, Log(steps, id), s.jobs[id])
  {
    if steps != [] {
      var n := |steps| - 1;
      RunConsistent(steps[..n], id);
      StepLog(Run(EMPTY, steps[..n]), steps[n], Log(steps[..n], id), id);
    }
  }

  lemma StepLog(s: Store, step: Step, log: seq<Sent>, id: JobId)
    requires if id >= |s.jobs| then log == [] else IsDiagnostic(s.jobs[id].kind) ==> Consistent(s, log, s.jobs[id])
    requires id < |s.jobs| ==> KeepsLease(s, step, id)
    ensures var t := Next(s, step).0;
            if id >= |t.jobs| then log + SentBy(s, step, id) == []
            else IsDiagnostic(t.jobs[id].kind) ==> Consistent(t, log + SentBy(s, step, id), t.jobs[id])
  {
    StepKinds(s, step, id);
    if SentBy(s, step, id) != [] {
      SendIsInFlight(s, step, id);
    }
    if id < |s.jobs| && IsDiagnostic(s.jobs[id].kind) {
      StepConsistent(s, step, log, id);
    }
  }

  /**
   A diagnostic is sent at most once per Inform, on whatever sessions its CPE posts:
   between two dispatches the device opened a session; the first is the trigger, and
   polls only follow triggers.
   */
  lemma DispatchedOncePerInform(steps: seq<Step>, id: JobId)
    requires Patient(steps, id)
    requires id < |Run(EMPTY, steps).jobs| && IsDiagnostic(Run(EMPTY, steps).jobs[id].kind)
    ensures Spaced(Run(EMPTY, steps), Run(EMPTY, steps).jobs[id].device, Log(steps, id))
  {
    RunConsistent(steps, id);
  }

  /** When it was sent, no later session of the device was open. */
  ghost predicate SentOnLatest(s: Store, device: DeviceId, e: Sent) {
    forall k :: e.session < k < e.total && k < |s.sessions| ==> s.sessions[k].device != device
  }

  ghost predicate AllOnLatest(s: Store, device: DeviceId, log: seq<Sent>) {
    forall i :: 0 <= i < |log| ==> log[i].total <= |s.sessions| && SentOnLatest(s, device, log[i])
  }

  lemma StepOnLatest(s: Store, step: Step, log: seq<Sent>, id: JobId)
    requires id < |s.jobs| && IsDiagnostic(s.jobs[id].kind) && KeepsLease(s, step, id)
    requires Orderly(s, step, s.jobs[id].device) && AllOnLatest(s, s.jobs[id].device, log)
    ensures var t := Next(s, step).0;
            id < |t.jobs| && t.jobs[id].device == s.jobs[id].device && AllOnLatest(t, t.jobs[id].device, log + SentBy(s, step, id))
  {
    StepMoves(s, step, id);
    SessionsGrow(s, step);
    LogOnLatest(s, Next(s, step).0, s.jobs[id].device, log, SentBy(s, step, id));
  }

  lemma LogOnLatest(s: Store, t: Store, device: DeviceId, log: seq<Sent>, more: seq<Sent>)
    requires Grows(s, t) && AllOnLatest(s, device, log) && |more| <= 1
    requires more != [] ==> more[0].total == |s.sessions| && more[0].session < |s.sessions|
                            && IsLatest(s.sessions, more[0].session) && s.sessions[more[0].session].device == device
    ensures AllOnLatest(t, device, log + more)
  {
    var longer := log + more;
    forall i | 0 <= i < |longer| ensures longer[i].total <= |t.sessions| && SentOnLatest(t, device, longer[i]) {
      if i < |log| {
        assert longer[i] == log[i] && SentOnLatest(s, device, log[i]);
      } else {
        assert longer[i] == more[0];
      }
    }
  }

  lemma {:induction false} RunOnLatest(steps: seq<Step>, id: JobId, device: DeviceId)
    requires Patient(steps, id) && OrderlyRun(steps, device)
    ensures var s := Run(EMPTY, steps);
            if id >= |s.jobs| then Log(steps, id) == []
            else IsDiagnostic(s.jobs[id].kind) && s.jobs[id].device == device ==> AllOnLatest(s, device, Log(steps, id))
  {
    if steps != [] {
      var n := |steps| - 1;
      var s := Run(EMPTY, steps[..n]);
      RunOnLatest(steps[..n], id, device);
      StepKinds(s, steps[n], id);
      if SentBy(s, steps[n], id) != [] {
        SendIsInFlight(s, steps[n], id);
      }
      if id < |s.jobs| && IsDiagnostic(s.jobs[id].kind) {
        StepMoves(s, steps[n], id);
        if s.jobs[id].device == device {
          StepOnLatest(s, steps[n], Log(steps[..n], id), id);
        }
      }
    }
  }

  /** A dispatch on what was then the device's latest session is in a later session than every dispatch before it. */
  lemma LatestIsLater(s: Store, device: DeviceId, log: seq<Sent>, i: nat, j: nat)
    requires Spaced(s, device, log) && i < j < |log| && log[i].session < log[i].total && SentOnLatest(s, device, log[j])
    ensures log[i].session < log[j].session
  {
    assert OpenedBetween(s, device, log[i].total, log[j].total);
  }

  /** So a dispatch that is not in a later session than one before it is itself one on an old session. */
  lemma OnlyOldSessionsRepeat(steps: seq<Step>, id: JobId, i: nat, j: nat)
    requires Patient(steps, id) && i < j < |Log(steps, id)|
    requires id < |Run(EMPTY, steps).jobs| && IsDiagnostic(Run(EMPTY, steps).jobs[id].kind)
    ensures var s := Run(EMPTY, steps);
            SentOnLatest(s, s.jobs[id].device, Log(steps, id)[j]) ==> Log(steps, id)[i].session < Log(steps, id)[j].session
  {
    var s := Run(EMPTY, steps);
    RunConsistent(steps, id);
    if SentOnLatest(s, s.jobs[id].device, Log(steps, id)[j]) {
      LatestIsLater(s, s.jobs[id].device, Log(steps, id), i, j);
    }
  }

  /** When its device posts on its latest session, it is sent at most once per session, each time in a later one. */
  lemma DispatchedOncePerSession(steps: seq<Step>, id: JobId)
    requires Patient(steps, id)
    requires id < |Run(EMPTY, steps).jobs| && IsDiagnostic(Run(EMPTY, steps).jobs[id].kind)
    requires OrderlyRun(steps, Run(EMPTY, steps).jobs[id].device)
    ensures Ordered(Log(steps, id))
  {
    RunOnLatest(steps, id, Run(EMPTY, steps).jobs[id].device);
    forall i, j | 0 <= i < j < |Log(steps, id)| ensures Log(steps, id)[i].session < Log(steps, id)[j].session {
      OnlyOldSessionsRepeat(steps, id, i, j);
    }
  }

  /** One ping of one device, and the device's sessions. */
  function OnePing(key: Text, path: Path, status: Status, attempts: nat, sessions: seq<Session>): Store {
    Store([key], [Job(0, DiagnosticsPing, status, Diagnostic(path), attempts, DEFAULT_MAX_ATTEMPTS, false, None, None)], sessions)
  }

  /** A POST on session 0 sends the queued ping. */
  lemma PingSent(key: Text, path: Path, attempts: nat, sessions: seq<Session>, env: Env)
    requires sessions != [] && sessions[0].device == 0 && !sessions[0].closed && (sessions[0].current.None? || sessions[0].current == Some(0))
    ensures Next(OnePing(key, path, Queued, attempts, sessions), PostStep(Some(0), SILENT, NO_ONE, env))
         == (OnePing(key, path, RpcSent, attempts + 1, sessions[0 := Session(0, false, Some(0))]), Send(0, 0, DiagnosticTrigger))
  {
    var s := OnePing(key, path, Queued, attempts, sessions);
    var sent := OnePing(key, path, RpcSent, attempts + 1, sessions[0 := Session(0, false, Some(0))]);
    var row := s.jobs[0];
    var answered := AnswerCurrent(s, 0, SILENT, env);
    assert answered.jobs == [row] && answered.sessions == sessions[0 := Session(0, false, None)];
    NextQueuedIsOldest([row], 0, 0);
    assert Prepare(Leased(row), env) == Ready(Leased(row), DiagnosticTrigger);
    assert [row][0 := Leased(row)] == [Leased(row)] && SetCurrent(answered.(jobs := [Leased(row)]), 0, Some(0)) == sent;
    assert SendNext(answered, 0, env) == (sent, Send(0, 0, DiagnosticTrigger));
  }

  /** Another Inform of the device queues it again, as dropped. */
  lemma PingDropped(key: Text, path: Path, sessions: seq<Session>, env: Env)
    ensures Next(OnePing(key, path, RpcSent, 1, sessions), InformStep(Some(key), Events({}, false), NO_ONE, env, [], [])).0
         == OnePing(key, path, Queued, 1, sessions + [Session(0, false, None)])
  {
    var sent := OnePing(key, path, RpcSent, 1, sessions);
    var begun := OnePing(key, path, RpcSent, 1, sessions + [Session(0, false, None)]);
    var row := sent.jobs[0].(status := Queued);
    assert sent.jobs + Rows(0, []) == sent.jobs;
    assert RecoverWalks(begun, 0, 0, env) == begun;
    assert RecoverWalks(begun, 0, 1, env) == begun;
    assert RecoverDropped(sent.jobs, 0, Events({}, false), env) == [row];
    assert ReleaseDiagnostics([row], 0) == [row];
    assert [row] + Rows(0, []) == [row];
    assert OpenAndRecover(sent, 0, Events({}, false), env, [], []) == begun.(jobs := [row]);
  }

  /** The POST sends the job on session 0, and sends it there again after the second Inform. */
  ghost predicate SendsTwice(inform: Step, post: Step, again: Step, rpc: Rpc) {
    var (sent, first) := Next(Next(EMPTY, inform).0, post);
    var (_, second) := Next(Next(sent, again).0, post);
    first == Send(0, 0, rpc) && second == Send(0, 0, rpc)
  }

  lemma TwoSends(inform: Step, post: Step, again: Step, rpc: Rpc, s1: Store, s2: Store, s3: Store)
    requires Next(EMPTY, inform).0 == s1 && Next(s1, post) == (s2, Send(0, 0, rpc)) && Next(s2, again).0 == s3 && Next(s3, post).1 == Send(0, 0, rpc)
    ensures SendsTwice(inform, post, again, rpc)
  {
  }

  /** Without that clause the claim per session is false: a POST on an older, still open session sends the trigger there a second time. */
  lemma OldSessionSendsTwice(key: Text, path: Path, env: Env)
    ensures SendsTwice(InformStep(Some(key), Events({}, false), NO_ONE, env, [Work(DiagnosticsPing, Diagnostic(path), DEFAULT_MAX_ATTEMPTS, false)], []),
                       PostStep(Some(0), SILENT, NO_ONE, env), InformStep(Some(key), Events({}, false), NO_ONE, env, [], []), DiagnosticTrigger)
  {
    var idle := Session(0, false, None);
    var busy := Session(0, false, Some(0));
    var work := Work(DiagnosticsPing, Diagnostic(path), DEFAULT_MAX_ATTEMPTS, false);
    FirstInform(key, Events({}, false), env, work);
    PingSent(key, path, 0, [idle], env);
    assert [idle][0 := busy] == [busy];
    PingDropped(key, path, [busy], env);
    PingSent(key, path, 1, [busy] + [idle], env);
    TwoSends(InformStep(Some(key), Events({}, false), NO_ONE, env, [work], []), PostStep(Some(0), SILENT, NO_ONE, env),
             InformStep(Some(key), Events({}, false), NO_ONE, env, [], []), DiagnosticTrigger,
             OnePing(key, path, Queued, 0, [idle]), OnePing(key, path, RpcSent, 1, [busy]), OnePing(key, path, Queued, 1, [busy] + [idle]));
  }

  /** How many of the job's dispatches were answered. */
  ghost function AnswerCount(steps: seq<Step>, id: JobId): nat {
    if steps == [] then 0
    else AnswerCount(steps[..|steps| - 1], id) + (if Answers(Run(EMPTY, steps[..|steps| - 1]), steps[|steps| - 1], id) then 1 else 0)
  }

  ghost function AnswerLimit(job: Job): nat {
    if job.maxAttempts == 0 then 1 else job.maxAttempts
  }

  ghost predicate Bounded(job: Job, n: nat) {
    && n <= job.attempts && (job.status.RpcSent? ==> n < job.attempts)
    && (n == 0 || n < job.maxAttempts || (job.Terminal() && n <= AnswerLimit(job)))
  }

  /** An answered row counts one answer more; any other row moves without losing attempts. */
  lemma AnsweredBounded(job: Job, body: Body, env: Env, n: nat)
    requires IsDiagnostic(job.kind) && job.status.RpcSent? && Bounded(job, n)
    ensures Bounded(Answered(job, body, env), n + 1)
  {
  }

  lemma MovedBounded(before: Job, after: Job, n: nat)
    requires Bounded(before, n) && after.maxAttempts == before.maxAttempts
    requires after == before || LeasedRow(before, after) ||
             (after.attempts == before.attempts && (after.status.RpcSent? ==> before.status.RpcSent?) && (before.Terminal() ==> after.Terminal()))
    ensures Bounded(after, n)
  {
  }

  lemma PostCounts(s: Store, step: Step, id: JobId, n: nat)
    requires id < |s.jobs| && IsDiagnostic(s.jobs[id].kind) && Bounded(s.jobs[id], n) && Serves(s, step)
    ensures id < |Next(s, step).0.jobs|
    ensures Bounded(Next(s, step).0.jobs[id], n + if Answers(s, step, id) then 1 else 0)
  {
    PostMoves(s, step, id);
    if Answers(s, step, id) {
      AnsweredBounded(s.jobs[id], step.body, step.postEnv, n);
    } else {
      MovedBounded(s.jobs[id], Next(s, step).0.jobs[id], n);
    }
  }

  lemma StepCounts(s: Store, step: Step, id: JobId, n: nat)
    requires id < |s.jobs| && IsDiagnostic(s.jobs[id].kind) && Bounded(s.jobs[id], n)
    ensures id < |Next(s, step).0.jobs|
    ensures Bounded(Next(s, step).0.jobs[id], n + if Answers(s, step, id) then 1 else 0)
  {
    if Serves(s, step) {
      PostCounts(s, step, id, n);
    } else {
      if step.InformStep? {
        InformMoves(s, step, id);
      }
      MovedBounded(s.jobs[id], Next(s, step).0.jobs[id], n);
    }
  }

  lemma {:induction false} RunCounts(steps: seq<Step>, id: JobId)
    ensures var s := Run(EMPTY, steps);
            if id >= |s.jobs| then AnswerCount(steps, id) == 0
            else IsDiagnostic(s.jobs[id].kind) ==> Bounded(s.jobs[id], AnswerCount(steps, id))
  {
    if steps != [] {
      var n := |steps| - 1;
      var s := Run(EMPTY, steps[..n]);
      RunCounts(steps[..n], id);
      StepKinds(s, steps[n], id);
      if id < |s.jobs| && IsDiagnostic(s.jobs[id].kind) {
        StepCounts(s, steps[n], id, AnswerCount(steps[..n], id));
      }
    }
  }

  /** In every run, orderly or not, a diagnostic takes at most MaxAttempts answers, and fewer while it is unfinished. */
  lemma AnswersAreBounded(steps: seq<Step>, id: JobId)
    requires id < |Run(EMPTY, steps).jobs| && IsDiagnostic(Run(EMPTY, steps).jobs[id].kind)
    ensures AnswerCount(steps, id) <= AnswerLimit(Run(EMPTY, steps).jobs[id])
    ensures !Run(EMPTY, steps).jobs[id].Terminal() ==> AnswerCount(steps, id) < AnswerLimit(Run(EMPTY, steps).jobs[id])
  {
    RunCounts(steps, id);
  }
}
