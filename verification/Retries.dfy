/**
 How often a job is put on the wire. A job that one answer finishes is sent at most
 MaxAttempts times, the SetParameterValues of a verified write too, and an AddObject,
 DeleteObject, Reboot, FactoryReset, Download or Upload, which must not be repeated
 blindly, at most once, whatever sessions drop, leases expire or CPEs answer.
 */
module Retries {
  import opened Options
  import opened Discovery
  import opened Verification
  import opened Jobs
  import opened Gateway
  import opened Diagnostics

  /** The types whose RPC is limited: no next object, no poll. */
  predicate Limited(kind: JobType) {
    !kind.ParameterDiscovery? && !kind.ConnectionRequest? && !IsDiagnostic(kind)
  }

  function SendLimit(job: Job): nat {
    if NonRepeatable(job.kind) || job.maxAttempts == 0 then 1 else job.maxAttempts
  }

  /** A write that was acknowledged: what is sent from now on is the verification read. */
  predicate ReadsBack(job: Job) {
    job.kind.SetParameter? && job.payload.Write? && job.payload.pending
  }

  /** The SetParameterValues among the dispatches. */
  ghost function Writes(log: seq<Sent>): (n: nat)
    ensures n <= |log|
  {
    if log == [] then 0 else Writes(log[..|log| - 1]) + if log[|log| - 1].rpc.SetValues? then 1 else 0
  }

  lemma WritesExtend(log: seq<Sent>, more: seq<Sent>)
    requires |more| <= 1
    ensures Writes(log + more) == Writes(log) + Writes(more)
  {
    if more == [] {
      assert log + more == log;
    } else {
      assert (log + more)[..|log|] == log && more[..0] == [];
    }
  }

  /**
   A job that was sent `sends` times, `writes` of them as SetParameterValues; while it is
   queued and not reading back, one more attempt is allowed.
   */
  ghost predicate Within(job: Job, sends: nat, writes: nat) {
    && !job.status.AwaitingDiagnostics? && writes <= SendLimit(job)
    && (!ReadsBack(job) ==> writes <= sends <= job.attempts <= SendLimit(job) && (job.status.Queued? ==> job.attempts < SendLimit(job)))
  }

  lemma AnsweredWithin(job: Job, body: Body, env: Env, otherWalk: bool, sends: nat, writes: nat)
    requires Limited(job.kind) && job.status.RpcSent? && Within(job, sends, writes)
    ensures Within(Complete(job, body, env, otherWalk).job, sends, writes) && Complete(job, body, env, otherWalk).job.kind == job.kind
  {
    if job.kind.SetParameter? {
      AnsweredWriteWithin(job, body, env, sends, writes);
    } else {
      AnsweredOtherWithin(job, body, sends, writes);
    }
  }

  lemma AnsweredOtherWithin(job: Job, body: Body, sends: nat, writes: nat)
    requires Limited(job.kind) && !job.kind.SetParameter? && job.status.RpcSent? && Within(job, sends, writes)
    ensures Within(CompleteRead(job, body), sends, writes) && Within(CompleteSimple(job, body), sends, writes)
  {
  }

  lemma AnsweredWriteWithin(job: Job, body: Body, env: Env, sends: nat, writes: nat)
    requires job.kind.SetParameter? && job.status.RpcSent? && Within(job, sends, writes)
    ensures Within(CompleteWrite(job, body, env).job, sends, writes) && CompleteWrite(job, body, env).job.kind == job.kind
  {
  }

  /** Leasing the job counts one dispatch more, and one write more if that is what was rendered. */
  lemma PreparedWithin(job: Job, env: Env, sends: nat, writes: nat)
    requires Limited(job.kind) && job.status.Queued? && Within(job, sends, writes)
    ensures var p := Prepare(Leased(job), env);
            Within(p.job, sends + 1, writes + if p.Ready? && p.rpc.SetValues? then 1 else 0) && Within(p.job, sends, writes)
  {
  }

  lemma SentWithin(s: Store, sid: SessionId, env: Env, id: JobId, sends: nat, writes: nat)
    requires sid < |s.sessions| && id < |SendNext(s, sid, env).0.jobs|
    requires if id < |s.jobs| then Limited(s.jobs[id].kind) && Within(s.jobs[id], sends, writes) else sends == writes == 0
    ensures var (t, reply) := SendNext(s, sid, env);
            if reply.Send? && reply.job == id then Within(t.jobs[id], sends + 1, writes + if reply.rpc.SetValues? then 1 else 0)
            else Within(t.jobs[id], sends, writes)
  {
    var device := s.sessions[sid].device;
    ConfigWithin(device, env.configure);
    var ready := if NextQueued(s.jobs, device).Some? then s else s.(jobs := s.jobs + ConfigJobs(device, env.configure));
    assert Limited(ready.jobs[id].kind) && Within(ready.jobs[id], sends, writes);
    if NextQueued(ready.jobs, device) == Some(id) {
      PreparedWithin(ready.jobs[id], env, sends, writes);
    }
  }

  lemma ConfigWithin(device: DeviceId, writes: seq<seq<ParameterWrite>>)
    ensures forall i :: 0 <= i < |ConfigJobs(device, writes)| ==>
                          Limited(ConfigJobs(device, writes)[i].kind) && Within(ConfigJobs(device, writes)[i], 0, 0)
  {
  }

  /** Rows queued by an answer start below their limit. */
  lemma QueuedWithin(job: Job, body: Body, env: Env, otherWalk: bool)
    ensures var rows := Complete(job, body, env, otherWalk).queued; forall i :: 0 <= i < |rows| ==> Within(rows[i], 0, 0)
  {
    if Renderable(job) {
      AnsweredLeavesFlight(job, body, env, otherWalk);
    } else if job.kind.SetParameter? {
      WriteSettles(job, body, env);
    }
  }

  lemma AnswerWithin(s: Store, sid: SessionId, body: Body, env: Env, id: JobId, sends: nat, writes: nat)
    requires sid < |s.sessions| && id < |AnswerCurrent(s, sid, body, env).jobs|
    requires if id < |s.jobs| then Limited(s.jobs[id].kind) && Within(s.jobs[id], sends, writes) else sends == writes == 0
    ensures Within(AnswerCurrent(s, sid, body, env).jobs[id], sends, writes)
    ensures id < |s.jobs| ==> AnswerCurrent(s, sid, body, env).jobs[id].kind == s.jobs[id].kind
  {
    var current := s.sessions[sid].current;
    if id < |s.jobs| {
      AnswerRow(s, sid, body, env, id);
      if AnswersJob(s, sid, id) {
        AnsweredWithin(s.jobs[id], body, env, OtherWalk(s.jobs, id, s.jobs[id].device), sends, writes);
      }
    } else {
      QueuedWithin(s.jobs[current.value], body, env, OtherWalk(s.jobs, current.value, s.sessions[sid].device));
    }
  }

  /** The counts after a step that sent `more`. */
  ghost predicate WithinAfter(job: Job, sends: nat, writes: nat, more: seq<Sent>) {
    Within(job, sends + |more|, writes + Writes(more))
  }

  /** A POST, for a row that was there or is created by it. */
  lemma PostWithin(s: Store, step: Step, id: JobId, sends: nat, writes: nat)
    requires Serves(s, step) && id < |Next(s, step).0.jobs| && Limited(Next(s, step).0.jobs[id].kind)
    requires if id < |s.jobs| then Within(s.jobs[id], sends, writes) else sends == writes == 0
    ensures WithinAfter(Next(s, step).0.jobs[id], sends, writes, SentBy(s, step, id))
  {
    var sid := step.cookie.value;
    var answered := AnswerCurrent(s, sid, step.body, step.postEnv);
    StepKinds(s, step, id);
    SendKeepsKinds(answered, sid, step.postEnv);
    if id < |answered.jobs| {
      AnswerWithin(s, sid, step.body, step.postEnv, id, sends, writes);
    }
    SentWithin(answered, sid, step.postEnv, id, sends, writes);
    OneSent(SentBy(s, step, id));
  }

  lemma OneSent(more: seq<Sent>)
    requires |more| <= 1
    ensures Writes(more) == if more != [] && more[0].rpc.SetValues? then 1 else 0
  {
  }

  /** A new Inform queues a dropped job again only below its limit, and never one that must not be repeated. */
  lemma RecoveredWithin(job: Job, id: JobId, device: DeviceId, events: Events, env: Env, sends: nat, writes: nat)
    requires Limited(job.kind) && Within(job, sends, writes)
    ensures Within(Recovered(job, id, device, events, env), sends, writes)
  {
  }

  lemma ReapedWithin(job: Job, sends: nat, writes: nat)
    requires Limited(job.kind) && Within(job, sends, writes)
    ensures Within(Reaped(job), sends, writes)
  {
  }

  lemma TransferWithin(job: Job, fault: Option<Text>, sends: nat, writes: nat)
    requires Limited(job.kind) && Within(job, sends, writes)
    ensures Within(CompleteTransfer(job, fault).job, sends, writes)
  {
  }

  lemma InformWithin(s: Store, step: Step, id: JobId, sends: nat, writes: nat)
    requires id < |s.jobs| && Limited(s.jobs[id].kind) && Within(s.jobs[id], sends, writes) && step.InformStep?
    ensures id < |Next(s, step).0.jobs| && WithinAfter(Next(s, step).0.jobs[id], sends, writes, SentBy(s, step, id))
  {
    if step.key.Some? && InformAdmitted(s, step.key.value, step.informer) {
      var device := DeviceOf(s, step.key.value);
      RecoveredRow(Registered(s, step.key.value), device, step.events, step.informEnv, step.before, step.after, id);
      RecoveredWithin(s.jobs[id], id, device, step.events, step.informEnv, sends, writes);
    }
  }

  lemma TransferStepWithin(s: Store, step: Step, id: JobId, sends: nat, writes: nat)
    requires id < |s.jobs| && Limited(s.jobs[id].kind) && Within(s.jobs[id], sends, writes) && step.TransferStep?
    ensures id < |Next(s, step).0.jobs| && WithinAfter(Next(s, step).0.jobs[id], sends, writes, SentBy(s, step, id))
  {
    TransferWithin(s.jobs[id], step.fault, sends, writes);
  }

  lemma QuietWithin(s: Store, step: Step, id: JobId, sends: nat, writes: nat)
    requires id < |s.jobs| && Limited(s.jobs[id].kind) && Within(s.jobs[id], sends, writes)
    requires step.TransferStep? || step.EnqueueStep? || step.ReapStep?
    ensures id < |Next(s, step).0.jobs| && WithinAfter(Next(s, step).0.jobs[id], sends, writes, SentBy(s, step, id))
  {
    if step.TransferStep? {
      TransferStepWithin(s, step, id, sends, writes);
    } else {
      ReapedWithin(s.jobs[id], sends, writes);
    }
  }

  lemma StepWithin(s: Store, step: Step, id: JobId, sends: nat, writes: nat)
    requires id < |s.jobs| && Limited(s.jobs[id].kind) && Within(s.jobs[id], sends, writes)
    ensures id < |Next(s, step).0.jobs| && WithinAfter(Next(s, step).0.jobs[id], sends, writes, SentBy(s, step, id))
  {
    match step
    case InformStep(_, _, _, _, _, _) => InformWithin(s, step, id, sends, writes);
    case PostStep(_, _, _, _) =>
      if Serves(s, step) {
        StepKinds(s, step, id);
        PostWithin(s, step, id, sends, writes);
      }
    case _ => QuietWithin(s, step, id, sends, writes);
  }

  lemma RowsWithin(device: DeviceId, work: seq<Work>)
    ensures forall i :: 0 <= i < |work| && Limited(work[i].kind) ==> Within(Rows(device, work)[i], 0, 0)
  {
  }

  lemma InformAddsWithin(s: Store, device: DeviceId, events: Events, env: Env, before: seq<Work>, after: seq<Work>, id: JobId)
    requires |s.jobs| <= id < |OpenAndRecover(s, device, events, env, before, after).jobs|
    requires Limited(OpenAndRecover(s, device, events, env, before, after).jobs[id].kind)
    ensures Within(OpenAndRecover(s, device, events, env, before, after).jobs[id], 0, 0)
  {
    var begun := s.(jobs := s.jobs + Rows(device, before), sessions := s.sessions + [Session(device, false, None)]);
    var walked := RecoverWalks(begun, device, |begun.jobs|, env);
    RowsWithin(device, before);
    RowsWithin(device, after);
    if id < |begun.jobs| {
      WalksKeepKinds(begun, device, |begun.jobs|, env);
      RecoverKeepsKind(walked.jobs[id], id, device, events, env);
      WalksLeaveRow(begun, device, |begun.jobs|, env, id);
      RecoveredWithin(begun.jobs[id], id, device, events, env, 0, 0);
    } else if id < |walked.jobs| {
      WalksAddWithin(begun, device, |begun.jobs|, env, id);
      RecoverKeepsKind(walked.jobs[id], id, device, events, env);
      RecoveredWithin(walked.jobs[id], id, device, events, env, 0, 0);
    }
  }

  lemma {:induction false} WalksAddWithin(s: Store, device: DeviceId, n: nat, env: Env, id: JobId)
    requires n <= |s.jobs|
    ensures |s.jobs| <= id < |RecoverWalks(s, device, n, env).jobs| && Limited(RecoverWalks(s, device, n, env).jobs[id].kind) ==>
              Within(RecoverWalks(s, device, n, env).jobs[id], 0, 0)
  {
    if n > 0 {
      WalksAddWithin(s, device, n - 1, env, id);
      var prev := RecoverWalks(s, device, n - 1, env);
      var job := prev.jobs[n - 1];
      if InFlightWalk(job, device) && !LeftToReaper(job.payload) {
        ProceedSettles(job, SkipCursor(job.payload.walk), env, OtherWalk(prev.jobs, n - 1, device));
      }
    }
  }

  /** A row created by the step. */
  lemma CreatedWithin(s: Store, step: Step, id: JobId)
    requires |s.jobs| <= id < |Next(s, step).0.jobs| && Limited(Next(s, step).0.jobs[id].kind)
    ensures WithinAfter(Next(s, step).0.jobs[id], 0, 0, SentBy(s, step, id))
  {
    match step
    case InformStep(key, events, bound, env, before, after) =>
      if key.Some? && InformAdmitted(s, key.value, bound) {
        InformAddsWithin(Registered(s, key.value), DeviceOf(s, key.value), events, env, before, after, id);
      }
    case PostStep(_, _, _, _) =>
      if Serves(s, step) {
        PostWithin(s, step, id, 0, 0);
      }
    case TransferStep(_, _, _) =>
    case EnqueueStep(device, work) => RowsWithin(device, [work]);
    case ReapStep(_) =>
  }

  lemma {:induction false} RunWithin(steps: seq<Step>, id: JobId)
    ensures var s := Run(EMPTY, steps);
            if id >= |s.jobs| then Log(steps, id) == []
            else Limited(s.jobs[id].kind) ==> Within(s.jobs[id], |Log(steps, id)|, Writes(Log(steps, id)))
  {
    if steps != [] {
      var n := |steps| - 1;
      var s := Run(EMPTY, steps[..n]);
      RunWithin(steps[..n], id);
      StepKinds(s, steps[n], id);
      WritesExtend(Log(steps[..n], id), SentBy(s, steps[n], id));
      if SentBy(s, steps[n], id) != [] {
        SendIsInFlight(s, steps[n], id);
      }
      if id < |s.jobs| {
        if Limited(s.jobs[id].kind) {
          StepWithin(s, steps[n], id, |Log(steps[..n], id)|, Writes(Log(steps[..n], id)));
        }
      } else if id < |Run(EMPTY, steps).jobs| && Limited(Run(EMPTY, steps).jobs[id].kind) {
        CreatedWithin(s, steps[n], id);
      }
    }
  }

  /**
   In every run, orderly or not, a job that one answer finishes is leased and sent no
   more often than its limit; so is the SetParameterValues of a write that is read back.
   */
  lemma SentWithinLimit(steps: seq<Step>, id: JobId)
    requires id < |Run(EMPTY, steps).jobs| && Limited(Run(EMPTY, steps).jobs[id].kind)
    ensures var job := Run(EMPTY, steps).jobs[id];
            && Writes(Log(steps, id)) <= SendLimit(job)
            && (!ReadsBack(job) ==> |Log(steps, id)| <= job.attempts <= SendLimit(job))
  {
    RunWithin(steps, id);
  }

  /** What must not be repeated is sent at most once. */
  lemma SentAtMostOnce(steps: seq<Step>, id: JobId)
    requires id < |Run(EMPTY, steps).jobs| && NonRepeatable(Run(EMPTY, steps).jobs[id].kind)
    ensures |Log(steps, id)| <= 1
  {
    RunWithin(steps, id);
  }
}
