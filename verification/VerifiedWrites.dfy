/**
 Verified writes: a SET_PARAMETER that asks to be verified succeeds only after the CPE
 acknowledged the write and, in a later answer, reported every written value back.
 */
module VerifiedWrites {
  import opened Options
  import opened Discovery
  import opened Verification
  import opened Jobs
  import opened Gateway
  import opened Diagnostics
  import opened Transfers

  /** The POST acknowledges the write of this job. */
  ghost predicate AcksWrite(s: Store, step: Step, id: JobId) {
    Answers(s, step, id) && step.body.fault.None? && step.body.setValues
  }

  /** The POST reads every verifiable parameter of this job back as written. */
  ghost predicate Confirmed(s: Store, step: Step, id: JobId) {
    && Answers(s, step, id) && step.body.fault.None? && !step.body.setValues && step.body.getValues.Some?
    && s.jobs[id].payload.Write? && ReadbackConfirms(s.jobs[id].payload, step.body)
  }

  ghost predicate WriteAcked(steps: seq<Step>, id: JobId) {
    steps != [] &&
    (WriteAcked(steps[..|steps| - 1], id) || AcksWrite(Run(EMPTY, steps[..|steps| - 1]), steps[|steps| - 1], id))
  }

  /** The run holds an acknowledgement of the write and, after it, a confirming read-back. */
  ghost predicate ConfirmedLater(steps: seq<Step>, id: JobId) {
    steps != [] &&
    (|| ConfirmedLater(steps[..|steps| - 1], id)
     || (WriteAcked(steps[..|steps| - 1], id) && Confirmed(Run(EMPTY, steps[..|steps| - 1]), steps[|steps| - 1], id)))
  }

  /** A TransferComplete without a fault, admitted, names a verifiable write that is in flight: its type is not looked at. */
  ghost predicate SkipsReadback(s: Store, step: Step, id: JobId) {
    && step.TransferStep? && step.job == Some(id) && step.fault.None? && !step.sender.bootstrapOnly
    && id < |s.jobs| && s.jobs[id].kind.SetParameter? && WantsReadback(s.jobs[id].payload)
    && (s.jobs[id].status.RpcSent? || s.jobs[id].status.AwaitingTransferComplete?)
    && Admits(s, step.sender, s.jobs[id].device)
  }

  /** Some step of the run does that. */
  ghost predicate SkippedReadback(steps: seq<Step>, id: JobId) {
    steps != [] &&
    (SkippedReadback(steps[..|steps| - 1], id) || SkipsReadback(Run(EMPTY, steps[..|steps| - 1]), steps[|steps| - 1], id))
  }

  /** Work queued from outside starts before its first dispatch. */
  ghost predicate NotPending(work: Work) {
    work.payload.Write? ==> !work.payload.pending
  }

  ghost predicate CleanStep(step: Step) {
    match step
    case InformStep(_, _, _, _, before, after) =>
      && (forall i :: 0 <= i < |before| ==> NotPending(before[i]))
      && (forall i :: 0 <= i < |after| ==> NotPending(after[i]))
    case EnqueueStep(_, work) => NotPending(work)
    case _ => true
  }

  ghost predicate Pending(job: Job) {
    job.payload.Write? && job.payload.pending
  }

  ghost predicate Claims(job: Job) {
    job.kind.SetParameter? && job.status.Success? && WantsReadback(job.payload)
  }

  /** What one step may do to the row of a write. */
  ghost predicate Honest(s: Store, step: Step, id: JobId, before: Job, after: Job) {
    && after.kind == before.kind
    && (Pending(after) ==> Pending(before) || AcksWrite(s, step, id))
    && (Claims(after) ==> Claims(before) || (Pending(before) && Confirmed(s, step, id)) || SkipsReadback(s, step, id))
  }

  function AnsweredWrite(job: Job, body: Body, env: Env): Job {
    if body.fault.Some? then MarkFailed(job, Reported(body.fault.value)) else CompleteWrite(job, body, env).job
  }

  lemma AnsweredWriteRow(s: Store, sid: SessionId, body: Body, env: Env, id: JobId)
    requires sid < |s.sessions| && id < |s.jobs| && s.jobs[id].kind.SetParameter?
    ensures AnswerCurrent(s, sid, body, env).jobs[id] == if AnswersJob(s, sid, id) then AnsweredWrite(s.jobs[id], body, env) else s.jobs[id]
  {
  }

  lemma AnsweredWriteHonest(job: Job, body: Body, env: Env)
    requires job.kind.SetParameter? && job.status.RpcSent?
    ensures var after := AnsweredWrite(job, body, env);
            && after.kind == job.kind && !after.status.RpcSent?
            && (Pending(after) ==> Pending(job) || (body.fault.None? && body.setValues))
            && (Claims(after) ==> Pending(job) && body.fault.None? && !body.setValues && body.getValues.Some? && ReadbackConfirms(job.payload, body))
  {
  }

  lemma SentWriteRow(s: Store, sid: SessionId, env: Env, id: JobId)
    requires sid < |s.sessions| && id < |s.jobs| && s.jobs[id].kind.SetParameter?
    ensures var t := SendNext(s, sid, env).0;
            && id < |t.jobs| && t.jobs[id].kind == s.jobs[id].kind && (Pending(t.jobs[id]) <==> Pending(s.jobs[id]))
            && (t.jobs[id].status.Success? ==> t.jobs[id] == s.jobs[id])
  {
  }

  lemma PostHonest(s: Store, step: Step, id: JobId)
    requires id < |s.jobs| && s.jobs[id].kind.SetParameter? && Serves(s, step)
    ensures id < |Next(s, step).0.jobs| && Honest(s, step, id, s.jobs[id], Next(s, step).0.jobs[id])
  {
    var sid := step.cookie.value;
    AnsweredWriteRow(s, sid, step.body, step.postEnv, id);
    if Answers(s, step, id) {
      AnsweredWriteHonest(s.jobs[id], step.body, step.postEnv);
    }
    SentWriteRow(AnswerCurrent(s, sid, step.body, step.postEnv), sid, step.postEnv, id);
  }

  lemma RecoveredWrite(job: Job, id: JobId, device: DeviceId, events: Events, env: Env)
    requires job.kind.SetParameter?
    ensures var after := Recovered(job, id, device, events, env);
            after.kind == job.kind && after.payload == job.payload && (after.status.Success? ==> job.status.Success?)
  {
  }

  lemma StepHonest(s: Store, step: Step, id: JobId)
    requires id < |s.jobs| && s.jobs[id].kind.SetParameter?
    ensures id < |Next(s, step).0.jobs| && Honest(s, step, id, s.jobs[id], Next(s, step).0.jobs[id])
  {
    match step
    case InformStep(key, events, bound, env, before, after) =>
      if key.Some? && InformAdmitted(s, key.value, bound) {
        var device := DeviceOf(s, key.value);
        RecoveredRow(Registered(s, key.value), device, events, env, before, after, id);
        RecoveredWrite(s.jobs[id], id, device, events, env);
      }
    case PostStep(_, _, _, _) =>
      if Serves(s, step) {
        PostHonest(s, step, id);
      }
    case TransferStep(_, _, _) =>
    case EnqueueStep(_, _) =>
    case ReapStep(_) =>
  }

  lemma SkipSucceeds(s: Store, step: Step, id: JobId)
    requires SkipsReadback(s, step, id)
    ensures id < |Next(s, step).0.jobs| && Claims(Next(s, step).0.jobs[id]) && !Confirmed(s, step, id)
  {
  }

  /** An unfinished write succeeds unconfirmed exactly by such a step, whatever the step. */
  lemma UnconfirmedExactlyBySkip(s: Store, step: Step, id: JobId)
    requires id < |s.jobs| && s.jobs[id].kind.SetParameter? && !s.jobs[id].Terminal()
    ensures id < |Next(s, step).0.jobs|
    ensures Claims(Next(s, step).0.jobs[id]) && !(Pending(s.jobs[id]) && Confirmed(s, step, id)) <==> SkipsReadback(s, step, id)
  {
    StepHonest(s, step, id);
    if SkipsReadback(s, step, id) {
      SkipSucceeds(s, step, id);
    }
  }

  /** A confirming answer finishes the job, one way or the other. */
  lemma ConfirmationFinishes(s: Store, step: Step, id: JobId)
    requires Confirmed(s, step, id) && s.jobs[id].kind.SetParameter?
    ensures id < |Next(s, step).0.jobs| && Next(s, step).0.jobs[id].Terminal()
  {
    var sid := step.cookie.value;
    AnsweredWriteRow(s, sid, step.body, step.postEnv, id);
    OthersWait(AnswerCurrent(s, sid, step.body, step.postEnv), sid, id, step.postEnv);
  }

  /** A write row just created is neither pending nor finished. */
  ghost predicate Untouched(job: Job) {
    job.kind.SetParameter? ==> !Pending(job) && !job.status.Success?
  }

  lemma QueuedUntouched(job: Job, body: Body, env: Env, otherWalk: bool)
    ensures forall i :: 0 <= i < |Complete(job, body, env, otherWalk).queued| ==> Untouched(Complete(job, body, env, otherWalk).queued[i])
  {
    if Renderable(job) {
      AnsweredLeavesFlight(job, body, env, otherWalk);
    } else if job.kind.SetParameter? {
      WriteSettles(job, body, env);
    }
  }

  lemma AnswerAddsUntouched(s: Store, sid: SessionId, body: Body, env: Env, id: JobId)
    requires sid < |s.sessions|
    ensures |s.jobs| <= id < |AnswerCurrent(s, sid, body, env).jobs| ==> Untouched(AnswerCurrent(s, sid, body, env).jobs[id])
  {
    var session := s.sessions[sid];
    if session.current.Some? && InFlightOf(s, session.device, session.current.value) {
      QueuedUntouched(s.jobs[session.current.value], body, env, OtherWalk(s.jobs, session.current.value, session.device));
    }
  }

  lemma PrepareUntouched(job: Job, env: Env)
    requires Untouched(job) && job.status.RpcSent?
    ensures Untouched(Prepare(job, env).job)
  {
  }

  lemma SendAddsUntouched(s: Store, sid: SessionId, env: Env, id: JobId)
    requires sid < |s.sessions| && (id < |s.jobs| ==> Untouched(s.jobs[id]))
    ensures id < |SendNext(s, sid, env).0.jobs| ==> Untouched(SendNext(s, sid, env).0.jobs[id])
  {
    var device := s.sessions[sid].device;
    ConfigRows(device, env.configure);
    var ready := if NextQueued(s.jobs, device).Some? then s else s.(jobs := s.jobs + ConfigJobs(device, env.configure));
    assert id < |ready.jobs| ==> Untouched(ready.jobs[id]);
    if NextQueued(ready.jobs, device) == Some(id) {
      PrepareUntouched(Leased(ready.jobs[id]), env);
    }
  }

  lemma {:induction false} WalksAddUntouched(s: Store, device: DeviceId, n: nat, env: Env, id: JobId)
    requires n <= |s.jobs|
    ensures |s.jobs| <= id < |RecoverWalks(s, device, n, env).jobs| ==> Untouched(RecoverWalks(s, device, n, env).jobs[id])
  {
    if n > 0 {
      WalksAddUntouched(s, device, n - 1, env, id);
      var prev := RecoverWalks(s, device, n - 1, env);
      var job := prev.jobs[n - 1];
      if InFlightWalk(job, device) && !LeftToReaper(job.payload) {
        ProceedSettles(job, SkipCursor(job.payload.walk), env, OtherWalk(prev.jobs, n - 1, device));
      }
    }
  }

  lemma RowsUntouched(device: DeviceId, work: seq<Work>)
    requires forall i :: 0 <= i < |work| ==> NotPending(work[i])
    ensures forall i :: 0 <= i < |work| ==> Untouched(Rows(device, work)[i])
  {
  }

  lemma InformAddsUntouched(s: Store, device: DeviceId, events: Events, env: Env, before: seq<Work>, after: seq<Work>, id: JobId)
    requires (forall i :: 0 <= i < |before| ==> NotPending(before[i])) && (forall i :: 0 <= i < |after| ==> NotPending(after[i]))
    ensures var t := OpenAndRecover(s, device, events, env, before, after);
            |s.jobs| <= id < |t.jobs| ==> Untouched(t.jobs[id])
  {
    var begun := s.(jobs := s.jobs + Rows(device, before), sessions := s.sessions + [Session(device, false, None)]);
    RowsUntouched(device, before);
    RowsUntouched(device, after);
    WalksAddUntouched(begun, device, |begun.jobs|, env, id);
    WalksKeepKinds(begun, device, |begun.jobs|, env);
    var walked := RecoverWalks(begun, device, |begun.jobs|, env);
    if |s.jobs| <= id < |walked.jobs| {
      if id < |begun.jobs| && begun.jobs[id].kind.SetParameter? {
        WalksLeaveRow(begun, device, |begun.jobs|, env, id);
      }
      RecoverKeepsKind(walked.jobs[id], id, device, events, env);
      if walked.jobs[id].kind.SetParameter? {
        RecoveredWrite(walked.jobs[id], id, device, events, env);
      }
      assert OpenAndRecover(s, device, events, env, before, after).jobs[id] == Recovered(walked.jobs[id], id, device, events, env);
    }
  }

  lemma NewRowsUntouched(s: Store, step: Step, id: JobId)
    requires CleanStep(step)
    ensures |s.jobs| <= id < |Next(s, step).0.jobs| ==> Untouched(Next(s, step).0.jobs[id])
  {
    match step
    case InformStep(key, events, bound, env, before, after) =>
      if key.Some? && InformAdmitted(s, key.value, bound) {
        InformAddsUntouched(Registered(s, key.value),
                            DeviceOf(s, key.value), events, env, before, after, id);
      }
    case PostStep(cookie, body, bound, env) =>
      if Serves(s, step) && id >= |s.jobs| {
        AnswerAddsUntouched(s, cookie.value, body, env, id);
        SendAddsUntouched(AnswerCurrent(s, cookie.value, body, env), cookie.value, env, id);
      }
    case TransferStep(_, _, _) =>
    case EnqueueStep(device, work) => RowsUntouched(device, [work]);
    case ReapStep(_) =>
  }

  /** The row against the events of its run. */
  ghost predicate Justified(job: Job, acked: bool, confirmed: bool, skipped: bool) {
    && (Pending(job) ==> acked)
    && (confirmed || skipped ==> job.Terminal())
    && (Claims(job) && !confirmed <==> skipped)
  }

  ghost predicate JustifiedRun(steps: seq<Step>, id: JobId) {
    var s := Run(EMPTY, steps);
    if id >= |s.jobs| then !WriteAcked(steps, id) && !ConfirmedLater(steps, id) && !SkippedReadback(steps, id)
    else s.jobs[id].kind.SetParameter? ==>
           Justified(s.jobs[id], WriteAcked(steps, id), ConfirmedLater(steps, id), SkippedReadback(steps, id))
  }

  lemma FinishedStays(s: Store, step: Step, id: JobId)
    requires id < |s.jobs| && s.jobs[id].kind.SetParameter? && s.jobs[id].Terminal()
    ensures id < |Next(s, step).0.jobs| && Next(s, step).0.jobs[id] == s.jobs[id]
    ensures !AcksWrite(s, step, id) && !Confirmed(s, step, id) && !SkipsReadback(s, step, id)
  {
    FinishedMovesOnlyLate(s, step, id);
  }

  lemma StepJustified(s: Store, step: Step, id: JobId, acked: bool, confirmed: bool, skipped: bool)
    requires id < |s.jobs| && s.jobs[id].kind.SetParameter? && Justified(s.jobs[id], acked, confirmed, skipped)
    ensures id < |Next(s, step).0.jobs|
    ensures Justified(Next(s, step).0.jobs[id], acked || AcksWrite(s, step, id), confirmed || (acked && Confirmed(s, step, id)),
                      skipped || SkipsReadback(s, step, id))
  {
    if s.jobs[id].Terminal() {
      FinishedStays(s, step, id);
    } else {
      StepHonest(s, step, id);
      UnconfirmedExactlyBySkip(s, step, id);
      if Confirmed(s, step, id) {
        ConfirmationFinishes(s, step, id);
      }
    }
  }

  lemma {:induction false} RunsAreJustified(steps: seq<Step>, id: JobId)
    requires forall i :: 0 <= i < |steps| ==> CleanStep(steps[i])
    ensures JustifiedRun(steps, id)
  {
    if steps != [] {
      var n := |steps| - 1;
      RunsAreJustified(steps[..n], id);
      var s := Run(EMPTY, steps[..n]);
      StepKinds(s, steps[n], id);
      if id >= |s.jobs| {
        NewRowsUntouched(s, steps[n], id);
      } else if s.jobs[id].kind.SetParameter? {
        StepJustified(s, steps[n], id, WriteAcked(steps[..n], id), ConfirmedLater(steps[..n], id), SkippedReadback(steps[..n], id));
      }
    }
  }

  /**
   In every run, a write that asked for verification and can be verified has SUCCESS
   without an acknowledgement and a later confirming read-back exactly when some admitted,
   fault-free TransferComplete named it while it was in flight; never both.
   */
  lemma SuccessIsConfirmed(steps: seq<Step>, id: JobId)
    requires forall i :: 0 <= i < |steps| ==> CleanStep(steps[i])
    requires id < |Run(EMPTY, steps).jobs| && Run(EMPTY, steps).jobs[id].kind.SetParameter?
    ensures Claims(Run(EMPTY, steps).jobs[id]) && !ConfirmedLater(steps, id) <==> SkippedReadback(steps, id)
  {
    RunsAreJustified(steps, id);
  }

  /** That happens: handleTransferComplete does not look at the job's type. */
  lemma TransferCompleteSkipsReadback(params: seq<ParameterWrite>, env: Env)
    requires VerificationPaths(params, {}) != [] && Openable(params, env.vault) && env.writeOnly == {}
    ensures var inform := InformStep(Some(Text("cpe")), Events({}, false), NO_ONE, env,
                                     [Work(SetParameter, Write(params, true, false, {}, None), DEFAULT_MAX_ATTEMPTS, false)], []);
            var sent := Next(Next(EMPTY, inform).0, PostStep(Some(0), SILENT, NO_ONE, env)).0;
            var done := Next(sent, TransferStep(Some(0), None, NO_ONE)).0;
            && |sent.jobs| == 1 && !Pending(sent.jobs[0]) && |done.jobs| == 1 && Claims(done.jobs[0])
  {
    var payload := Write(params, true, false, {}, None);
    var queued := NewJob(0, SetParameter, payload, DEFAULT_MAX_ATTEMPTS);
    FirstInform(Text("cpe"), Events({}, false), env, Work(SetParameter, payload, DEFAULT_MAX_ATTEMPTS, false));
    var begun := Store([Text("cpe")], [queued], [Session(0, false, None)]);
    NextQueuedIsOldest(begun.jobs, 0, 0);
    var bound := Leased(queued).(payload := Write(params, true, false, {}, Some(env.firmware)));
    assert (set p | p in WrittenPaths(params) && p in env.writeOnly) == {};
    assert Prepare(Leased(queued), env) == Ready(bound, SetValues(Substitute(params, env.vault)));
    var sent := Store([Text("cpe")], [bound], [Session(0, false, Some(0))]);
    assert Next(begun, PostStep(Some(0), SILENT, NO_ONE, env)).0 == sent;
    assert CompleteTransfer(bound, None) == Effect(MarkSuccess(bound), []);
  }

  /** The row in the store keeps its sealed handles: only the RPC carries the opened values. */
  lemma HandlesStaySealed(job: Job, env: Env)
    requires job.kind.SetParameter? && job.payload.Write?
    ensures var p := Prepare(job, env);
            && p.job.payload.Write? && p.job.payload.params == job.payload.params
            && (p.Ready? && p.rpc.SetValues? ==>
                  && !job.payload.pending && Openable(job.payload.params, env.vault)
                  && p.rpc.params == Substitute(job.payload.params, env.vault)
                  && forall i :: 0 <= i < |p.rpc.params| ==> p.rpc.params[i].handle.None?)
  {
  }

  /** A verification read opens nothing: whatever secrets are sealed, it is prepared the same way. */
  lemma ReadbackOpensNothing(job: Job, env: Env, vault: map<Text, Text>)
    requires job.kind.SetParameter? && Pending(job)
    ensures Prepare(job, env) == Prepare(job, env.(vault := vault))
    ensures Prepare(job, env).Ready? ==> Prepare(job, env).rpc.GetValues?
  {
  }
}
