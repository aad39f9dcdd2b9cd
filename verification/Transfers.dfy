/**
 Downloads and uploads. A transfer is accepted in the session that sent it and its
 outcome arrives on its own, as a TransferComplete, before or after the acceptance.
 Either order ends the same way, repeats change nothing, and a finished job moves
 again only when the ACS itself had given up on the transfer.
 */
module Transfers {
  import opened Options
  import opened Verification
  import opened Jobs
  import opened Gateway
  import opened Isolation

  /** The POST accepts the transfer in flight. */
  predicate Accepts(kind: JobType, body: Body) {
    body.fault.None? && Acknowledged(kind, body)
  }

  /** A fault code that reads as one of the ACS's own. */
  predicate ForgedCode(fault: Option<Text>) {
    fault.Some? && fault.value in GIVE_UP_CODES
  }

  /** completeJob on the session's current job, if it is still in flight. */
  function Respond(job: Job, body: Body): Job {
    if !job.status.RpcSent? then job
    else if body.fault.Some? then MarkFailed(job, Reported(body.fault.value))
    else CompleteSimple(job, body)
  }

  /** The two orders, on the row of the transfer. */
  lemma RowOrder(job: Job, body: Body, fault: Option<Text>)
    requires job.status.RpcSent? && IsTransfer(job.kind)
    ensures var late := CompleteTransfer(Respond(job, body), fault);
            var early := CompleteTransfer(job, fault);
            && (Accepts(job.kind, body) ==> late == early)
            && (late.job.status == early.job.status <==> Accepts(job.kind, body) || fault.Some? || ForgedCode(body.fault))
            && Respond(early.job, body) == early.job
  {
  }

  lemma AnsweredTransfer(s: Store, sid: SessionId, body: Body, env: Env, id: JobId)
    requires sid < |s.sessions| && id < |s.jobs| && IsTransfer(s.jobs[id].kind)
    ensures AnswerCurrent(s, sid, body, env).jobs[id] == if AnswersJob(s, sid, id) then Respond(s.jobs[id], body) else s.jobs[id]
  {
  }

  /** A POST changes the row of the transfer in flight as Respond says, and no other finished or awaiting row. */
  lemma PostOnRow(s: Store, sid: SessionId, id: JobId, body: Body, env: Env)
    requires sid < |s.sessions| && id < |s.jobs| && IsTransfer(s.jobs[id].kind)
    requires s.sessions[sid].current == Some(id) && s.jobs[id].device == s.sessions[sid].device
    requires !s.jobs[id].status.Queued?
    ensures id < |Dispatch(s, sid, body, env).0.jobs|
    ensures Dispatch(s, sid, body, env).0.jobs[id] == Respond(s.jobs[id], body)
  {
    AnsweredTransfer(s, sid, body, env, id);
    OthersWait(AnswerCurrent(s, sid, body, env), sid, id, env);
  }

  /** Sending the next job leaves every row that is not queued as it is. */
  lemma OthersWait(s: Store, sid: SessionId, id: JobId, env: Env)
    requires sid < |s.sessions| && id < |s.jobs| && !s.jobs[id].status.Queued?
    ensures id < |SendNext(s, sid, env).0.jobs| && SendNext(s, sid, env).0.jobs[id] == s.jobs[id]
  {
  }

  /** Both requests pass their identity checks, in either order. */
  ghost predicate BothServed(s: Store, sid: SessionId, poster: Identity, id: JobId, sender: Identity) {
    && id < |s.jobs| && OpenSession(s, Some(sid)) && s.sessions[sid].current == Some(id) && s.jobs[id].device == s.sessions[sid].device
    && !poster.bootstrapOnly && Admits(s, poster, s.sessions[sid].device)
    && !sender.bootstrapOnly && Admits(s, sender, s.jobs[id].device)
  }

  /** The step is not about the device's sessions or this job: other devices, other jobs' outcomes and leases, new jobs for anyone. */
  ghost predicate Elsewhere(s: Store, step: Step, device: DeviceId, id: JobId) {
    match step
    case InformStep(key, _, _, _, _, _) => key.Some? ==> DeviceOf(s, key.value) != device
    case PostStep(cookie, _, _, _) => OpenSession(s, cookie) ==> s.sessions[cookie.value].device != device
    case TransferStep(job, _, _) => job != Some(id)
    case EnqueueStep(_, _) => true
    case ReapStep(stale) => id !in stale
  }

  ghost predicate ElsewhereRun(s: Store, steps: seq<Step>, device: DeviceId, id: JobId) {
    steps == [] ||
    (ElsewhereRun(s, steps[..|steps| - 1], device, id) && Elsewhere(Run(s, steps[..|steps| - 1]), steps[|steps| - 1], device, id))
  }

  /** The job's row, the session and the registered devices are as they were. */
  ghost predicate KeptFor(s: Store, t: Store, sid: SessionId, id: JobId)
    requires sid < |s.sessions| && id < |s.jobs|
  {
    && s.devices <= t.devices
    && sid < |t.sessions| && t.sessions[sid] == s.sessions[sid]
    && id < |t.jobs| && t.jobs[id] == s.jobs[id]
  }

  lemma DispatchElsewhere(s: Store, cookie: SessionId, body: Body, env: Env, sid: SessionId, id: JobId)
    requires sid < |s.sessions| && id < |s.jobs| && cookie < |s.sessions|
    requires s.sessions[cookie].device != s.jobs[id].device == s.sessions[sid].device
    ensures KeptFor(s, Dispatch(s, cookie, body, env).0, sid, id)
  {
    DispatchConfined(s, cookie, body, env);
    DispatchSession(s, cookie, body, env);
  }

  lemma InformElsewhere(s: Store, device: DeviceId, events: Events, env: Env, before: seq<Work>, after: seq<Work>, sid: SessionId, id: JobId)
    requires sid < |s.sessions| && id < |s.jobs| && s.jobs[id].device != device
    ensures KeptFor(s, OpenAndRecover(s, device, events, env, before, after), sid, id)
  {
    var begun := s.(jobs := s.jobs + Rows(device, before), sessions := s.sessions + [Session(device, false, None)]);
    InformConfined(s, device, events, env, before, after);
    WalksTouchJobsOnly(begun, device, |begun.jobs|, env);
  }

  lemma ElsewhereKeeps(s: Store, step: Step, sid: SessionId, id: JobId)
    requires sid < |s.sessions| && id < |s.jobs| && s.jobs[id].device == s.sessions[sid].device && Elsewhere(s, step, s.jobs[id].device, id)
    ensures KeptFor(s, Next(s, step).0, sid, id)
  {
    match step
    case InformStep(key, events, bound, env, before, after) =>
      if key.Some? && InformAdmitted(s, key.value, bound) {
        InformElsewhere(Registered(s, key.value), DeviceOf(s, key.value), events, env, before, after, sid, id);
      }
    case PostStep(cookie, body, bound, env) =>
      if !bound.bootstrapOnly && OpenSession(s, cookie) && Admits(s, bound, s.sessions[cookie.value].device) {
        DispatchElsewhere(s, cookie.value, body, env, sid, id);
      }
    case TransferStep(_, _, _) =>
    case EnqueueStep(_, _) =>
    case ReapStep(_) =>
  }

  lemma {:induction false} ElsewhereRunKeeps(s: Store, steps: seq<Step>, sid: SessionId, id: JobId)
    requires sid < |s.sessions| && id < |s.jobs| && s.jobs[id].device == s.sessions[sid].device
    requires ElsewhereRun(s, steps, s.jobs[id].device, id)
    ensures KeptFor(s, Run(s, steps), sid, id)
  {
    if steps != [] {
      ElsewhereRunKeeps(s, steps[..|steps| - 1], sid, id);
      ElsewhereKeeps(Run(s, steps[..|steps| - 1]), steps[|steps| - 1], sid, id);
    }
  }

  /**
   A transfer in flight ends with the same row whichever of its acceptance and its
   TransferComplete is served first, whatever other devices and jobs do in between.
   When the CPE answers the RPC with something else, the order matters exactly when the
   TransferComplete reports success and the answer is not a fault that reads as one of
   the ACS's own codes.
   */
  lemma TransferOrder(s: Store, sid: SessionId, id: JobId, body: Body, poster: Identity, env: Env, fault: Option<Text>, sender: Identity,
                      between: seq<Step>)
    requires BothServed(s, sid, poster, id, sender) && s.jobs[id].status.RpcSent? && IsTransfer(s.jobs[id].kind)
    requires ElsewhereRun(Next(s, PostStep(Some(sid), body, poster, env)).0, between, s.jobs[id].device, id)
    requires ElsewhereRun(Next(s, TransferStep(Some(id), fault, sender)).0, between, s.jobs[id].device, id)
    ensures var post := PostStep(Some(sid), body, poster, env);
            var complete := TransferStep(Some(id), fault, sender);
            var late := Next(Run(Next(s, post).0, between), complete).0;
            var early := Next(Run(Next(s, complete).0, between), post).0;
            && id < |late.jobs| && id < |early.jobs|
            && (Accepts(s.jobs[id].kind, body) ==> late.jobs[id] == early.jobs[id])
            && (late.jobs[id].status == early.jobs[id].status <==>
                Accepts(s.jobs[id].kind, body) || fault.Some? || ForgedCode(body.fault))
  {
    RowOrder(s.jobs[id], body, fault);
    var posted := Dispatch(s, sid, body, env).0;
    PostOnRow(s, sid, id, body, env);
    DispatchSession(s, sid, body, env);
    LateRow(s, posted, sid, id, fault, sender, between);
    EarlyRow(s, sid, id, body, poster, env, fault, sender, between);
  }

  lemma LateRow(s: Store, posted: Store, sid: SessionId, id: JobId, fault: Option<Text>, sender: Identity, between: seq<Step>)
    requires id < |s.jobs| && !sender.bootstrapOnly && Admits(s, sender, s.jobs[id].device)
    requires posted.devices == s.devices && sid < |posted.sessions| && id < |posted.jobs|
    requires posted.jobs[id].device == posted.sessions[sid].device == s.jobs[id].device && ElsewhereRun(posted, between, s.jobs[id].device, id)
    ensures var late := Next(Run(posted, between), TransferStep(Some(id), fault, sender)).0;
            id < |late.jobs| && late.jobs[id] == CompleteTransfer(posted.jobs[id], fault).job
  {
    ElsewhereRunKeeps(posted, between, sid, id);
    CompletedRow(s, Run(posted, between), id, fault, sender);
  }

  lemma CompletedRow(s: Store, t: Store, id: JobId, fault: Option<Text>, sender: Identity)
    requires id < |s.jobs| && id < |t.jobs| && s.devices <= t.devices && t.jobs[id].device == s.jobs[id].device
    requires !sender.bootstrapOnly && Admits(s, sender, s.jobs[id].device)
    ensures var done := Next(t, TransferStep(Some(id), fault, sender)).0;
            id < |done.jobs| && done.jobs[id] == CompleteTransfer(t.jobs[id], fault).job
  {
  }

  lemma EarlyRow(s: Store, sid: SessionId, id: JobId, body: Body, poster: Identity, env: Env, fault: Option<Text>, sender: Identity,
                 between: seq<Step>)
    requires BothServed(s, sid, poster, id, sender) && s.jobs[id].status.RpcSent? && IsTransfer(s.jobs[id].kind)
    requires ElsewhereRun(Next(s, TransferStep(Some(id), fault, sender)).0, between, s.jobs[id].device, id)
    ensures var early := Next(Run(Next(s, TransferStep(Some(id), fault, sender)).0, between), PostStep(Some(sid), body, poster, env)).0;
            id < |early.jobs| && early.jobs[id] == CompleteTransfer(s.jobs[id], fault).job
  {
    var completed := Settle(s, id, CompleteTransfer(s.jobs[id], fault));
    ElsewhereRunKeeps(completed, between, sid, id);
    FinishedRowStays(s, Run(completed, between), sid, id, body, poster, env);
  }

  lemma FinishedRowStays(s: Store, t: Store, sid: SessionId, id: JobId, body: Body, poster: Identity, env: Env)
    requires s.devices <= t.devices && OpenSession(t, Some(sid)) && !poster.bootstrapOnly && Admits(s, poster, t.sessions[sid].device)
    requires id < |t.jobs| && t.jobs[id].Terminal()
    ensures var done := Next(t, PostStep(Some(sid), body, poster, env)).0;
            id < |done.jobs| && done.jobs[id] == t.jobs[id]
  {
    DispatchSkipsFinished(t, sid, body, env, id);
  }

  /** The rest of the store agrees too, confirmation read included, once the acceptance itself is compared. */
  lemma AcceptanceCommutes(s: Store, sid: SessionId, id: JobId, body: Body, env: Env, fault: Option<Text>)
    requires sid < |s.sessions| && id < |s.jobs| && s.sessions[sid].current == Some(id) && s.jobs[id].device == s.sessions[sid].device
    requires s.jobs[id].status.RpcSent? && IsTransfer(s.jobs[id].kind) && Accepts(s.jobs[id].kind, body)
    ensures var answered := AnswerCurrent(s, sid, body, env);
            Settle(answered, id, CompleteTransfer(answered.jobs[id], fault))
            == AnswerCurrent(Settle(s, id, CompleteTransfer(s.jobs[id], fault)), sid, body, env)
  {
  }

  /** A repeated TransferComplete changes nothing and queues nothing, for a job in any state. */
  lemma RepeatChangesNothing(job: Job, fault: Option<Text>)
    ensures CompleteTransfer(CompleteTransfer(job, fault).job, fault).job == CompleteTransfer(job, fault).job
    ensures CompleteTransfer(CompleteTransfer(job, fault).job, fault).queued == []
  {
  }

  /**
   Once a TransferComplete has been applied, another with a different outcome is
   ignored, unless the first reported one of the ACS's own fault codes.
   */
  lemma OutcomeIsFinal(job: Job, first: Option<Text>, second: Option<Text>)
    requires IsTransfer(job.kind)
    requires LateReconcilable(job) || job.status.AwaitingTransferComplete? || job.status.RpcSent?
    ensures CompleteTransfer(CompleteTransfer(job, first).job, second).job == CompleteTransfer(job, first).job
       <==> !ForgedCode(first) || first == second
  {
  }

  /** The row has changed. */
  ghost predicate Moves(s: Store, step: Step, id: JobId)
    requires id < |s.jobs|
  {
    var t := Next(s, step).0;
    id < |t.jobs| && t.jobs[id] != s.jobs[id]
  }

  lemma InformSkipsFinished(s: Store, device: DeviceId, events: Events, env: Env, before: seq<Work>, after: seq<Work>, id: JobId)
    requires id < |s.jobs| && s.jobs[id].Terminal()
    ensures id < |OpenAndRecover(s, device, events, env, before, after).jobs|
    ensures OpenAndRecover(s, device, events, env, before, after).jobs[id] == s.jobs[id]
  {
    var begun := s.(jobs := s.jobs + Rows(device, before), sessions := s.sessions + [Session(device, false, None)]);
    WalksLeaveRow(begun, device, |begun.jobs|, env, id);
  }

  lemma DispatchSkipsFinished(s: Store, sid: SessionId, body: Body, env: Env, id: JobId)
    requires sid < |s.sessions| && id < |s.jobs| && s.jobs[id].Terminal()
    ensures id < |Dispatch(s, sid, body, env).0.jobs| && Dispatch(s, sid, body, env).0.jobs[id] == s.jobs[id]
  {
    AnswerRow(s, sid, body, env, id);
    OthersWait(AnswerCurrent(s, sid, body, env), sid, id, env);
  }

  /** Whatever happens next, a finished job moves only when a TransferComplete names it and the ACS had given up on it. */
  lemma FinishedMovesOnlyLate(s: Store, step: Step, id: JobId)
    requires id < |s.jobs| && s.jobs[id].Terminal()
    ensures id < |Next(s, step).0.jobs|
    ensures Moves(s, step, id) ==> step.TransferStep? && step.job == Some(id) && LateReconcilable(s.jobs[id])
    ensures Next(s, step).0.jobs[id].Terminal()
  {
    match step
    case InformStep(key, events, bound, env, before, after) =>
      if key.Some? && InformAdmitted(s, key.value, bound) {
        InformSkipsFinished(Registered(s, key.value),
                            DeviceOf(s, key.value), events, env, before, after, id);
      }
    case PostStep(cookie, body, bound, env) =>
      if !bound.bootstrapOnly && OpenSession(s, cookie) && Admits(s, bound, s.sessions[cookie.value].device) {
        DispatchSkipsFinished(s, cookie.value, body, env, id);
      }
    case TransferStep(_, _, _) =>
    case EnqueueStep(_, _) =>
    case ReapStep(_) =>
  }

  /** A job that is finished and not given up on by the ACS keeps its row for ever. */
  lemma {:induction false} SettledForEver(s: Store, steps: seq<Step>, id: JobId)
    requires id < |s.jobs| && s.jobs[id].Terminal() && !LateReconcilable(s.jobs[id])
    ensures id < |Run(s, steps).jobs| && Run(s, steps).jobs[id] == s.jobs[id]
  {
    if steps != [] {
      SettledForEver(s, steps[..|steps| - 1], id);
      FinishedMovesOnlyLate(Run(s, steps[..|steps| - 1]), steps[|steps| - 1], id);
    }
  }

  lemma SentTransfer(s: Store, sid: SessionId, env: Env, id: JobId)
    requires sid < |s.sessions| && id < |s.jobs| && !LateReconcilable(s.jobs[id])
    ensures id < |SendNext(s, sid, env).0.jobs| && !LateReconcilable(SendNext(s, sid, env).0.jobs[id])
  {
  }

  lemma RespondKeeps(job: Job, body: Body)
    requires job.status.RpcSent? && IsTransfer(job.kind) && !ForgedCode(body.fault)
    ensures !LateReconcilable(Respond(job, body))
  {
  }

  lemma DispatchKeepsTransfer(s: Store, sid: SessionId, body: Body, env: Env, id: JobId)
    requires sid < |s.sessions| && id < |s.jobs| && IsTransfer(s.jobs[id].kind) && !LateReconcilable(s.jobs[id]) && !ForgedCode(body.fault)
    ensures id < |Dispatch(s, sid, body, env).0.jobs| && !LateReconcilable(Dispatch(s, sid, body, env).0.jobs[id])
  {
    AnsweredTransfer(s, sid, body, env, id);
    if s.jobs[id].status.RpcSent? {
      RespondKeeps(s.jobs[id], body);
    }
    SentTransfer(AnswerCurrent(s, sid, body, env), sid, env, id);
  }

  lemma InformKeepsTransfer(s: Store, device: DeviceId, events: Events, env: Env, before: seq<Work>, after: seq<Work>, id: JobId)
    requires id < |s.jobs| && IsTransfer(s.jobs[id].kind) && !LateReconcilable(s.jobs[id])
    ensures id < |OpenAndRecover(s, device, events, env, before, after).jobs|
    ensures !LateReconcilable(OpenAndRecover(s, device, events, env, before, after).jobs[id])
  {
    var begun := s.(jobs := s.jobs + Rows(device, before), sessions := s.sessions + [Session(device, false, None)]);
    WalksLeaveRow(begun, device, |begun.jobs|, env, id);
  }

  /** Only the reaper gives up on a transfer; nothing a CPE sends looks like it, short of the ACS's own fault codes. */
  lemma OnlyReaperGivesUp(s: Store, step: Step, id: JobId)
    requires id < |s.jobs| && IsTransfer(s.jobs[id].kind) && !LateReconcilable(s.jobs[id])
    ensures id < |Next(s, step).0.jobs|
    ensures LateReconcilable(Next(s, step).0.jobs[id]) ==>
              || (step.ReapStep? && id in step.stale)
              || (step.PostStep? && ForgedCode(step.body.fault))
              || (step.TransferStep? && ForgedCode(step.fault))
  {
    match step
    case InformStep(key, events, bound, env, before, after) =>
      if key.Some? && InformAdmitted(s, key.value, bound) {
        InformKeepsTransfer(Registered(s, key.value),
                            DeviceOf(s, key.value), events, env, before, after, id);
      }
    case PostStep(cookie, body, bound, env) =>
      if Serves(s, step) && !ForgedCode(body.fault) {
        DispatchKeepsTransfer(s, cookie.value, body, env, id);
      }
    case _ => QuietKeepsTransfer(s, step, id);
  }

  lemma QuietKeepsTransfer(s: Store, step: Step, id: JobId)
    requires id < |s.jobs| && !LateReconcilable(s.jobs[id]) && (step.TransferStep? || step.EnqueueStep? || step.ReapStep?)
    ensures id < |Next(s, step).0.jobs|
    ensures LateReconcilable(Next(s, step).0.jobs[id]) ==> (step.ReapStep? && id in step.stale) || (step.TransferStep? && ForgedCode(step.fault))
  {
    if step.TransferStep? {
      CompletedKeeps(s.jobs[id], step.fault);
    }
  }

  lemma CompletedKeeps(job: Job, fault: Option<Text>)
    requires !LateReconcilable(job)
    ensures LateReconcilable(CompleteTransfer(job, fault).job) ==> ForgedCode(fault)
  {
  }
}
