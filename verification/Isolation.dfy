/**
 Device isolation: a request authenticated as one device receives and changes only
 that device's jobs, whatever cookie or CommandKey it presents.
 */
module Isolation {
  import opened Options
  import opened Discovery
  import opened Verification
  import opened Jobs
  import opened Gateway

  /** Rows of other devices are untouched, and every row added is this device's. */
  ghost predicate Confined(before: seq<Job>, after: seq<Job>, device: DeviceId) {
    && |before| <= |after|
    && (forall j :: 0 <= j < |before| ==> after[j].device == before[j].device && (after[j] != before[j] ==> before[j].device == device))
    && (forall j :: |before| <= j < |after| ==> after[j].device == device)
  }

  lemma ConfinedTransitive(a: seq<Job>, b: seq<Job>, c: seq<Job>, device: DeviceId)
    requires Confined(a, b, device) && Confined(b, c, device)
    ensures Confined(a, c, device)
  {
  }

  ghost predicate KeepsDevice(job: Job, e: Effect) {
    e.job.device == job.device && forall i :: 0 <= i < |e.queued| ==> e.queued[i].device == job.device
  }

  lemma CompleteKeepsDevice(job: Job, body: Body, env: Env, otherWalk: bool)
    ensures KeepsDevice(job, Complete(job, body, env, otherWalk))
  {
    if Renderable(job) {
      AnsweredLeavesFlight(job, body, env, otherWalk);
    } else if job.kind.SetParameter? {
      WriteSettles(job, body, env);
    }
  }

  lemma SettleConfined(s: Store, id: JobId, e: Effect)
    requires id < |s.jobs| && KeepsDevice(s.jobs[id], e)
    ensures Confined(s.jobs, Settle(s, id, e).jobs, s.jobs[id].device)
  {
  }

  lemma AnswerConfined(s: Store, sid: SessionId, body: Body, env: Env)
    requires sid < |s.sessions|
    ensures Confined(s.jobs, AnswerCurrent(s, sid, body, env).jobs, s.sessions[sid].device)
    ensures |AnswerCurrent(s, sid, body, env).sessions| == |s.sessions|
    ensures AnswerCurrent(s, sid, body, env).sessions[sid].device == s.sessions[sid].device
  {
    var session := s.sessions[sid];
    if session.current.Some? && InFlightOf(s, session.device, session.current.value) {
      var id := session.current.value;
      var other := OtherWalk(s.jobs, id, session.device);
      CompleteKeepsDevice(s.jobs[id], body, env, other);
      SettleConfined(s, id, Complete(s.jobs[id], body, env, other));
    }
  }

  lemma PreparedDevice(job: Job, env: Env)
    ensures Prepare(job, env).job.device == job.device
  {
  }

  lemma SendNextConfined(s: Store, sid: SessionId, env: Env)
    requires sid < |s.sessions|
    ensures Confined(s.jobs, SendNext(s, sid, env).0.jobs, s.sessions[sid].device)
    ensures SendNext(s, sid, env).1.Send? ==>
              SendNext(s, sid, env).1.job < |SendNext(s, sid, env).0.jobs| &&
              SendNext(s, sid, env).0.jobs[SendNext(s, sid, env).1.job].device == s.sessions[sid].device
  {
    var device := s.sessions[sid].device;
    ConfigRows(device, env.configure);
    var ready := if NextQueued(s.jobs, device).Some? then s else s.(jobs := s.jobs + ConfigJobs(device, env.configure));
    var next := NextQueued(ready.jobs, device);
    if next.Some? {
      PreparedDevice(Leased(ready.jobs[next.value]), env);
    }
  }

  lemma DispatchConfined(s: Store, sid: SessionId, body: Body, env: Env)
    requires sid < |s.sessions|
    ensures var (t, reply) := Dispatch(s, sid, body, env);
            && Confined(s.jobs, t.jobs, s.sessions[sid].device)
            && (reply.Send? ==> reply.job < |t.jobs| && t.jobs[reply.job].device == s.sessions[sid].device)
  {
    var answered := AnswerCurrent(s, sid, body, env);
    AnswerConfined(s, sid, body, env);
    SendNextConfined(answered, sid, env);
    ConfinedTransitive(s.jobs, answered.jobs, SendNext(answered, sid, env).0.jobs, s.sessions[sid].device);
  }

  lemma RecoverWalksConfined(s: Store, device: DeviceId, n: nat, env: Env)
    requires n <= |s.jobs|
    ensures Confined(s.jobs, RecoverWalks(s, device, n, env).jobs, device)
  {
    if n > 0 {
      var prev := RecoverWalks(s, device, n - 1, env);
      RecoverWalksConfined(s, device, n - 1, env);
      RecoverWalkConfined(prev, device, n - 1, env);
      ConfinedTransitive(s.jobs, prev.jobs, RecoverWalk(prev, device, n - 1, env).jobs, device);
    }
  }

  lemma RecoverWalkConfined(s: Store, device: DeviceId, i: JobId, env: Env)
    requires i < |s.jobs|
    ensures Confined(s.jobs, RecoverWalk(s, device, i, env).jobs, device)
  {
    var job := s.jobs[i];
    if InFlightWalk(job, device) && !LeftToReaper(job.payload) {
      var other := OtherWalk(s.jobs, i, device);
      ProceedSettles(job, SkipCursor(job.payload.walk), env, other);
      SettleConfined(s, i, SkipObject(job, job.payload.walk, env, other));
    }
  }

  lemma InformConfined(s: Store, device: DeviceId, events: Events, env: Env, before: seq<Work>, after: seq<Work>)
    ensures Confined(s.jobs, OpenAndRecover(s, device, events, env, before, after).jobs, device)
  {
    var begun := s.(jobs := s.jobs + Rows(device, before), sessions := s.sessions + [Session(device, false, None)]);
    var walked := RecoverWalks(begun, device, |begun.jobs|, env);
    var t := OpenAndRecover(s, device, events, env, before, after);
    RecoverWalksConfined(begun, device, |begun.jobs|, env);
    ConfinedTransitive(s.jobs, begun.jobs, walked.jobs, device);
    RecoverRowsConfined(walked.jobs, device, events, env, after);
    ConfinedTransitive(s.jobs, walked.jobs, t.jobs, device);
  }

  lemma RecoverRowsConfined(jobs: seq<Job>, device: DeviceId, events: Events, env: Env, after: seq<Work>)
    ensures Confined(jobs, ReleaseDiagnostics(RecoverDropped(jobs, device, events, env), device) + Rows(device, after), device)
  {
    forall j | 0 <= j < |jobs| ensures RowConfined(jobs[j], ReleaseRow(RecoverRow(jobs[j], j, device, events, env), device), device) {
      RecoverRowConfined(jobs[j], j, device, events, env);
    }
  }

  ghost predicate RowConfined(before: Job, after: Job, device: DeviceId) {
    after.device == before.device && (after != before ==> before.device == device)
  }

  lemma RecoverRowConfined(job: Job, id: JobId, device: DeviceId, events: Events, env: Env)
    ensures RowConfined(job, ReleaseRow(RecoverRow(job, id, device, events, env), device), device)
  {
  }

  ghost predicate KeysDistinct(s: Store) {
    forall i, j :: 0 <= i < j < |s.devices| ==> s.devices[i] != s.devices[j]
  }

  lemma {:induction false} KeysStayDistinct(steps: seq<Step>)
    ensures KeysDistinct(Run(EMPTY, steps))
  {
    if steps != [] {
      var s := Run(EMPTY, steps[..|steps| - 1]);
      KeysStayDistinct(steps[..|steps| - 1]);
      DevicesGrow(s, steps[|steps| - 1]);
    }
  }

  /** A step leaves the device list alone, or appends a key that was not in it. */
  lemma DevicesGrow(s: Store, step: Step)
    ensures Next(s, step).0.devices == s.devices ||
            (step.InformStep? && step.key.Some? && step.key.value !in s.devices && Next(s, step).0.devices == s.devices + [step.key.value])
  {
    match step
    case InformStep(key, events, bound, env, before, after) =>
      if key.Some? && InformAdmitted(s, key.value, bound) {
        var device := DeviceOf(s, key.value);
        var registered := Registered(s, key.value);
        WalksTouchJobsOnly(registered.(jobs := registered.jobs + Rows(device, before), sessions := s.sessions + [Session(device, false, None)]),
                           device, |registered.jobs + Rows(device, before)|, env);
      }
    case _ =>
  }

  /**
   The request is authenticated as `device`: by its own credential, or by a certificate
   carrying its key; for a key not registered yet, the row an Inform will give it.
   */
  ghost predicate AuthenticatedAs(s: Store, bound: Identity, device: DeviceId) {
    || bound.credentialDevice == Some(device)
    || (bound.certificateKey.Some? && DeviceOf(s, bound.certificateKey.value) == device)
  }

  function Presented(step: Step): Identity {
    match step
    case InformStep(_, _, bound, _, _, _) => bound
    case PostStep(_, _, bound, _) => bound
    case TransferStep(_, _, bound) => bound
    case _ => Identity(None, None, false)
  }

  lemma AdmittedIsBound(s: Store, bound: Identity, claimed: DeviceId, device: DeviceId)
    requires KeysDistinct(s) && AuthenticatedAs(s, bound, device) && Admits(s, bound, claimed)
    ensures claimed == device
  {
  }

  /**
   In every run, a request authenticated as a device, by a per-device credential or
   a client certificate, changes only rows of that device, adds rows only to it, and
   is only ever sent the RPC of one of its jobs; its first Inform included.
   */
  lemma RequestStaysInsideItsDevice(steps: seq<Step>, step: Step, device: DeviceId)
    requires step.InformStep? || step.PostStep? || step.TransferStep?
    requires AuthenticatedAs(Run(EMPTY, steps), Presented(step), device)
    ensures Confined(Run(EMPTY, steps).jobs, Run(EMPTY, steps + [step]).jobs, device)
    ensures Next(Run(EMPTY, steps), step).1.Send? ==>
              Run(EMPTY, steps + [step]).jobs[Next(Run(EMPTY, steps), step).1.job].device == device
  {
    var s := Run(EMPTY, steps);
    assert (steps + [step])[..|steps|] == steps;
    KeysStayDistinct(steps);
    match step
    case InformStep(key, events, bound, env, before, after) =>
      if key.Some? && InformAdmitted(s, key.value, bound) {
        InformIsBound(s, key.value, bound, device);
        InformConfined(Registered(s, key.value), device, events, env, before, after);
      }
    case PostStep(cookie, body, bound, env) =>
      if !bound.bootstrapOnly && OpenSession(s, cookie) && Admits(s, bound, s.sessions[cookie.value].device) {
        AdmittedIsBound(s, bound, s.sessions[cookie.value].device, device);
        DispatchConfined(s, cookie.value, body, env);
      }
    case TransferStep(job, fault, bound) =>
      if !bound.bootstrapOnly && job.Some? && job.value < |s.jobs| && Admits(s, bound, s.jobs[job.value].device) {
        AdmittedIsBound(s, bound, s.jobs[job.value].device, device);
        TransferConfined(s, job.value, fault);
      }
    case _ =>
  }

  lemma TransferConfined(s: Store, id: JobId, fault: Option<Text>)
    requires id < |s.jobs|
    ensures Confined(s.jobs, Settle(s, id, CompleteTransfer(s.jobs[id], fault)).jobs, s.jobs[id].device)
  {
    SettleConfined(s, id, CompleteTransfer(s.jobs[id], fault));
  }

  lemma InformIsBound(s: Store, key: Text, bound: Identity, device: DeviceId)
    requires AuthenticatedAs(s, bound, device) && InformAdmitted(s, key, bound)
    ensures DeviceOf(s, key) == device
  {
  }
}
