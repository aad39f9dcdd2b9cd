/**
 The CWMP gateway as a state machine over its store: Inform, every later POST of a
 session, TransferComplete, job creation from outside and the lease reaper. Job and
 session ids are the positions of their rows, so a smaller id is an older row.
 */
module Gateway {
  import opened Options
  import opened Verification
  import opened Jobs

  type SessionId = nat

  datatype Session = Session(device: DeviceId, closed: bool, current: Option<JobId>)

  /** `devices` holds the natural key of each device row. */
  datatype Store = Store(devices: seq<Text>, jobs: seq<Job>, sessions: seq<Session>)

  const EMPTY := Store([], [], [])

  /**
   What the request's credential asserts: the device a per-device credential is
   bound to, the CommonName of a client certificate, or a shared credential that
   may only bootstrap.
   */
  datatype Identity = Identity(credentialDevice: Option<DeviceId>, certificateKey: Option<Text>, bootstrapOnly: bool)

  datatype Reply =
    | NoContent | Forbidden | BadRequest | TransferAck
    | InformResponse(session: SessionId)
    | Send(session: SessionId, job: JobId, rpc: Rpc)

  /** What an Inform's events prove: the Reboot jobs it confirms, and "8 DIAGNOSTICS COMPLETE". */
  datatype Events = Events(rebooted: set<JobId>, diagnosticsComplete: bool)

  /** A job some other part of the ACS wants queued. */
  datatype Work = Work(kind: JobType, payload: Payload, maxAttempts: nat, uspOnly: bool)

  function Rows(device: DeviceId, work: seq<Work>): (rows: seq<Job>)
    ensures |rows| == |work|
  {
    seq(|work|, i requires 0 <= i < |work| =>
      NewJob(device, work[i].kind, work[i].payload, work[i].maxAttempts).(uspOnly := work[i].uspOnly))
  }

  predicate Leasable(job: Job, device: DeviceId) {
    job.device == device && job.status.Queued? && SessionDispatchable(job.kind) && !job.uspOnly
  }

  /** The oldest job Lease would hand out. */
  function NextQueued(jobs: seq<Job>, device: DeviceId): (r: Option<JobId>)
    ensures r.Some? ==> r.value < |jobs| && Leasable(jobs[r.value], device)
  {
    if jobs == [] then None
    else
      var n := |jobs| - 1;
      var older := NextQueued(jobs[..n], device);
      if older.Some? then older else if Leasable(jobs[n], device) then Some(n) else None
  }

  lemma NextQueuedIsOldest(jobs: seq<Job>, device: DeviceId, k: nat)
    requires k < |jobs| && Leasable(jobs[k], device)
    ensures NextQueued(jobs, device).Some? && NextQueued(jobs, device).value <= k
  {
  }

  function Leased(job: Job): Job {
    job.(status := RpcSent, attempts := job.attempts + 1)
  }

  /** The current job of the device's latest session. */
  function InFlight(sessions: seq<Session>, device: DeviceId): Option<JobId> {
    if sessions == [] then None
    else
      var last := sessions[|sessions| - 1];
      if last.device == device then last.current else InFlight(sessions[..|sessions| - 1], device)
  }

  ghost predicate IsLatest(sessions: seq<Session>, sid: SessionId) {
    sid < |sessions| && forall k :: sid < k < |sessions| ==> sessions[k].device != sessions[sid].device
  }

  function Settle(s: Store, id: JobId, e: Effect): Store
    requires id < |s.jobs|
  {
    s.(jobs := s.jobs[id := e.job] + e.queued)
  }

  predicate OtherWalk(jobs: seq<Job>, id: JobId, device: DeviceId) {
    exists i :: 0 <= i < |jobs| && i != id && ActiveWalk(jobs[i], device)
  }

  predicate ActiveWalk(job: Job, device: DeviceId) {
    job.device == device && job.kind.ParameterDiscovery? && (job.status.Queued? || job.status.RpcSent?)
  }

  /** The guard of completeJob: the job is this device's and still in flight. */
  predicate InFlightOf(s: Store, device: DeviceId, id: JobId) {
    id < |s.jobs| && s.jobs[id].device == device && s.jobs[id].status.RpcSent?
  }

  function CompleteJob(s: Store, device: DeviceId, id: JobId, body: Body, env: Env): (r: Store)
    ensures |s.jobs| <= |r.jobs| && r.sessions == s.sessions && r.devices == s.devices
  {
    if InFlightOf(s, device, id) then Settle(s, id, Complete(s.jobs[id], body, env, OtherWalk(s.jobs, id, device))) else s
  }

  function SetCurrent(s: Store, sid: SessionId, current: Option<JobId>): Store
    requires sid < |s.sessions|
  {
    s.(sessions := s.sessions[sid := s.sessions[sid].(current := current)])
  }

  /** The first half of dispatch: the POST answers the session's current job, if it has one. */
  function AnswerCurrent(s: Store, sid: SessionId, body: Body, env: Env): (r: Store)
    requires sid < |s.sessions|
    ensures |s.jobs| <= |r.jobs| && |r.sessions| == |s.sessions| && r.devices == s.devices
  {
    var session := s.sessions[sid];
    if session.current.None? then s
    else SetCurrent(CompleteJob(s, session.device, session.current.value, body, env), sid, None)
  }

  /** The POST answers this job. */
  predicate AnswersJob(s: Store, sid: SessionId, id: JobId)
    requires sid < |s.sessions|
  {
    s.sessions[sid].current == Some(id) && InFlightOf(s, s.sessions[sid].device, id)
  }

  /** Answering changes the row in flight, and no other row that is there. */
  lemma AnswerRow(s: Store, sid: SessionId, body: Body, env: Env, id: JobId)
    requires sid < |s.sessions| && id < |s.jobs|
    ensures AnswerCurrent(s, sid, body, env).jobs[id] ==
            if AnswersJob(s, sid, id) then Complete(s.jobs[id], body, env, OtherWalk(s.jobs, id, s.jobs[id].device)).job else s.jobs[id]
  {
  }

  function ConfigJobs(device: DeviceId, writes: seq<seq<ParameterWrite>>): seq<Job> {
    if writes == [] then []
    else
      var before := ConfigJobs(device, writes[..|writes| - 1]);
      var params := writes[|writes| - 1];
      if params == [] then before
      else before + [NewJob(device, SetParameter, Write(params, true, false, {}, None), DEFAULT_MAX_ATTEMPTS)]
  }

  /** What onboarding queues: verified writes of the device, not sent yet. */
  lemma ConfigRows(device: DeviceId, writes: seq<seq<ParameterWrite>>)
    ensures forall i :: 0 <= i < |ConfigJobs(device, writes)| ==>
                          var row := ConfigJobs(device, writes)[i];
                          row.device == device && row.status.Queued? && row.kind.SetParameter? && row.payload.Write? && !row.payload.pending
  {
  }

  /** The second half: lease the oldest job (after letting onboarding queue its configuration) or close. */
  function SendNext(s: Store, sid: SessionId, env: Env): (Store, Reply)
    requires sid < |s.sessions|
  {
    var device := s.sessions[sid].device;
    var ready := if NextQueued(s.jobs, device).Some? then s else s.(jobs := s.jobs + ConfigJobs(device, env.configure));
    match NextQueued(ready.jobs, device)
    case None => (ready.(sessions := ready.sessions[sid := ready.sessions[sid].(closed := true)]), NoContent)
    case Some(id) =>
      match Prepare(Leased(ready.jobs[id]), env)
      case Ready(job, rpc) => (SetCurrent(ready.(jobs := ready.jobs[id := job]), sid, Some(id)), Send(sid, id, rpc))
      case Rejected(job) => (SetCurrent(ready.(jobs := ready.jobs[id := job]), sid, Some(id)), NoContent)
  }

  function Dispatch(s: Store, sid: SessionId, body: Body, env: Env): (Store, Reply)
    requires sid < |s.sessions|
  {
    SendNext(AnswerCurrent(s, sid, body, env), sid, env)
  }

  /** One session may have changed, and not its device. */
  ghost predicate OnlySession(s: Store, t: Store, sid: SessionId)
    requires sid < |s.sessions|
  {
    && t.devices == s.devices && sid < |t.sessions|
    && t.sessions == s.sessions[sid := t.sessions[sid]] && t.sessions[sid].device == s.sessions[sid].device
  }

  lemma AnswerTouchesSession(s: Store, sid: SessionId, body: Body, env: Env)
    requires sid < |s.sessions|
    ensures OnlySession(s, AnswerCurrent(s, sid, body, env), sid)
  {
  }

  lemma SendTouchesSession(s: Store, sid: SessionId, env: Env)
    requires sid < |s.sessions|
    ensures OnlySession(s, SendNext(s, sid, env).0, sid)
  {
  }

  /** Dispatch touches the session it serves and no other. */
  lemma DispatchSession(s: Store, sid: SessionId, body: Body, env: Env)
    requires sid < |s.sessions|
    ensures OnlySession(s, Dispatch(s, sid, body, env).0, sid)
  {
    AnswerTouchesSession(s, sid, body, env);
    SendTouchesSession(AnswerCurrent(s, sid, body, env), sid, env);
  }

  /** The identity binding of dispatch and TransferComplete. */
  predicate Admits(s: Store, bound: Identity, device: DeviceId) {
    && (bound.credentialDevice.Some? ==> bound.credentialDevice.value == device)
    && (bound.certificateKey.Some? ==> device < |s.devices| && s.devices[device] == bound.certificateKey.value)
  }

  predicate OpenSession(s: Store, cookie: Option<SessionId>) {
    cookie.Some? && cookie.value < |s.sessions| && !s.sessions[cookie.value].closed
  }

  /** Every POST that is neither an Inform nor a TransferComplete. */
  function Post(s: Store, cookie: Option<SessionId>, body: Body, bound: Identity, env: Env): (Store, Reply) {
    if bound.bootstrapOnly then (s, Forbidden)
    else if !OpenSession(s, cookie) then (s, NoContent)
    else if !Admits(s, bound, s.sessions[cookie.value].device) then (s, Forbidden)
    else Dispatch(s, cookie.value, body, env)
  }

  /** `key` is the job the CommandKey names, if it names one: command keys are unique. */
  function TransferComplete(s: Store, key: Option<JobId>, fault: Option<Text>, bound: Identity): (Store, Reply) {
    if bound.bootstrapOnly then (s, Forbidden)
    else if key.None? || key.value >= |s.jobs| then (s, TransferAck)
    else if !Admits(s, bound, s.jobs[key.value].device) then (s, Forbidden)
    else (Settle(s, key.value, CompleteTransfer(s.jobs[key.value], fault)), TransferAck)
  }

  function Lookup(devices: seq<Text>, key: Text): (r: Option<DeviceId>)
    ensures r.Some? ==> r.value < |devices| && devices[r.value] == key
    ensures r.None? ==> key !in devices
  {
    if devices == [] then None
    else if devices[|devices| - 1] == key then Some(|devices| - 1)
    else Lookup(devices[..|devices| - 1], key)
  }

  /** The identity checks of handleInform, before anything is stored. */
  predicate InformAdmitted(s: Store, key: Text, bound: Identity) {
    && (bound.bootstrapOnly ==> Lookup(s.devices, key).None?)
    && (bound.credentialDevice.Some? ==> Lookup(s.devices, key) == bound.credentialDevice)
    && (bound.certificateKey.Some? ==> bound.certificateKey.value == key)
  }

  predicate InFlightWalk(job: Job, device: DeviceId) {
    job.device == device && job.kind.ParameterDiscovery? && job.status.RpcSent?
  }

  /** A walk recoverAbandonedDiscovery leaves to the reaper: still at its root, or not incremental. */
  predicate LeftToReaper(payload: Payload) {
    !payload.Discover? || !payload.walk.incremental || payload.walk.cursor.None?
  }

  function RecoverWalk(s: Store, device: DeviceId, id: JobId, env: Env): Store
    requires id < |s.jobs|
  {
    if InFlightWalk(s.jobs[id], device) && !LeftToReaper(s.jobs[id].payload)
    then Settle(s, id, SkipObject(s.jobs[id], s.jobs[id].payload.walk, env, OtherWalk(s.jobs, id, device)))
    else s
  }

  /** recoverAbandonedDiscovery over the first n rows; the rows it queues come after them. */
  function RecoverWalks(s: Store, device: DeviceId, n: nat, env: Env): (r: Store)
    requires n <= |s.jobs|
    ensures |r.jobs| >= |s.jobs|
  {
    if n == 0 then s else RecoverWalk(RecoverWalks(s, device, n - 1, env), device, n - 1, env)
  }

  lemma RecoverWalksStep(s: Store, device: DeviceId, n: nat, env: Env)
    requires 0 < n <= |s.jobs|
    ensures RecoverWalks(s, device, n, env) == RecoverWalk(RecoverWalks(s, device, n - 1, env), device, n - 1, env)
  {
  }

  /** Recovering walks touches jobs only. */
  lemma WalksTouchJobsOnly(s: Store, device: DeviceId, n: nat, env: Env)
    requires n <= |s.jobs|
    ensures RecoverWalks(s, device, n, env).sessions == s.sessions && RecoverWalks(s, device, n, env).devices == s.devices
  {
  }

  /** A row that is no walk in flight is left alone. */
  lemma WalksLeaveRow(s: Store, device: DeviceId, n: nat, env: Env, id: JobId)
    requires n <= |s.jobs| && id < |s.jobs| && !InFlightWalk(s.jobs[id], device)
    ensures RecoverWalks(s, device, n, env).jobs[id] == s.jobs[id]
  {
  }

  predicate WasDropped(job: Job, device: DeviceId) {
    job.device == device && job.status.RpcSent? && SessionDispatchable(job.kind) && !job.kind.ParameterDiscovery?
  }

  function RecoverRow(job: Job, id: JobId, device: DeviceId, events: Events, env: Env): Job {
    if WasDropped(job, device) then ApplyDropped(job, ClassifyDropped(job, id in events.rebooted, events.diagnosticsComplete), env)
    else job
  }

  function RecoverDropped(jobs: seq<Job>, device: DeviceId, events: Events, env: Env): (r: seq<Job>)
    ensures |r| == |jobs|
  {
    seq(|jobs|, i requires 0 <= i < |jobs| => RecoverRow(jobs[i], i, device, events, env))
  }

  function ReleaseRow(job: Job, device: DeviceId): Job {
    if job.device == device && job.status.AwaitingDiagnostics? then job.(status := Queued) else job
  }

  function ReleaseDiagnostics(jobs: seq<Job>, device: DeviceId): (r: seq<Job>)
    ensures |r| == |jobs|
  {
    seq(|jobs|, i requires 0 <= i < |jobs| => ReleaseRow(jobs[i], device))
  }

  /** What an admitted Inform of a known device does: queue, open a session, recover, release, queue. */
  function OpenAndRecover(s: Store, device: DeviceId, events: Events, env: Env, before: seq<Work>, after: seq<Work>): Store {
    var begun := s.(jobs := s.jobs + Rows(device, before), sessions := s.sessions + [Session(device, false, None)]);
    var walked := RecoverWalks(begun, device, |begun.jobs|, env);
    var released := ReleaseDiagnostics(RecoverDropped(walked.jobs, device, events, env), device);
    walked.(jobs := released + Rows(device, after))
  }

  /** `key` is missing when the Inform's DeviceId lacks an OUI or serial number. */
  function Inform(s: Store, key: Option<Text>, events: Events, bound: Identity, env: Env, before: seq<Work>, after: seq<Work>)
    : (Store, Reply)
  {
    if key.None? then (s, BadRequest)
    else if !InformAdmitted(s, key.value, bound) then (s, Forbidden)
    else (OpenAndRecover(Registered(s, key.value), DeviceOf(s, key.value), events, env, before, after), InformResponse(|s.sessions|))
  }

  /** UpsertFromInform: an unknown key becomes a new device row. */
  function Registered(s: Store, key: Text): Store {
    if Lookup(s.devices, key).Some? then s else s.(devices := s.devices + [key])
  }

  function DeviceOf(s: Store, key: Text): DeviceId {
    if Lookup(s.devices, key).Some? then Lookup(s.devices, key).value else |s.devices|
  }

  function Reap(s: Store, stale: set<JobId>): Store {
    s.(jobs := seq(|s.jobs|, i requires 0 <= i < |s.jobs| => if i in stale then Reaped(s.jobs[i]) else s.jobs[i]))
  }

  datatype Step =
    | InformStep(key: Option<Text>, events: Events, informer: Identity, informEnv: Env, before: seq<Work>, after: seq<Work>)
    | PostStep(cookie: Option<SessionId>, body: Body, poster: Identity, postEnv: Env)
    | TransferStep(job: Option<JobId>, fault: Option<Text>, sender: Identity)
    | EnqueueStep(device: DeviceId, work: Work)
    | ReapStep(stale: set<JobId>)

  function Next(s: Store, step: Step): (Store, Reply) {
    match step
    case InformStep(key, events, bound, env, before, after) => Inform(s, key, events, bound, env, before, after)
    case PostStep(cookie, body, bound, env) => Post(s, cookie, body, bound, env)
    case TransferStep(job, fault, bound) => TransferComplete(s, job, fault, bound)
    case EnqueueStep(device, work) => (if device < |s.devices| then s.(jobs := s.jobs + Rows(device, [work])) else s, NoContent)
    case ReapStep(stale) => (Reap(s, stale), NoContent)
  }

  function Run(s: Store, steps: seq<Step>): Store {
    if steps == [] then s else Next(Run(s, steps[..|steps| - 1]), steps[|steps| - 1]).0
  }

  /** The POST reaches dispatch. */
  predicate Serves(s: Store, step: Step) {
    && step.PostStep? && !step.poster.bootstrapOnly && OpenSession(s, step.cookie)
    && Admits(s, step.poster, s.sessions[step.cookie.value].device)
  }

  const NO_ONE := Identity(None, None, false)
  const SILENT := Body(None, false, None, None, false, false, false, false, false, false, false, false, false)

  /** The first Inform of the first device opens session 0 and queues the job it brings. */
  lemma FirstInform(key: Text, events: Events, env: Env, work: Work)
    ensures Next(EMPTY, InformStep(Some(key), events, NO_ONE, env, [work], [])).0
         == Store([key], [NewJob(0, work.kind, work.payload, work.maxAttempts).(uspOnly := work.uspOnly)], [Session(0, false, None)])
  {
    var row := NewJob(0, work.kind, work.payload, work.maxAttempts).(uspOnly := work.uspOnly);
    assert Rows(0, [work]) == [row];
    assert [] + Rows(0, [work]) == [row];
    var begun := Store([key], [row], [Session(0, false, None)]);
    assert RecoverWalks(begun, 0, 0, env) == begun;
    assert RecoverWalks(begun, 0, 1, env) == begun;
    assert RecoverDropped([row], 0, events, env) == [row];
    assert ReleaseDiagnostics([row], 0) == [row];
    assert [row] + Rows(0, []) == [row];
    assert EMPTY.devices + [key] == [key];
    var registered := Store([key], [], []);
    assert registered.sessions + [Session(0, false, None)] == [Session(0, false, None)];
    assert OpenAndRecover(registered, 0, events, env, [work], []) == begun;
    assert Lookup(EMPTY.devices, key).None?;
  }
}
