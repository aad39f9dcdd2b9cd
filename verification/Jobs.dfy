/**
 The durable job queue of the ACS: job rows, what a CPE's answer does to the job
 in flight, how a leased job becomes an RPC, and how jobs left in flight by a
 dropped session or an expired lease are recovered. Every rule here is about one
 job row; module Gateway applies them to the store.
 */
module Jobs {
  import opened Options
  import opened Paths
  import opened Discovery
  import opened Verification

  type DeviceId = nat
  type JobId = nat

  datatype JobType =
    | SetParameter | GetParameter | ConnectionRequest | FirmwareDownload
    | DiagnosticsPing | DiagnosticsTraceroute | DiagnosticsDownload | DiagnosticsUpload
    | AddObject | DeleteObject | Reboot | FactoryReset | ScheduleInform
    | SetParameterAttributes | GetParameterAttributes | Upload | ParameterDiscovery

  datatype Status =
    | Queued | RpcSent | InProgress | AwaitingTransferComplete | AwaitingDiagnostics
    | Success | Failed | TimedOut

  /** Why a job failed: the ACS's own verdicts, or the code the CPE reported. */
  datatype Fault =
    | LeaseExpiredUnsafe | LeaseExpired | SessionDropped | TransferTimeout | DiagnosticsTimeout
    | FirmwareChanged | SecretHandleUnavailable | Unrenderable | UnexpectedResponse
    | EvidenceFailed | ReadbackMismatch | PartialRead | DiscoveryFailed | DiagnosticFailed
    | Reported(code: Text)

  /** The decoded JSON payload; Malformed is a payload that does not decode for its type. */
  datatype Payload =
    | Malformed
    | Write(params: seq<ParameterWrite>, verify: bool, pending: bool, nonReadable: set<Path>, bound: Option<Text>)
    | Read(paths: seq<Path>, evidence: Option<Text>)
    | Diagnostic(statePath: Path)
    | Discover(walk: Walk)
    | Other

  datatype Job = Job(device: DeviceId, kind: JobType, status: Status, payload: Payload, attempts: nat, maxAttempts: nat,
                     uspOnly: bool, fault: Option<Fault>, deadline: Option<int>)
  {
    predicate Terminal() {
      status.Success? || status.Failed? || status.TimedOut?
    }

    /** A diagnostic whose trigger was acknowledged: the next dispatch polls. */
    predicate Triggered() {
      deadline.Some?
    }
  }

  const DEFAULT_MAX_ATTEMPTS: nat := 3

  predicate SessionDispatchable(kind: JobType) {
    !kind.ConnectionRequest?
  }

  predicate IsDiagnostic(kind: JobType) {
    kind.DiagnosticsPing? || kind.DiagnosticsTraceroute? || kind.DiagnosticsDownload? || kind.DiagnosticsUpload?
  }

  predicate IsTransfer(kind: JobType) {
    kind.FirmwareDownload? || kind.Upload?
  }

  predicate NonRepeatable(kind: JobType) {
    kind.AddObject? || kind.DeleteObject? || kind.Reboot? || kind.FactoryReset? || IsTransfer(kind)
  }

  /** The body of one CPE POST: which response elements it carries, and a fault if any. */
  datatype Body = Body(fault: Option<Text>, setValues: bool, getValues: Option<seq<Reading>>, names: Option<seq<NameEntry>>,
                       download: bool, upload: bool, addObject: bool, deleteObject: bool, reboot: bool, factoryReset: bool,
                       scheduleInform: bool, setAttributes: bool, getAttributes: bool)

  datatype NameEntry = NameEntry(name: Path, writable: bool)

  datatype SaveOutcome = Saved | StoreError | FirmwareMoved

  /**
   What the handler learns from outside the job store while it serves one request:
   the clock, the device's cached firmware and write-only parameters, the sealed
   secrets it can open, the outcome of persisting discovery or evidence, and the
   reads and configuration writes other subsystems ask it to queue.
   */
  datatype Env = Env(now: int, window: int, firmware: Text, writeOnly: set<Path>, vault: map<Text, Text>,
                     snapshot: SaveOutcome, mergeSaved: bool, evidenceSaved: bool,
                     wifiPaths: seq<Path>, gatewayPaths: seq<Path>, configure: seq<seq<ParameterWrite>>)

  const ROOT_DEVICE2 := Path("Device.")
  const ROOT_IGD1 := Path("InternetGatewayDevice.")

  function NewJob(device: DeviceId, kind: JobType, payload: Payload, maxAttempts: nat): Job {
    Job(device, kind, Queued, payload, 0, maxAttempts, false, None, None)
  }

  function ReadJob(device: DeviceId, paths: seq<Path>): Job {
    NewJob(device, GetParameter, Read(paths, None), DEFAULT_MAX_ATTEMPTS)
  }

  function FreshWalk(root: Path, fallback: Option<Path>, isFallback: bool, incremental: bool): Walk {
    Walk(root, fallback, isFallback, incremental, false, None, [], {}, map[], [], {})
  }

  function WalkJob(device: DeviceId, w: Walk): Job {
    NewJob(device, ParameterDiscovery, Discover(w), MAX_OBJECTS)
  }

  function MarkSuccess(job: Job): Job {
    job.(status := Success)
  }

  function MarkFailed(job: Job, fault: Fault): Job {
    job.(status := Failed, fault := Some(fault))
  }

  /** What handling one job did: its new row, and the jobs it queued. */
  datatype Effect = Effect(job: Job, queued: seq<Job>)

  /** The acknowledgement each single-answer RPC waits for. */
  predicate Acknowledged(kind: JobType, body: Body) {
    match kind
    case FirmwareDownload => body.download
    case Upload => body.upload
    case AddObject => body.addObject
    case DeleteObject => body.deleteObject
    case Reboot => body.reboot
    case FactoryReset => body.factoryReset
    case ScheduleInform => body.scheduleInform
    case SetParameterAttributes => body.setAttributes
    case GetParameterAttributes => body.getAttributes
    case _ => false
  }

  /** completeJob for the job in flight. `otherWalk` says whether the device has another active discovery. */
  function Complete(job: Job, body: Body, env: Env, otherWalk: bool): Effect {
    if job.kind.ParameterDiscovery? then CompleteDiscovery(job, body, env, otherWalk)
    else if body.fault.Some? then Effect(MarkFailed(job, Reported(body.fault.value)), [])
    else if job.kind.SetParameter? then CompleteWrite(job, body, env)
    else if job.kind.GetParameter? then Effect(CompleteRead(job, body), [])
    else if IsDiagnostic(job.kind) then Effect(CompleteDiagnostic(job, body, env), [])
    else if job.kind.ConnectionRequest? then Effect(job, [])
    else Effect(CompleteSimple(job, body), [])
  }

  /** A transfer is only accepted by its response; its outcome arrives with TransferComplete. */
  function CompleteSimple(job: Job, body: Body): Job {
    if !Acknowledged(job.kind, body) then MarkFailed(job, UnexpectedResponse)
    else if IsTransfer(job.kind) then job.(status := AwaitingTransferComplete)
    else MarkSuccess(job)
  }

  /** A write is verified when its payload asks for it and something in it can be read back. */
  predicate WantsReadback(payload: Payload) {
    payload.Write? && payload.verify && VerificationPaths(payload.params, payload.nonReadable) != []
  }

  function CompleteWrite(job: Job, body: Body, env: Env): Effect {
    if !body.setValues then
      if job.payload.Write? && job.payload.pending && body.getValues.Some? then
        if !env.evidenceSaved then Effect(MarkFailed(job, EvidenceFailed), [])
        else if ReadbackConfirms(job.payload, body) then Effect(MarkSuccess(job), [])
        else Effect(MarkFailed(job, ReadbackMismatch), [])
      else Effect(MarkFailed(job, UnexpectedResponse), [])
    else if WantsReadback(job.payload) then
      Effect(job.(payload := job.payload.(pending := true), status := Queued), [])
    else
      Effect(MarkSuccess(job),
             if job.payload.Write? && job.payload.params != [] then [ReadJob(job.device, WrittenPaths(job.payload.params))] else [])
  }

  predicate ReadbackConfirms(payload: Payload, body: Body)
    requires payload.Write? && body.getValues.Some?
  {
    Confirms(payload.params, payload.nonReadable, Dictionary(body.getValues.value))
  }

  function WrittenPaths(params: seq<ParameterWrite>): seq<Path> {
    seq(|params|, i requires 0 <= i < |params| => params[i].name)
  }

  function CompleteRead(job: Job, body: Body): Job {
    if body.getValues.None? then MarkFailed(job, UnexpectedResponse)
    else if !job.payload.Read? || AnyMissing(job.payload.paths, Dictionary(body.getValues.value)) then MarkFailed(job, PartialRead)
    else MarkSuccess(job)
  }

  datatype DiagnosticsClass = StillPending | Completed | Broken

  function ClassifyDiagnosticsState(state: Text): DiagnosticsClass {
    if state.chars in ["", "Requested", "None"] then StillPending
    else if state.chars in ["Complete", "Completed"] then Completed
    else Broken
  }

  /** The first reported DiagnosticsState of the object, or the empty state. */
  function DiagnosticsState(list: seq<Reading>, statePath: Path): Text {
    if list == [] then Text("")
    else if list[0].name == statePath then list[0].value
    else DiagnosticsState(list[1..], statePath)
  }

  function PolledState(job: Job, body: Body): Text
    requires body.getValues.Some?
  {
    if job.payload.Diagnostic? then DiagnosticsState(body.getValues.value, job.payload.statePath) else Text("")
  }

  function CompleteDiagnostic(job: Job, body: Body, env: Env): Job {
    if !job.Triggered() then
      if body.setValues then AwaitDiagnostic(job, env) else MarkFailed(job, UnexpectedResponse)
    else if body.getValues.None? then MarkFailed(job, UnexpectedResponse)
    else match ClassifyDiagnosticsState(PolledState(job, body))
         case StillPending => AwaitDiagnostic(job, env)
         case Completed => MarkSuccess(job)
         case Broken => MarkFailed(job, DiagnosticFailed)
  }

  predicate DiagnosticsExpired(job: Job, now: int) {
    job.deadline.Some? && now > job.deadline.value
  }

  /** Parks the diagnostic until the next Inform, unless its deadline or attempts are used up. */
  function AwaitDiagnostic(job: Job, env: Env): Job {
    if DiagnosticsExpired(job, env.now) || job.attempts >= job.maxAttempts then job.(status := TimedOut)
    else SetDeadline(job, env).(status := AwaitingDiagnostics)
  }

  /** The deadline is set by the first acknowledgement and kept afterwards. */
  function SetDeadline(job: Job, env: Env): Job {
    if job.deadline.Some? then job else job.(deadline := Some(env.now + env.window))
  }

  function WritableByName(list: seq<NameEntry>): map<Path, bool> {
    if list == [] then map[]
    else WritableByName(list[..|list| - 1])[list[|list| - 1].name := list[|list| - 1].writable]
  }

  /** completeParameterDiscovery: the walk takes the names, or skips the object the CPE cannot serve. */
  function CompleteDiscovery(job: Job, body: Body, env: Env, otherWalk: bool): Effect {
    if !job.payload.Discover? then Effect(job, [])
    else DiscoveryStep(job, job.payload.walk, body, SkipCursor(job.payload.walk), NamesProgress(job.payload.walk, body, env), env, otherWalk)
  }

  function NamesProgress(w: Walk, body: Body, env: Env): Progress {
    if body.names.Some? then Advance(w, WritableByName(body.names.value)) else Refused
  }

  /** `skipped` and `advanced` are where skipping the object or taking the names leads. */
  function DiscoveryStep(job: Job, w: Walk, body: Body, skipped: Progress, advanced: Progress, env: Env, otherWalk: bool): Effect {
    if w.incremental && w.cursor.Some? && body.fault.Some? then Proceed(job, skipped, env, otherWalk)
    else if body.fault.Some? || body.names.None? || (body.names.value == [] && w.cursor.None?) then NothingFound(job, w)
    else TakeNames(job, w, advanced, env, otherWalk)
  }

  /** Names arrived: `progress` is where they take an incremental walk. */
  function TakeNames(job: Job, w: Walk, progress: Progress, env: Env, otherWalk: bool): Effect {
    if w.merge then Effect(FinishMerge(job, env), [])
    else if w.incremental then Proceed(job, progress, env, otherWalk)
    else Finish(job, w, env, otherWalk)
  }

  /** The root answered nothing: fail, and try the other root once. */
  function NothingFound(job: Job, w: Walk): Effect {
    Effect(MarkFailed(job, DiscoveryFailed),
           if w.isFallback || w.fallbackRoot.None? || w.cursor.Some? then []
           else [WalkJob(job.device, FreshWalk(w.fallbackRoot.value, None, true, w.incremental))])
  }

  function FinishMerge(job: Job, env: Env): Job {
    if env.mergeSaved then MarkSuccess(job) else MarkFailed(job, DiscoveryFailed)
  }

  /** skipDiscoveryObject: the CPE faulted on the object, or dropped the session on it. */
  function SkipObject(job: Job, w: Walk, env: Env, otherWalk: bool): Effect {
    Proceed(job, SkipCursor(w), env, otherWalk)
  }

  function Proceed(job: Job, progress: Progress, env: Env, otherWalk: bool): Effect {
    match progress
    case Refused => Effect(MarkFailed(job, DiscoveryFailed), [])
    case More(next) => Effect(job.(payload := Discover(next), status := Queued), [])
    case Finished(done) => Finish(job, done, env, otherWalk)
  }

  /** finishParameterDiscovery: persist the snapshot, then read what the new tree makes readable. */
  function Finish(job: Job, w: Walk, env: Env, otherWalk: bool): Effect {
    match env.snapshot
    case Saved => Effect(MarkSuccess(job), if w.root == ROOT_DEVICE2 then NewReads(job.device, env) else [])
    case StoreError => Effect(MarkFailed(job, DiscoveryFailed), [])
    case FirmwareMoved =>
      Effect(MarkFailed(job, DiscoveryFailed),
             if otherWalk then [] else [WalkJob(job.device, FreshWalk(ROOT_DEVICE2, Some(ROOT_IGD1), false, true))])
  }

  function NewReads(device: DeviceId, env: Env): seq<Job> {
    (if env.wifiPaths == [] then [] else [ReadJob(device, env.wifiPaths)])
    + (if env.gatewayPaths == [] then [] else [ReadJob(device, env.gatewayPaths)])
  }

  /** The RPC put on the wire for a job. */
  datatype Rpc =
    | SetValues(params: seq<ParameterWrite>)
    | GetValues(paths: seq<Path>)
    | DiagnosticTrigger
    | DiagnosticPoll
    | GetNames(path: Path, nextLevel: bool)
    | Simple(kind: JobType)

  /** BindFirmware: fix the evidence firmware on first dispatch; a later change fails the job. */
  function BindFirmware(job: Job, env: Env): Option<Job> {
    match job.kind
    case SetParameter =>
      if !job.payload.Write? then None
      else if job.payload.bound.Some? then (if job.payload.bound.value == env.firmware then Some(job) else None)
      else Some(job.(payload := job.payload.(bound := Some(env.firmware),
                nonReadable := set p | p in WrittenPaths(job.payload.params) && p in env.writeOnly)))
    case GetParameter =>
      if !job.payload.Read? then None
      else if job.payload.evidence.Some? then (if job.payload.evidence.value == env.firmware then Some(job) else None)
      else Some(job.(payload := job.payload.(evidence := Some(env.firmware))))
    case _ => Some(job)
  }

  /** The write list to render, with sealed handles opened; a verification read-back opens nothing. */
  function OpenHandles(job: Job, env: Env): Option<Payload> {
    if job.kind.SetParameter? && job.payload.Write? && !job.payload.pending then
      if Openable(job.payload.params, env.vault)
      then Some(job.payload.(params := Substitute(job.payload.params, env.vault)))
      else None
    else Some(job.payload)
  }

  function Render(job: Job, payload: Payload): Option<Rpc> {
    match job.kind
    case SetParameter =>
      if !payload.Write? then None
      else if payload.pending then Some(GetValues(VerificationPaths(payload.params, payload.nonReadable)))
      else Some(SetValues(payload.params))
    case GetParameter => if payload.Read? then Some(GetValues(payload.paths)) else None
    case ConnectionRequest => None
    case ParameterDiscovery =>
      if payload.Discover? then Some(GetNames(payload.walk.RequestPath(), payload.walk.incremental)) else None
    case Reboot => Some(Simple(job.kind))
    case FactoryReset => Some(Simple(job.kind))
    case _ =>
      if payload.Malformed? then None
      else if IsDiagnostic(job.kind) then Some(if job.Triggered() then DiagnosticPoll else DiagnosticTrigger)
      else Some(Simple(job.kind))
  }

  /** A leased job, ready to send or failed on the way. */
  datatype Prepared = Ready(job: Job, rpc: Rpc) | Rejected(job: Job)

  function Prepare(job: Job, env: Env): Prepared {
    match BindFirmware(job, env)
    case None => Rejected(MarkFailed(job, FirmwareChanged))
    case Some(b) =>
      match OpenHandles(b, env)
      case None => Rejected(MarkFailed(b, SecretHandleUnavailable))
      case Some(payload) =>
        match Render(b, payload)
        case None => Rejected(MarkFailed(b, Unrenderable))
        case Some(rpc) => Ready(b, rpc)
  }

  datatype DroppedAction = Requeue | Succeeded | AwaitTransfer | GiveUp | DiagnosticsTriggered

  /** ClassifyDroppedSessionJob; `rebooted` says the Inform carries "M Reboot" with this job's CommandKey. */
  function ClassifyDropped(job: Job, rebooted: bool, diagnosticsComplete: bool): DroppedAction {
    if diagnosticsComplete && IsDiagnostic(job.kind) && !job.Triggered() then DiagnosticsTriggered
    else if job.kind.Reboot? then (if rebooted then Succeeded else GiveUp)
    else if IsTransfer(job.kind) then AwaitTransfer
    else if job.kind.AddObject? || job.kind.DeleteObject? || job.kind.FactoryReset? then GiveUp
    else if job.attempts >= job.maxAttempts then GiveUp
    else Requeue
  }

  function ApplyDropped(job: Job, action: DroppedAction, env: Env): Job {
    match action
    case Requeue => job.(status := Queued)
    case Succeeded => MarkSuccess(job)
    case AwaitTransfer => job.(status := AwaitingTransferComplete)
    case GiveUp => MarkFailed(job, SessionDropped)
    case DiagnosticsTriggered => SetDeadline(job, env).(status := Queued)
  }

  /** The fault codes the ACS records when it gives up on a transfer itself; they are stored like any other code. */
  const GIVE_UP_CODES := [Text("LEASE_EXPIRED_UNSAFE_RETRY"), Text("SESSION_DROPPED_OUTCOME_UNKNOWN"), Text("TRANSFER_TIMEOUT")]

  predicate ReadsAsGivenUp(fault: Fault) {
    fault.LeaseExpiredUnsafe? || fault.SessionDropped? || fault.TransferTimeout? || (fault.Reported? && fault.code in GIVE_UP_CODES)
  }

  /** LateTransferReconcilable: a TransferComplete may still be applied to a transfer that the ACS had given up on. */
  predicate LateReconcilable(job: Job) {
    job.status.Failed? && job.fault.Some? && ReadsAsGivenUp(job.fault.value) && IsTransfer(job.kind)
  }

  /** handleTransferComplete on the job its CommandKey names. */
  function CompleteTransfer(job: Job, fault: Option<Text>): Effect {
    if !LateReconcilable(job) && !job.status.AwaitingTransferComplete? && !job.status.RpcSent? then Effect(job, [])
    else if fault.Some? then Effect(MarkFailed(job, Reported(fault.value)), [])
    else Effect(MarkSuccess(job),
                if job.kind.FirmwareDownload? then [ReadJob(job.device, [Path("Device.DeviceInfo.SoftwareVersion")])] else [])
  }

  /** The reaper on one job whose lease, transfer deadline or diagnostics deadline has passed. */
  function Reaped(job: Job): Job {
    if job.status.RpcSent? || job.status.InProgress? then
      if NonRepeatable(job.kind) then MarkFailed(job, LeaseExpiredUnsafe)
      else if job.attempts >= job.maxAttempts then MarkFailed(job, LeaseExpired)
      else job.(status := Queued)
    else if job.status.AwaitingTransferComplete? then MarkFailed(job, TransferTimeout)
    else if job.status.AwaitingDiagnostics? then job.(status := TimedOut, fault := Some(DiagnosticsTimeout))
    else job
  }

  /** A job whose RPC can be rendered, and so can be in flight. */
  predicate Renderable(job: Job) {
    match job.kind
    case SetParameter => job.payload.Write?
    case GetParameter => job.payload.Read?
    case ParameterDiscovery => job.payload.Discover?
    case ConnectionRequest => false
    case _ => true
  }

  lemma SentJobsAreRenderable(job: Job, env: Env)
    requires Prepare(job, env).Ready?
    ensures Renderable(Prepare(job, env).job) && Prepare(job, env).job.kind == job.kind
    ensures Prepare(job, env).job.(payload := job.payload) == job
  {
  }

  /** The job left RPC_SENT, kept its identity, and queued only fresh work for the same device. */
  ghost predicate Settles(job: Job, e: Effect) {
    && !e.job.status.RpcSent?
    && e.job.device == job.device && e.job.kind == job.kind && e.job.attempts == job.attempts
    && e.job.maxAttempts == job.maxAttempts && e.job.uspOnly == job.uspOnly
    && (forall i :: 0 <= i < |e.queued| ==> Fresh(e.queued[i], job.device))
  }

  /** A newly created row. */
  ghost predicate Fresh(job: Job, device: DeviceId) {
    && job.status.Queued? && job.device == device && job.attempts == 0 && job.deadline.None? && job.fault.None?
    && (job.kind.GetParameter? || job.kind.ParameterDiscovery?) && Renderable(job)
  }

  /** Every type that can be in flight leaves RPC_SENT when it is answered, whatever the answer. */
  lemma AnsweredLeavesFlight(job: Job, body: Body, env: Env, otherWalk: bool)
    requires Renderable(job)
    ensures Settles(job, Complete(job, body, env, otherWalk))
  {
    if job.kind.ParameterDiscovery? {
      DiscoverySettles(job, body, env, otherWalk);
    } else if job.kind.SetParameter? {
      WriteSettles(job, body, env);
    } else if IsDiagnostic(job.kind) {
      DiagnosticSettles(job, body, env);
    }
  }

  lemma DiagnosticSettles(job: Job, body: Body, env: Env)
    ensures Settles(job, Effect(CompleteDiagnostic(job, body, env), []))
  {
  }

  lemma WriteSettles(job: Job, body: Body, env: Env)
    ensures Settles(job, CompleteWrite(job, body, env))
  {
  }

  lemma DiscoverySettles(job: Job, body: Body, env: Env, otherWalk: bool)
    requires job.payload.Discover?
    ensures Settles(job, CompleteDiscovery(job, body, env, otherWalk))
  {
    var w := job.payload.walk;
    DiscoveryStepSettles(job, w, body, SkipCursor(w), NamesProgress(w, body, env), env, otherWalk);
  }

  lemma DiscoveryStepSettles(job: Job, w: Walk, body: Body, skipped: Progress, advanced: Progress, env: Env, otherWalk: bool)
    ensures Settles(job, DiscoveryStep(job, w, body, skipped, advanced, env, otherWalk))
  {
    ProceedSettles(job, skipped, env, otherWalk);
    NamesSettle(job, w, advanced, env, otherWalk);
  }

  lemma NamesSettle(job: Job, w: Walk, progress: Progress, env: Env, otherWalk: bool)
    ensures Settles(job, TakeNames(job, w, progress, env, otherWalk))
  {
  }

  lemma ProceedSettles(job: Job, progress: Progress, env: Env, otherWalk: bool)
    ensures Settles(job, Proceed(job, progress, env, otherWalk))
  {
  }

}
