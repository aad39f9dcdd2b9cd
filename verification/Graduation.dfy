/**
 From the shared bootstrap identity to a credential of its own: the guard stack in
 front of the CWMP handler, the graduation exchange that hands a device its PENDING
 credential, and the lifecycle that makes it ACTIVE.
 */
module Graduation {
  import opened Options
  import opened Verification

  type DeviceId = nat
  type CredentialId = nat

  datatype Root = Unknown | Device2 | Igd1

  /** `managed` says the row records an authentication mode other than NONE. */
  datatype Device = Device(key: Text, informed: bool, managed: bool, root: Root, reenrollUntil: Option<int>)

  datatype Kind = ConnectionRequest | CwmpDigest

  datatype Status = Pending | Active | Grace | Revoked

  datatype Credential = Credential(device: DeviceId, kind: Kind, username: Text, status: Status)

  /** `sessions` counts the sessions the normal handler opened. */
  datatype Registry = Registry(devices: seq<Device>, credentials: seq<Credential>, sessions: nat)

  const NOTHING := Registry([], [], 0)

  /** The deployment: no bootstrap username means no bootstrap capability. */
  datatype Config = Config(production: bool, bootstrapUsername: Option<Text>, storeAvailable: bool,
                           sharedUsername: Option<Text>, sharedBootstrapOnly: bool, authEnabled: bool)

  datatype Authorization = Absent | Basic(username: Text) | Digest(username: Text)

  datatype Body = Unreadable | Inform(key: Option<Text>, root: Root) | Empty | SetValuesResponse | Fault | CpeRequest | TransferComplete | Other

  /** Which of the limiters on the way let the request through. */
  datatype Limits = Limits(guardIp: bool, guardDevice: bool, handlerIp: bool, handlerDevice: bool)

  /** `proof` says the password or digest response is right for the username; `cookie` is the credential the bootstrap cookie names. */
  datatype Request = Request(post: bool, tls: bool, certificate: Option<Text>, authorization: Authorization, proof: bool,
                             body: Body, cookie: Option<CredentialId>, limits: Limits, generated: Text, now: int)

  datatype Reply =
    | Refused
    | Challenge
    | BootstrapAck
    | GraduationCookie(credential: CredentialId)
    | InstallCredential(credential: CredentialId)
    | GraduationDone
    | CpeReply
      /** The request reached the normal handler, and dispatched there if `dispatched`. */
    | Normal(dispatched: bool)

  function FindDevice(devices: seq<Device>, key: Text): (r: Option<DeviceId>)
    ensures r.Some? ==> r.value < |devices| && devices[r.value].key == key
  {
    if devices == [] then None
    else if devices[|devices| - 1].key == key then Some(|devices| - 1)
    else FindDevice(devices[..|devices| - 1], key)
  }

  /** bootstrapDeviceIsEstablished */
  predicate Established(device: Device, now: int) {
    && !(device.reenrollUntil.Some? && now < device.reenrollUntil.value)
    && (device.informed || device.managed)
  }

  predicate Live(c: Credential) {
    c.status.Pending? || c.status.Active? || c.status.Grace?
  }

  /** LookupCWMPDigest: the newest live Digest credential of that username. */
  function LookupDigest(credentials: seq<Credential>, username: Text): (r: Option<CredentialId>)
    ensures r.Some? ==> r.value < |credentials| && credentials[r.value].kind.CwmpDigest? && credentials[r.value].username == username
    ensures r.Some? ==> Live(credentials[r.value])
  {
    if credentials == [] then None
    else
      var n := |credentials| - 1;
      if credentials[n].kind.CwmpDigest? && credentials[n].username == username && Live(credentials[n]) then Some(n)
      else LookupDigest(credentials[..n], username)
  }

  predicate PendingDigest(c: Credential, device: DeviceId) {
    c.device == device && c.kind.CwmpDigest? && c.status.Pending?
  }

  function FindPending(credentials: seq<Credential>, device: DeviceId): (r: Option<CredentialId>)
    ensures r.Some? ==> r.value < |credentials| && PendingDigest(credentials[r.value], device)
    ensures r.None? ==> forall i :: 0 <= i < |credentials| ==> !PendingDigest(credentials[i], device)
  {
    if credentials == [] then None
    else
      var n := |credentials| - 1;
      if PendingDigest(credentials[n], device) then Some(n) else FindPending(credentials[..n], device)
  }

  predicate SamePair(a: Credential, b: Credential) {
    a.device == b.device && a.kind == b.kind
  }

  /** credentials.Activate: the row becomes ACTIVE, whatever it was, and the previously ACTIVE one of the same device and type GRACE. */
  function Activate(credentials: seq<Credential>, id: CredentialId): (r: seq<Credential>)
    requires id < |credentials|
    ensures |r| == |credentials|
  {
    seq(|credentials|, i requires 0 <= i < |credentials| => Activated(credentials[i], credentials[id], i == id))
  }

  function Activated(c: Credential, chosen: Credential, isChosen: bool): Credential {
    if isChosen then c.(status := Active)
    else if SamePair(c, chosen) && c.status.Active? then c.(status := Grace)
    else c
  }

  /** The OnAuthenticated hook. */
  function OnAuthenticated(s: Registry, username: Text): Registry {
    match LookupDigest(s.credentials, username)
    case None => s
    case Some(id) =>
      if !s.credentials[id].status.Pending? then s
      else
        var device := s.credentials[id].device;
        Registry(if device < |s.devices| then s.devices[device := s.devices[device].(reenrollUntil := None)] else s.devices,
                 Activate(s.credentials, id), s.sessions)
  }

  /** What the normal handler's authentication established. */
  datatype Identity = Anonymous | Rejected | Shared | Bound(device: DeviceId, username: Text) | Certified(key: Text)

  function Authenticate(c: Config, s: Registry, r: Request): Identity {
    if r.certificate.Some? then Certified(r.certificate.value)
    else if !c.authEnabled then Anonymous
    else if r.authorization.Absent? || !r.proof then Rejected
    else if c.sharedUsername == Some(r.authorization.username) then Shared
    else match LookupDigest(s.credentials, r.authorization.username)
         case None => Rejected
         case Some(id) => Bound(s.credentials[id].device, r.authorization.username)
  }

  /** handleInform's identity checks and what it stores. A certificate without a CommonName binds nothing. */
  function NormalInform(c: Config, s: Registry, who: Identity, key: Text): (Registry, Reply) {
    var known := FindDevice(s.devices, key);
    if who.Shared? && c.sharedBootstrapOnly && known.Some? then (s, Refused)
    else if who.Bound? && known != Some(who.device) then (s, Refused)
    else if who.Certified? && who.key != Text("") && who.key != key then (s, Refused)
    else
      var hooked := if who.Bound? then OnAuthenticated(s, who.username) else s;
      var managed := !who.Anonymous?;
      var devices := if known.Some?
                     then hooked.devices[known.value := hooked.devices[known.value].(informed := true, managed := managed)]
                     else hooked.devices + [Device(key, true, managed, Unknown, None)];
      (Registry(devices, hooked.credentials, hooked.sessions + 1), Normal(false))
  }

  /** handleCWMP */
  function Handle(c: Config, s: Registry, r: Request): (Registry, Reply) {
    if !r.post || !r.limits.handlerIp then (s, Refused)
    else
      var who := Authenticate(c, s, r);
      if who.Rejected? then (s, Challenge)
      else if r.body.Unreadable? || (who.Shared? && c.sharedBootstrapOnly && !r.body.Inform?) || !r.limits.handlerDevice then (s, Refused)
      else if r.body.Inform? then (if r.body.key.None? then (s, Refused) else NormalInform(c, s, who, r.body.key.value))
      else if r.body.CpeRequest? then (s, CpeReply)
      else (s, Normal(true))
  }

  /** The request is the bootstrap identity's: the test both guards make. */
  predicate IsBootstrap(c: Config, r: Request) {
    && r.post && r.certificate.None? && c.bootstrapUsername.Some?
    && r.authorization.Digest? && r.authorization.username == c.bootstrapUsername.value
  }

  /** bootstrapCWMPGuard: acknowledge a first contact, and nothing more. */
  function BootstrapGuard(c: Config, s: Registry, r: Request): (Registry, Reply) {
    if c.bootstrapUsername.None? then Handle(c, s, r)
    else if !c.storeAvailable then (s, Refused)
    else if !IsBootstrap(c, r) then Handle(c, s, r)
    else if !r.limits.guardIp then (s, Refused)
    else if !r.proof then (s, Challenge)
    else if r.body.Empty? then (s, GraduationDone)
    else if !r.body.Inform? || r.body.key.None? || !r.limits.guardDevice then (s, Refused)
    else
      var known := FindDevice(s.devices, r.body.key.value);
      if known.Some? && Established(s.devices[known.value], r.now) then (s, Refused) else (s, BootstrapAck)
  }

  /** EnsureBootstrapRegistration: only an unknown root is filled in on a row that exists. */
  function EnsureDevice(devices: seq<Device>, key: Text, root: Root): (seq<Device>, DeviceId) {
    match FindDevice(devices, key)
    case None => (devices + [Device(key, false, false, root, None)], |devices|)
    case Some(id) => (if devices[id].root.Unknown? then devices[id := devices[id].(root := root)] else devices, id)
  }

  /** EnsurePendingCWMPDigest */
  function EnsurePending(credentials: seq<Credential>, device: DeviceId, generated: Text): (seq<Credential>, CredentialId) {
    match FindPending(credentials, device)
    case Some(id) => (credentials, id)
    case None => (credentials + [Credential(device, CwmpDigest, generated, Pending)], |credentials|)
  }

  /** handleBootstrapGraduationInform */
  function GraduationInform(s: Registry, r: Request, key: Text, root: Root): (Registry, Reply) {
    var known := FindDevice(s.devices, key);
    if !r.limits.guardDevice || (known.Some? && Established(s.devices[known.value], r.now)) then (s, Refused)
    else
      var (devices, device) := EnsureDevice(s.devices, key, root);
      var (credentials, id) := EnsurePending(s.credentials, device, r.generated);
      (Registry(devices, credentials, s.sessions), GraduationCookie(id))
  }

  /** loadBootstrapGraduationState: the cookie must name a PENDING Digest credential of a device that exists. */
  predicate CookieHolds(s: Registry, cookie: Option<CredentialId>) {
    && cookie.Some? && cookie.value < |s.credentials|
    && s.credentials[cookie.value].kind.CwmpDigest? && s.credentials[cookie.value].status.Pending?
    && s.credentials[cookie.value].device < |s.devices|
  }

  /** The rest of the graduation exchange; none of it changes the registry. */
  function GraduationPost(s: Registry, r: Request): Reply {
    if !CookieHolds(s, r.cookie) then Refused
    else
      var device := s.devices[s.credentials[r.cookie.value].device];
      if Established(device, r.now) then Refused
      else match r.body
           case CpeRequest => CpeReply
           case Empty => if device.root.Unknown? then Refused else InstallCredential(r.cookie.value)
           case SetValuesResponse => GraduationDone
           case Fault => GraduationDone
           case _ => Refused
  }

  /** bootstrapCWMPGraduationGuard */
  function GraduationGuard(c: Config, s: Registry, r: Request): (Registry, Reply) {
    if c.bootstrapUsername.None? then BootstrapGuard(c, s, r)
    else if !c.storeAvailable then (s, Refused)
    else if !IsBootstrap(c, r) then BootstrapGuard(c, s, r)
    else if !r.limits.guardIp then (s, Refused)
    else if !r.proof then (s, Challenge)
    else match r.body
         case Unreadable => (s, Refused)
         case Inform(key, root) => if key.None? then (s, Refused) else GraduationInform(s, r, key.value, root)
         case _ => (s, GraduationPost(s, r))
  }

  /** productionCWMPGuard, the outermost boundary. */
  function Serve(c: Config, s: Registry, r: Request): (Registry, Reply) {
    if c.production && (!r.tls || r.authorization.Basic? ||
                        (c.sharedUsername.Some? && r.authorization.Digest? && r.authorization.username == c.sharedUsername.value))
    then (s, Refused)
    else GraduationGuard(c, s, r)
  }

  /** Everything that changes devices or credentials: a CWMP request, or an operator's call. */
  datatype Step =
    | Http(request: Request)
    | Register(key: Text)
    | Rotate(target: DeviceId, kind: Kind, username: Text)
    | ManualActivate(owner: DeviceId, credential: CredentialId)
    | Revoke(holder: DeviceId, revoked: CredentialId)
    | OpenWindow(device: DeviceId, until: int)

  /** rotateDeviceCredential: one PENDING Digest credential at a time. */
  function RotateCredential(s: Registry, device: DeviceId, kind: Kind, username: Text): Registry {
    if device >= |s.devices| || (kind.CwmpDigest? && FindPending(s.credentials, device).Some?) then s
    else s.(credentials := s.credentials + [Credential(device, kind, username, Pending)])
  }

  /** activateDeviceCredential: the device must match, and only the ACS-to-CPE direction may be switched by hand. */
  function ActivateByHand(s: Registry, device: DeviceId, id: CredentialId): Registry {
    if id < |s.credentials| && s.credentials[id].device == device && s.credentials[id].kind.ConnectionRequest?
    then s.(credentials := Activate(s.credentials, id)) else s
  }

  /** revokeDeviceCredential: from GRACE or PENDING only. */
  function RevokeCredential(s: Registry, device: DeviceId, id: CredentialId): Registry {
    if id < |s.credentials| && s.credentials[id].device == device && (s.credentials[id].status.Grace? || s.credentials[id].status.Pending?)
    then s.(credentials := s.credentials[id := s.credentials[id].(status := Revoked)]) else s
  }

  function Next(c: Config, s: Registry, step: Step): Registry {
    match step
    case Http(request) => Serve(c, s, request).0
    case Register(key) => if FindDevice(s.devices, key).Some? then s else s.(devices := s.devices + [Device(key, false, false, Unknown, None)])
    case Rotate(device, kind, username) => RotateCredential(s, device, kind, username)
    case ManualActivate(device, id) => ActivateByHand(s, device, id)
    case Revoke(device, id) => RevokeCredential(s, device, id)
    case OpenWindow(device, until) =>
      if device < |s.devices| then s.(devices := s.devices[device := s.devices[device].(reenrollUntil := Some(until))]) else s
  }

  function Run(c: Config, s: Registry, steps: seq<Step>): Registry {
    if steps == [] then s else Next(c, Run(c, s, steps[..|steps| - 1]), steps[|steps| - 1])
  }

  /** Old rows keep their owner, type, username and status. */
  ghost predicate CredentialsKept(before: seq<Credential>, after: seq<Credential>) {
    |before| <= |after| && forall i :: 0 <= i < |before| ==> after[i] == before[i]
  }

  /** The bootstrap exchange touches nothing a device is managed with. */
  ghost predicate BootstrapOnly(s: Registry, t: Registry) {
    && t.sessions == s.sessions && CredentialsKept(s.credentials, t.credentials)
    && (forall i :: |s.credentials| <= i < |t.credentials| ==> t.credentials[i].kind.CwmpDigest? && t.credentials[i].status.Pending?)
    && |s.devices| <= |t.devices|
    && (forall i :: 0 <= i < |s.devices| ==> t.devices[i].(root := s.devices[i].root) == s.devices[i])
    && (forall i :: |s.devices| <= i < |t.devices| ==> !t.devices[i].informed && !t.devices[i].managed)
  }

  /**
   A POST with the bootstrap username and no client certificate never reaches the
   normal handler, through the whole guard stack: it opens no session and dispatches
   nothing, changes no existing credential, and manages no device.
   */
  lemma BootstrapNeverReachesNormal(c: Config, s: Registry, r: Request)
    requires IsBootstrap(c, r)
    ensures !Serve(c, s, r).1.Normal? && BootstrapOnly(s, Serve(c, s, r).0)
  {
  }

  /** An established device outside a re-enrolment window is refused outright. */
  lemma EstablishedIsRefused(c: Config, s: Registry, r: Request, device: DeviceId)
    requires IsBootstrap(c, r) && r.body.Inform? && r.body.key.Some?
    requires FindDevice(s.devices, r.body.key.value) == Some(device) && Established(s.devices[device], r.now)
    ensures Serve(c, s, r).0 == s && !Serve(c, s, r).1.GraduationCookie?
  {
  }

  /** Proof of possession with the right identity: an Inform that reached the normal handler as the credential's own device. */
  ghost predicate ProvesIdentity(s: Registry, step: Step, credential: Credential) {
    && step.Http? && step.request.proof && step.request.certificate.None?
    && !step.request.authorization.Absent? && step.request.authorization.username == credential.username
    && step.request.body.Inform? && step.request.body.key.Some?
    && FindDevice(s.devices, step.request.body.key.value) == Some(credential.device)
  }

  ghost predicate BecomesActive(s: Registry, t: Registry, i: CredentialId) {
    i < |t.credentials| && t.credentials[i].status.Active? && (i >= |s.credentials| || !s.credentials[i].status.Active?)
  }

  /** A Digest credential becomes ACTIVE only from PENDING, in an Inform that proves its secret and resolves to its own device. */
  lemma DigestActivation(c: Config, s: Registry, step: Step, i: CredentialId)
    requires BecomesActive(s, Next(c, s, step), i) && Next(c, s, step).credentials[i].kind.CwmpDigest?
    ensures i < |s.credentials| && s.credentials[i].status.Pending? && s.credentials[i].kind.CwmpDigest?
    ensures ProvesIdentity(s, step, s.credentials[i])
  {
  }

  /** At most one ACTIVE credential per device and type, and at most one PENDING Digest credential per device. */
  ghost predicate Exclusive(credentials: seq<Credential>) {
    forall i, j :: 0 <= i < j < |credentials| && SamePair(credentials[i], credentials[j]) ==>
                     && !(credentials[i].status.Active? && credentials[j].status.Active?)
                     && (credentials[i].kind.CwmpDigest? ==> !(credentials[i].status.Pending? && credentials[j].status.Pending?))
  }

  lemma ActivateExclusive(credentials: seq<Credential>, id: CredentialId)
    requires id < |credentials| && Exclusive(credentials)
    ensures Exclusive(Activate(credentials, id))
  {
  }

  lemma HookExclusive(s: Registry, username: Text)
    requires Exclusive(s.credentials)
    ensures Exclusive(OnAuthenticated(s, username).credentials)
  {
  }

  lemma PendingExclusive(credentials: seq<Credential>, device: DeviceId, generated: Text)
    requires Exclusive(credentials)
    ensures Exclusive(EnsurePending(credentials, device, generated).0)
  {
  }

  /** What a request does to the credentials: nothing, the activation hook, or one PENDING Digest credential more. */
  lemma ServeCredentials(c: Config, s: Registry, r: Request)
    ensures var t := Serve(c, s, r).0;
            || t.credentials == s.credentials
            || (!r.authorization.Absent? && t.credentials == OnAuthenticated(s, r.authorization.username).credentials)
            || (exists device :: t.credentials == EnsurePending(s.credentials, device, r.generated).0)
  {
  }

  lemma StepExclusive(c: Config, s: Registry, step: Step)
    requires Exclusive(s.credentials)
    ensures Exclusive(Next(c, s, step).credentials)
  {
    match step
    case Http(r) =>
      ServeCredentials(c, s, r);
      var t := Serve(c, s, r).0;
      if t.credentials != s.credentials {
        if !r.authorization.Absent? && t.credentials == OnAuthenticated(s, r.authorization.username).credentials {
          HookExclusive(s, r.authorization.username);
        } else {
          var device :| t.credentials == EnsurePending(s.credentials, device, r.generated).0;
          PendingExclusive(s.credentials, device, r.generated);
        }
      }
    case ManualActivate(device, id) =>
      if id < |s.credentials| {
        ActivateExclusive(s.credentials, id);
      }
    case _ =>
  }

  /** In every run no device has two ACTIVE credentials of a type, nor two PENDING Digest credentials. */
  lemma {:induction false} RunsStayExclusive(c: Config, steps: seq<Step>)
    ensures Exclusive(Run(c, NOTHING, steps).credentials)
  {
    if steps != [] {
      var n := |steps| - 1;
      RunsStayExclusive(c, steps[..n]);
      StepExclusive(c, Run(c, NOTHING, steps[..n]), steps[n]);
    }
  }

  /** Rows are never removed and never change hands. */
  lemma StepKeepsOwners(c: Config, s: Registry, step: Step, i: CredentialId)
    requires i < |s.credentials|
    ensures i < |Next(c, s, step).credentials|
    ensures Next(c, s, step).credentials[i].(status := s.credentials[i].status) == s.credentials[i]
  {
    if step.Http? {
      ServeCredentials(c, s, step.request);
    }
  }

  /** Some Inform of the run proved the credential's secret and resolved to its device. */
  ghost predicate Proved(c: Config, steps: seq<Step>, credential: Credential) {
    steps != [] &&
    (Proved(c, steps[..|steps| - 1], credential) || ProvesIdentity(Run(c, NOTHING, steps[..|steps| - 1]), steps[|steps| - 1], credential))
  }

  lemma ProvedStays(c: Config, s: Registry, step: Step, a: Credential, b: Credential)
    requires a.(status := b.status) == b && ProvesIdentity(s, step, a)
    ensures ProvesIdentity(s, step, b)
  {
  }

  lemma {:induction false} ProvedWhatever(c: Config, steps: seq<Step>, a: Credential, b: Credential)
    requires a.(status := b.status) == b && Proved(c, steps, a)
    ensures Proved(c, steps, b)
  {
    if Proved(c, steps[..|steps| - 1], a) {
      ProvedWhatever(c, steps[..|steps| - 1], a, b);
    }
  }

  /** In every run a Digest credential that is or was ACTIVE has been proved by its own device. */
  lemma {:induction false} ActiveWasProved(c: Config, steps: seq<Step>, i: CredentialId)
    requires i < |Run(c, NOTHING, steps).credentials|
    requires var cred := Run(c, NOTHING, steps).credentials[i]; cred.kind.CwmpDigest? && (cred.status.Active? || cred.status.Grace?)
    ensures Proved(c, steps, Run(c, NOTHING, steps).credentials[i])
  {
    var n := |steps| - 1;
    var s := Run(c, NOTHING, steps[..n]);
    var t := Run(c, NOTHING, steps);
    if i < |s.credentials| {
      StepKeepsOwners(c, s, steps[n], i);
      if s.credentials[i].status.Active? || s.credentials[i].status.Grace? {
        ActiveWasProved(c, steps[..n], i);
        ProvedWhatever(c, steps[..n], s.credentials[i], t.credentials[i]);
      } else {
        NewlyUsed(c, s, steps[n], i);
        DigestActivation(c, s, steps[n], i);
        ProvedStays(c, s, steps[n], s.credentials[i], t.credentials[i]);
      }
    } else {
      NewlyUsed(c, s, steps[n], i);
      DigestActivation(c, s, steps[n], i);
    }
  }

  /** A row that was neither ACTIVE nor GRACE and is now one of them has just become ACTIVE. */
  lemma NewlyUsed(c: Config, s: Registry, step: Step, i: CredentialId)
    requires i < |Next(c, s, step).credentials|
    requires i < |s.credentials| ==> !s.credentials[i].status.Active? && !s.credentials[i].status.Grace?
    requires Next(c, s, step).credentials[i].status.Active? || Next(c, s, step).credentials[i].status.Grace?
    ensures BecomesActive(s, Next(c, s, step), i)
  {
  }

  /** A revoked Digest credential stays revoked in every run. */
  lemma {:induction false} RevokedDigestStays(c: Config, s: Registry, steps: seq<Step>, i: CredentialId)
    requires i < |s.credentials| && s.credentials[i].kind.CwmpDigest? && s.credentials[i].status.Revoked?
    ensures i < |Run(c, s, steps).credentials| && Run(c, s, steps).credentials[i] == s.credentials[i]
  {
    if steps != [] {
      var n := |steps| - 1;
      RevokedDigestStays(c, s, steps[..n], i);
      var t := Run(c, s, steps[..n]);
      if steps[n].Http? {
        ServeCredentials(c, t, steps[n].request);
      }
    }
  }

  /** A Connection Request credential does not: Activate looks at no status, so an operator can bring it back, exactly by activating it. */
  lemma RevokedConnectionRequestReturns(c: Config, s: Registry, step: Step, i: CredentialId)
    requires i < |s.credentials| && s.credentials[i].kind.ConnectionRequest? && s.credentials[i].status.Revoked?
    ensures i < |Next(c, s, step).credentials|
    ensures !Next(c, s, step).credentials[i].status.Revoked? <==> step == ManualActivate(s.credentials[i].device, i)
  {
  }

  /** Only bootstrap traffic, and whatever operators do, never opens a session nor makes a device managed. */
  lemma {:induction false} BootstrapAloneManagesNothing(c: Config, steps: seq<Step>)
    requires forall i :: 0 <= i < |steps| && steps[i].Http? ==> IsBootstrap(c, steps[i].request)
    ensures var t := Run(c, NOTHING, steps);
            t.sessions == 0 && forall d :: 0 <= d < |t.devices| ==> !t.devices[d].informed && !t.devices[d].managed
  {
    if steps != [] {
      var n := |steps| - 1;
      BootstrapAloneManagesNothing(c, steps[..n]);
      if steps[n].Http? {
        BootstrapNeverReachesNormal(c, Run(c, NOTHING, steps[..n]), steps[n].request);
      }
    }
  }

  predicate IsIgd(name: string) {
    "InternetGatewayDevice." <= name
  }

  predicate IsDevice2(name: string) {
    "Device." <= name
  }

  predicate SomeName(names: seq<string>, test: string -> bool) {
    exists i :: 0 <= i < |names| && test(names[i])
  }

  /** The root every recognised name agrees on; a mixture says nothing. */
  function InferredRoot(names: seq<string>): Root {
    if SomeName(names, IsIgd) && !SomeName(names, IsDevice2) then Igd1
    else if SomeName(names, IsDevice2) && !SomeName(names, IsIgd) then Device2
    else Unknown
  }

  /** inferBootstrapDataModelRoot */
  method InferBootstrapDataModelRoot(names: seq<string>) returns (root: Root)
    ensures root == InferredRoot(names)
  {
    root := Unknown;
    for i := 0 to |names|
      invariant root.Igd1? <==> (exists k :: 0 <= k < i && IsIgd(names[k]))
      invariant root.Device2? <==> (exists k :: 0 <= k < i && IsDevice2(names[k]))
    {
      PrefixesDiffer(names[i]);
      var candidate := if IsIgd(names[i]) then Igd1 else if IsDevice2(names[i]) then Device2 else Unknown;
      if !candidate.Unknown? {
        if !root.Unknown? && root != candidate {
          return Unknown;
        }
        root := candidate;
      }
    }
  }

  lemma PrefixesDiffer(name: string)
    ensures !(IsIgd(name) && IsDevice2(name))
  {
    assert IsIgd(name) ==> name[0] == 'I';
  }

  /** The credential rows, as the repository and the handlers change them. */
  class CredentialService {
    var devices: seq<Device>
    var credentials: seq<Credential>
    var sessions: nat

    ghost function State(): Registry
      reads this
    {
      Registry(devices, credentials, sessions)
    }

    /** credentials.Activate: demote, then promote, in one transaction. */
    method ActivateRow(id: CredentialId)
      requires id < |credentials|
      modifies this`credentials
      ensures credentials == Activate(old(credentials), id)
    {
      var chosen := credentials[id];
      for i := 0 to |credentials|
        invariant |credentials| == |old(credentials)|
        invariant forall k :: i <= k < |credentials| ==> credentials[k] == old(credentials)[k]
        invariant forall k :: 0 <= k < i ==>
                                credentials[k] == if SamePair(old(credentials)[k], chosen) && old(credentials)[k].status.Active?
                                then old(credentials)[k].(status := Grace) else old(credentials)[k]
      {
        if SamePair(credentials[i], chosen) && credentials[i].status.Active? {
          credentials := credentials[i := credentials[i].(status := Grace)];
        }
      }
      credentials := credentials[id := credentials[id].(status := Active)];
    }

    /** The OnAuthenticated hook of the Digest authenticator. */
    method Authenticated(username: Text)
      modifies this`credentials, this`devices
      ensures State() == OnAuthenticated(old(State()), username)
    {
      var found := LookupDigest(credentials, username);
      if found.None? || !credentials[found.value].status.Pending? {
        return;
      }
      var device := credentials[found.value].device;
      ActivateRow(found.value);
      if device < |devices| {
        devices := devices[device := devices[device].(reenrollUntil := None)];
      }
    }

    /** handleBootstrapGraduationInform, after the guards. */
    method GraduateInform(r: Request, key: Text, names: seq<string>) returns (reply: Reply)
      modifies this`credentials, this`devices
      ensures (State(), reply) == GraduationInform(old(State()), r, key, InferredRoot(names))
    {
      if !r.limits.guardDevice {
        return Refused;
      }
      var known := FindDevice(devices, key);
      if known.Some? && Established(devices[known.value], r.now) {
        return Refused;
      }
      var root := InferBootstrapDataModelRoot(names);
      var device := if known.Some? then known.value else |devices|;
      if known.None? {
        devices := devices + [Device(key, false, false, root, None)];
      } else if devices[device].root.Unknown? {
        devices := devices[device := devices[device].(root := root)];
      }
      var pending := FindPending(credentials, device);
      if pending.None? {
        credentials := credentials + [Credential(device, CwmpDigest, r.generated, Pending)];
        return GraduationCookie(|credentials| - 1);
      }
      reply := GraduationCookie(pending.value);
    }

    method RotateDeviceCredential(device: DeviceId, kind: Kind, username: Text)
      modifies this`credentials
      ensures State() == RotateCredential(old(State()), device, kind, username)
    {
      if device >= |devices| {
        return;
      }
      if kind.CwmpDigest? {
        var pending := FindPending(credentials, device);
        if pending.Some? {
          return;
        }
      }
      credentials := credentials + [Credential(device, kind, username, Pending)];
    }

    method ActivateDeviceCredential(device: DeviceId, id: CredentialId)
      modifies this`credentials
      ensures State() == ActivateByHand(old(State()), device, id)
    {
      if id >= |credentials| || credentials[id].device != device || !credentials[id].kind.ConnectionRequest? {
        return;
      }
      ActivateRow(id);
    }

    method RevokeDeviceCredential(device: DeviceId, id: CredentialId)
      modifies this`credentials
      ensures State() == RevokeCredential(old(State()), device, id)
    {
      if id >= |credentials| || credentials[id].device != device {
        return;
      }
      if credentials[id].status.Grace? || credentials[id].status.Pending? {
        credentials := credentials[id := credentials[id].(status := Revoked)];
      }
    }
  }
}
