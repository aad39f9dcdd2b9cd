/**
 A session ends. Every served POST uses up at least one unit of the work stored for
 the device, although completing a job may queue confirmation reads, a read-back, the
 next object of a walk or a fallback walk; what can keep a session going is named as
 credit. A CPE that answers the verification read with a SetParameterValuesResponse
 earns such credit every time, and keeps its session open for ever.
 */
module SessionEnds {
  import opened Options
  import opened Paths
  import opened Discovery
  import opened Verification
  import opened Jobs
  import opened Gateway
  import opened Isolation

  const FALLBACK_WALK: nat := 2 * (2 * MAX_OBJECTS + 1) + 4
  const FRESH_WALK: nat := 2 * FALLBACK_WALK
  const CONFIG_WRITE: nat := 6

  ghost predicate Healthy(job: Job) {
    && (job.payload.Discover? ==> Sound(job.payload.walk))
    && (job.status.RpcSent? ==> Renderable(job))
  }

  ghost predicate AllHealthy(jobs: seq<Job>) {
    forall j {:trigger Healthy(jobs[j])} :: 0 <= j < |jobs| ==> Healthy(jobs[j])
  }

  ghost function Steps(w: Walk): nat {
    if !w.incremental then 1 else if StepsLeft(w) < 0 then 0 else StepsLeft(w)
  }

  ghost function WalkWork(w: Walk): nat {
    2 * Steps(w) + 3 + if w.cursor.None? && !w.isFallback && w.fallbackRoot.Some? then FALLBACK_WALK else 0
  }

  /** The work a job in flight still stands for; queued, it stands for one unit more. */
  ghost function SentWork(job: Job): nat {
    match job.kind
    case SetParameter => if job.payload.Write? then (if job.payload.pending then 3 else 5) else 1
    case FirmwareDownload => 3
    case ParameterDiscovery => if job.payload.Discover? then WalkWork(job.payload.walk) else 1
    case ConnectionRequest => 0
    case _ => 1
  }

  ghost function JobWork(job: Job): nat {
    match job.status
    case Queued => if job.kind.ConnectionRequest? then 0 else SentWork(job) + 1
    case RpcSent => SentWork(job)
    case AwaitingTransferComplete => if job.kind.FirmwareDownload? then 2 else 0
    case Failed => if job.kind.FirmwareDownload? && LateReconcilable(job) then 2 else 0
    case _ => 0
  }

  /** The work stored for a device. */
  ghost function StoredWork(jobs: seq<Job>, device: DeviceId): nat {
    if jobs == [] then 0
    else StoredWork(jobs[..|jobs| - 1], device) + (if jobs[|jobs| - 1].device == device then JobWork(jobs[|jobs| - 1]) else 0)
  }

  lemma WorkAppend(a: seq<Job>, b: seq<Job>, device: DeviceId)
    ensures StoredWork(a + b, device) == StoredWork(a, device) + StoredWork(b, device)
  {
    if b == [] {
      assert a + b == a;
    } else {
      assert (a + b)[..|a + b| - 1] == a + b[..|b| - 1];
      WorkAppend(a, b[..|b| - 1], device);
    }
  }

  lemma WorkUpdate(jobs: seq<Job>, id: JobId, job: Job, device: DeviceId)
    requires id < |jobs| && job.device == jobs[id].device
    ensures StoredWork(jobs[id := job], device) ==
            StoredWork(jobs, device) + (if job.device == device then JobWork(job) - JobWork(jobs[id]) else 0)
  {
    var n := |jobs| - 1;
    if id < n {
      assert jobs[id := job][..n] == jobs[..n][id := job];
      WorkUpdate(jobs[..n], id, job, device);
    } else {
      assert jobs[id := job][..n] == jobs[..n];
    }
  }

  lemma {:induction false} ElsewherePrefix(a: seq<Job>, b: seq<Job>, elsewhere: DeviceId, device: DeviceId, k: nat)
    requires Confined(a, b, elsewhere) && elsewhere != device && k <= |b|
    ensures StoredWork(b[..k], device) == StoredWork(a[..if k <= |a| then k else |a|], device)
  {
    if k > 0 {
      ElsewherePrefix(a, b, elsewhere, device, k - 1);
      assert b[..k][..k - 1] == b[..k - 1];
      if k <= |a| {
        assert a[..k][..k - 1] == a[..k - 1];
      }
    }
  }

  lemma ElsewhereUnchanged(a: seq<Job>, b: seq<Job>, elsewhere: DeviceId, device: DeviceId)
    requires Confined(a, b, elsewhere) && elsewhere != device
    ensures StoredWork(b, device) == StoredWork(a, device)
  {
  }

  /** A verification read answered as if it were the write: the one answer that starts the read-back over. */
  ghost predicate RestartsReadback(job: Job, body: Body) {
    job.kind.SetParameter? && job.payload.Write? && job.payload.pending && body.fault.None? && body.setValues && WantsReadback(job.payload)
  }

  /** New work an answer may bring in from outside: a restarted read-back, or a new walk after a firmware change. */
  ghost function AnswerCredit(job: Job, body: Body, env: Env): nat {
    if RestartsReadback(job, body) then 2
    else if job.kind.ParameterDiscovery? && env.snapshot.FirmwareMoved? then FRESH_WALK
    else 0
  }

  /** Answering a job in flight uses up work. */
  ghost predicate Spends(job: Job, e: Effect, credit: nat) {
    JobWork(e.job) + StoredWork(e.queued, job.device) + 1 <= JobWork(job) + credit && e.job.device == job.device
  }

  /** The rows an answer leaves are healthy. */
  ghost predicate StaysHealthy(e: Effect) {
    Healthy(e.job) && AllHealthy(e.queued)
  }

  /** It is the only answer that sends a verification read back to the queue. */
  lemma OnlyRestartRequeues(job: Job, body: Body, env: Env, otherWalk: bool)
    requires job.kind.SetParameter? && job.payload.Write? && job.payload.pending
    ensures Complete(job, body, env, otherWalk).job.status.Queued? <==> RestartsReadback(job, body)
    ensures RestartsReadback(job, body) ==> Complete(job, body, env, otherWalk).job == job.(status := Queued)
  {
  }

  lemma NewReadsWork(device: DeviceId, env: Env)
    ensures StoredWork(NewReads(device, env), device) <= 4 && AllHealthy(NewReads(device, env))
  {
    var wifi := if env.wifiPaths == [] then [] else [ReadJob(device, env.wifiPaths)];
    var gateway := if env.gatewayPaths == [] then [] else [ReadJob(device, env.gatewayPaths)];
    WorkAppend(wifi, gateway, device);
  }

  lemma FreshWalkWork(device: DeviceId, root: Path, fallback: Option<Path>, isFallback: bool, incremental: bool)
    ensures StoredWork([WalkJob(device, FreshWalk(root, fallback, isFallback, incremental))], device)
         <= if isFallback || fallback.None? then FALLBACK_WALK else FRESH_WALK
  {
  }

  ghost function WalkCredit(env: Env): nat {
    if env.snapshot.FirmwareMoved? then FRESH_WALK else 0
  }

  lemma DoneSpends(job: Job, done: Job, queued: seq<Job>, credit: nat)
    requires done.device == job.device && JobWork(done) == 0 && StoredWork(queued, job.device) + 1 <= JobWork(job) + credit
    ensures Spends(job, Effect(done, queued), credit)
  {
  }

  lemma FinishedWalk(job: Job, fault: Fault)
    requires job.kind.ParameterDiscovery?
    ensures JobWork(MarkSuccess(job)) == 0 && JobWork(MarkFailed(job, fault)) == 0
  {
  }

  lemma FinishSpends(job: Job, w: Walk, env: Env, otherWalk: bool)
    requires job.status.RpcSent? && job.kind.ParameterDiscovery? && JobWork(job) >= 5
    ensures Spends(job, Finish(job, w, env, otherWalk), WalkCredit(env))
  {
    FinishedWalk(job, DiscoveryFailed);
    match env.snapshot
    case Saved =>
      NewReadsWork(job.device, env);
      DoneSpends(job, MarkSuccess(job), if w.root == ROOT_DEVICE2 then NewReads(job.device, env) else [], 0);
    case StoreError => DoneSpends(job, MarkFailed(job, DiscoveryFailed), [], 0);
    case FirmwareMoved =>
      FreshWalkWork(job.device, ROOT_DEVICE2, Some(ROOT_IGD1), false, true);
      DoneSpends(job, MarkFailed(job, DiscoveryFailed),
                 if otherWalk then [] else [WalkJob(job.device, FreshWalk(ROOT_DEVICE2, Some(ROOT_IGD1), false, true))], FRESH_WALK);
  }

  lemma ProceedSpends(job: Job, progress: Progress, env: Env, otherWalk: bool)
    requires job.status.RpcSent? && job.kind.ParameterDiscovery? && JobWork(job) >= 5
    requires progress.More? ==> WalkWork(progress.walk) + 2 <= JobWork(job)
    ensures Spends(job, Proceed(job, progress, env, otherWalk), WalkCredit(env))
  {
    if progress.Finished? {
      FinishSpends(job, progress.walk, env, otherWalk);
    }
  }

  lemma NamesSpend(job: Job, w: Walk, progress: Progress, env: Env, otherWalk: bool)
    requires job.status.RpcSent? && job.kind.ParameterDiscovery? && JobWork(job) >= 5
    requires w.incremental && progress.More? ==> WalkWork(progress.walk) + 2 <= JobWork(job)
    ensures Spends(job, TakeNames(job, w, progress, env, otherWalk), WalkCredit(env))
  {
    if w.merge {
      assert JobWork(FinishMerge(job, env)) == 0;
    } else if w.incremental {
      ProceedSpends(job, progress, env, otherWalk);
    } else {
      FinishSpends(job, w, env, otherWalk);
    }
  }

  lemma NothingFoundSpends(job: Job, w: Walk)
    requires job.status.RpcSent? && job.kind.ParameterDiscovery? && job.payload == Discover(w)
    ensures Spends(job, NothingFound(job, w), 0)
  {
  }

  lemma TakeShortensWalk(w: Walk, a: Answer)
    requires Sound(w) && w.incremental && Take(w, a).More?
    ensures WalkWork(Take(w, a).walk) + 2 <= WalkWork(w)
  {
    TakeDecreases(w, a);
    StepsLeftPositive(Take(w, a).walk);
    CursorSet(w, a);
  }

  lemma CursorSet(w: Walk, a: Answer)
    requires Take(w, a).More?
    ensures Take(w, a).walk.cursor.Some? && Take(w, a).walk.incremental == w.incremental
  {
  }

  lemma WalkWorkAtLeast(w: Walk)
    requires Sound(w)
    ensures WalkWork(w) >= 5
  {
    StepsLeftPositive(w);
  }

  /** Whatever an incremental walk does next, it gets shorter. */
  ghost predicate Shortens(w: Walk, next: Progress) {
    w.incremental && next.More? ==> WalkWork(next.walk) + 2 <= WalkWork(w)
  }

  lemma DiscoveryStepSpends(job: Job, w: Walk, body: Body, skipped: Progress, advanced: Progress, env: Env, otherWalk: bool)
    requires job.status.RpcSent? && job.kind.ParameterDiscovery? && job.payload == Discover(w)
    requires WalkWork(w) >= 5 && Shortens(w, skipped) && Shortens(w, advanced)
    ensures Spends(job, DiscoveryStep(job, w, body, skipped, advanced, env, otherWalk), WalkCredit(env))
  {
    if w.incremental && w.cursor.Some? && body.fault.Some? {
      ProceedSpends(job, skipped, env, otherWalk);
    } else if body.fault.Some? || body.names.None? || (body.names.value == [] && w.cursor.None?) {
      NothingFoundSpends(job, w);
    } else {
      NamesSpend(job, w, advanced, env, otherWalk);
    }
  }

  lemma AdvancedShorter(w: Walk, body: Body, env: Env)
    requires Sound(w) && w.incremental && NamesProgress(w, body, env).More?
    ensures WalkWork(NamesProgress(w, body, env).walk) + 2 <= WalkWork(w)
  {
    TakeShortensWalk(w, Names(WritableByName(body.names.value)));
  }

  lemma SkippedShorter(w: Walk)
    requires Sound(w) && w.incremental && SkipCursor(w).More?
    ensures WalkWork(SkipCursor(w).walk) + 2 <= WalkWork(w)
  {
    TakeShortensWalk(w, Failure);
  }

  lemma WalkShortens(w: Walk, body: Body, env: Env)
    requires Sound(w)
    ensures WalkWork(w) >= 5 && Shortens(w, SkipCursor(w)) && Shortens(w, NamesProgress(w, body, env))
  {
    WalkWorkAtLeast(w);
    if w.incremental && SkipCursor(w).More? {
      SkippedShorter(w);
    }
    if w.incremental && NamesProgress(w, body, env).More? {
      AdvancedShorter(w, body, env);
    }
  }

  lemma DiscoverySpends(job: Job, body: Body, env: Env, otherWalk: bool)
    requires job.status.RpcSent? && job.kind.ParameterDiscovery? && Renderable(job) && Healthy(job)
    ensures Spends(job, CompleteDiscovery(job, body, env, otherWalk), WalkCredit(env))
  {
    var w := job.payload.walk;
    WalkShortens(w, body, env);
    DiscoveryStepSpends(job, w, body, SkipCursor(w), NamesProgress(w, body, env), env, otherWalk);
  }

  lemma ProceedHealthy(job: Job, progress: Progress, env: Env, otherWalk: bool)
    requires Healthy(job) && (progress.More? ==> Sound(progress.walk))
    ensures StaysHealthy(Proceed(job, progress, env, otherWalk))
  {
  }

  lemma SkipHealthy(job: Job, env: Env, otherWalk: bool)
    requires Healthy(job) && job.payload.Discover?
    ensures StaysHealthy(SkipObject(job, job.payload.walk, env, otherWalk))
  {
    TakeDecreases(job.payload.walk, Failure);
    ProceedHealthy(job, SkipCursor(job.payload.walk), env, otherWalk);
  }

  lemma NamesHealthy(job: Job, w: Walk, progress: Progress, env: Env, otherWalk: bool)
    requires Healthy(job) && (progress.More? ==> Sound(progress.walk))
    ensures StaysHealthy(TakeNames(job, w, progress, env, otherWalk))
  {
    if !w.merge && w.incremental {
      ProceedHealthy(job, progress, env, otherWalk);
    } else if !w.merge {
      FinishHealthy(job, w, env, otherWalk);
    }
  }

  lemma FinishHealthy(job: Job, w: Walk, env: Env, otherWalk: bool)
    requires Healthy(job)
    ensures StaysHealthy(Finish(job, w, env, otherWalk))
  {
  }

  lemma NothingFoundHealthy(job: Job, w: Walk)
    requires Healthy(job)
    ensures StaysHealthy(NothingFound(job, w))
  {
  }

  lemma DiscoveryHealthy(job: Job, body: Body, env: Env, otherWalk: bool)
    requires Healthy(job) && job.payload.Discover?
    ensures StaysHealthy(CompleteDiscovery(job, body, env, otherWalk))
  {
    var w := job.payload.walk;
    TakeDecreases(w, Failure);
    if body.names.Some? {
      TakeDecreases(w, Names(WritableByName(body.names.value)));
    }
    DiscoveryStepHealthy(job, w, body, SkipCursor(w), NamesProgress(w, body, env), env, otherWalk);
  }

  lemma DiscoveryStepHealthy(job: Job, w: Walk, body: Body, skipped: Progress, advanced: Progress, env: Env, otherWalk: bool)
    requires Healthy(job) && (skipped.More? ==> Sound(skipped.walk)) && (advanced.More? ==> Sound(advanced.walk))
    ensures StaysHealthy(DiscoveryStep(job, w, body, skipped, advanced, env, otherWalk))
  {
    ProceedHealthy(job, skipped, env, otherWalk);
    NothingFoundHealthy(job, w);
    NamesHealthy(job, w, advanced, env, otherWalk);
  }

  lemma WriteSpends(job: Job, body: Body, env: Env)
    requires job.status.RpcSent? && job.kind.SetParameter? && Renderable(job) && body.fault.None?
    ensures Spends(job, CompleteWrite(job, body, env), AnswerCredit(job, body, env)) && StaysHealthy(CompleteWrite(job, body, env))
  {
  }

  /** Every other type waits for one answer and then stands for at most the confirmation of a firmware download. */
  lemma SimpleSpends(job: Job, body: Body)
    requires job.status.RpcSent? && Renderable(job) && !job.kind.ParameterDiscovery? && !job.kind.SetParameter?
    ensures Spends(job, Effect(CompleteSimple(job, body), []), 0)
  {
  }

  lemma ReadSpends(job: Job, body: Body)
    requires job.status.RpcSent? && job.kind.GetParameter?
    ensures Spends(job, Effect(CompleteRead(job, body), []), 0)
  {
  }

  lemma DiagnosticLands(job: Job, body: Body, env: Env)
    ensures var done := CompleteDiagnostic(job, body, env);
            && (done.Terminal() || done.status.AwaitingDiagnostics?) && done.kind == job.kind
            && done.device == job.device && done.payload == job.payload
  {
  }

  lemma DiagnosticSpends(job: Job, body: Body, env: Env)
    requires job.status.RpcSent? && IsDiagnostic(job.kind)
    ensures Spends(job, Effect(CompleteDiagnostic(job, body, env), []), 0)
  {
  }

  lemma FaultSpends(job: Job, code: Text)
    requires job.status.RpcSent? && Renderable(job) && !job.kind.ParameterDiscovery?
    ensures Spends(job, Effect(MarkFailed(job, Reported(code)), []), 0)
  {
  }

  lemma AnswerSpends(job: Job, body: Body, env: Env, otherWalk: bool)
    requires job.status.RpcSent? && Renderable(job) && Healthy(job)
    ensures Spends(job, Complete(job, body, env, otherWalk), AnswerCredit(job, body, env))
  {
    if job.kind.ParameterDiscovery? {
      DiscoverySpends(job, body, env, otherWalk);
    } else if body.fault.Some? {
      FaultSpends(job, body.fault.value);
    } else if job.kind.SetParameter? {
      WriteSpends(job, body, env);
    } else if IsDiagnostic(job.kind) {
      DiagnosticSpends(job, body, env);
    } else if job.kind.GetParameter? {
      ReadSpends(job, body);
    } else {
      SimpleSpends(job, body);
    }
  }

  lemma AnswerHealthy(job: Job, body: Body, env: Env, otherWalk: bool)
    requires job.status.RpcSent? && Renderable(job) && Healthy(job)
    ensures StaysHealthy(Complete(job, body, env, otherWalk))
  {
    if job.kind.ParameterDiscovery? {
      DiscoveryHealthy(job, body, env, otherWalk);
    } else if body.fault.None? && job.kind.SetParameter? {
      WriteSpends(job, body, env);
    } else if IsDiagnostic(job.kind) {
      DiagnosticLands(job, body, env);
    }
  }

  lemma SettleWork(s: Store, id: JobId, e: Effect, credit: nat)
    requires id < |s.jobs| && Spends(s.jobs[id], e, credit)
    ensures StoredWork(Settle(s, id, e).jobs, s.jobs[id].device) + 1 <= StoredWork(s.jobs, s.jobs[id].device) + credit
  {
    WorkUpdate(s.jobs, id, e.job, s.jobs[id].device);
    WorkAppend(s.jobs[id := e.job], e.queued, s.jobs[id].device);
  }

  lemma SettleHealthy(s: Store, id: JobId, e: Effect)
    requires id < |s.jobs| && AllHealthy(s.jobs) && StaysHealthy(e)
    ensures AllHealthy(Settle(s, id, e).jobs)
  {
  }

  /** Sending a queued job uses up one unit; a job rejected on the way is finished. */
  lemma PrepareSpends(job: Job, env: Env)
    requires job.status.Queued? && SessionDispatchable(job.kind) && Healthy(job)
    ensures JobWork(Prepare(Leased(job), env).job) + 1 <= JobWork(job)
    ensures Healthy(Prepare(Leased(job), env).job) && Prepare(Leased(job), env).job.device == job.device
  {
  }

  lemma ConfigWork(device: DeviceId, writes: seq<seq<ParameterWrite>>)
    ensures StoredWork(ConfigJobs(device, writes), device) <= CONFIG_WRITE * |writes|
    ensures AllHealthy(ConfigJobs(device, writes))
  {
  }

  function OpenBit(s: Store, sid: SessionId): nat {
    if sid < |s.sessions| && !s.sessions[sid].closed then 1 else 0
  }

  /** Leasing the row at `id` uses up one unit of work. */
  lemma LeaseSpends(jobs: seq<Job>, id: JobId, job: Job, env: Env)
    requires id < |jobs| && AllHealthy(jobs) && jobs[id].status.Queued? && SessionDispatchable(jobs[id].kind)
    requires job == Prepare(Leased(jobs[id]), env).job
    ensures StoredWork(jobs[id := job], jobs[id].device) + 1 <= StoredWork(jobs, jobs[id].device) && AllHealthy(jobs[id := job])
  {
    assert Healthy(jobs[id]);
    PrepareSpends(jobs[id], env);
    WorkUpdate(jobs, id, job, jobs[id].device);
  }

  /** The store in which SendNext looks for a job: onboarding may have queued its configuration. */
  ghost function ReadyJobs(s: Store, sid: SessionId, env: Env): seq<Job>
    requires sid < |s.sessions|
  {
    var device := s.sessions[sid].device;
    if NextQueued(s.jobs, device).Some? then s.jobs else s.jobs + ConfigJobs(device, env.configure)
  }

  lemma ReadyWork(s: Store, sid: SessionId, env: Env)
    requires sid < |s.sessions| && AllHealthy(s.jobs)
    ensures AllHealthy(ReadyJobs(s, sid, env))
    ensures StoredWork(ReadyJobs(s, sid, env), s.sessions[sid].device)
         <= StoredWork(s.jobs, s.sessions[sid].device) + CONFIG_WRITE * |env.configure|
  {
    var device := s.sessions[sid].device;
    ConfigWork(device, env.configure);
    WorkAppend(s.jobs, ConfigJobs(device, env.configure), device);
  }

  /** SendNext leases the oldest job there, or closes the session. */
  lemma SentOrClosed(s: Store, sid: SessionId, ready: seq<Job>, env: Env)
    requires sid < |s.sessions| && ready == ReadyJobs(s, sid, env)
    ensures var t := SendNext(s, sid, env).0;
            match NextQueued(ready, s.sessions[sid].device)
            case None => t.jobs == ready && OpenBit(t, sid) == 0
            case Some(id) => t.jobs == ready[id := Prepare(Leased(ready[id]), env).job]
  {
  }

  /** Leasing or closing uses up one unit of work or of the session, whatever onboarding adds. */
  lemma SendNextSpends(s: Store, sid: SessionId, env: Env)
    requires sid < |s.sessions| && !s.sessions[sid].closed && AllHealthy(s.jobs)
    ensures var t := SendNext(s, sid, env).0;
            && StoredWork(t.jobs, s.sessions[sid].device) + OpenBit(t, sid) + 1
               <= StoredWork(s.jobs, s.sessions[sid].device) + 1 + CONFIG_WRITE * |env.configure|
            && AllHealthy(t.jobs)
  {
    var ready := ReadyJobs(s, sid, env);
    ReadyWork(s, sid, env);
    SentOrClosed(s, sid, ready, env);
    var next := NextQueued(ready, s.sessions[sid].device);
    if next.Some? {
      LeaseSpends(ready, next.value, Prepare(Leased(ready[next.value]), env).job, env);
    }
  }

  ghost function CurrentCredit(s: Store, sid: SessionId, body: Body, env: Env): nat
    requires sid < |s.sessions|
  {
    var session := s.sessions[sid];
    if session.current.Some? && InFlightOf(s, session.device, session.current.value)
    then AnswerCredit(s.jobs[session.current.value], body, env) else 0
  }

  lemma AnswerCurrentSpends(s: Store, sid: SessionId, body: Body, env: Env)
    requires sid < |s.sessions| && AllHealthy(s.jobs)
    ensures var t := AnswerCurrent(s, sid, body, env);
            && StoredWork(t.jobs, s.sessions[sid].device) <= StoredWork(s.jobs, s.sessions[sid].device) + CurrentCredit(s, sid, body, env)
            && AllHealthy(t.jobs)
            && |t.sessions| == |s.sessions| && t.sessions[sid].device == s.sessions[sid].device
            && t.sessions[sid].closed == s.sessions[sid].closed
  {
    var session := s.sessions[sid];
    if session.current.Some? && InFlightOf(s, session.device, session.current.value) {
      var id := session.current.value;
      var other := OtherWalk(s.jobs, id, session.device);
      assert Healthy(s.jobs[id]);
      AnswerSpends(s.jobs[id], body, env, other);
      AnswerHealthy(s.jobs[id], body, env, other);
      SettleWork(s, id, Complete(s.jobs[id], body, env, other), AnswerCredit(s.jobs[id], body, env));
      SettleHealthy(s, id, Complete(s.jobs[id], body, env, other));
    }
  }

  lemma DispatchSpends(s: Store, sid: SessionId, body: Body, env: Env)
    requires sid < |s.sessions| && !s.sessions[sid].closed && AllHealthy(s.jobs)
    ensures var t := Dispatch(s, sid, body, env).0;
            && StoredWork(t.jobs, s.sessions[sid].device) + OpenBit(t, sid) + 1
               <= StoredWork(s.jobs, s.sessions[sid].device) + 1 + CurrentCredit(s, sid, body, env) + CONFIG_WRITE * |env.configure|
            && AllHealthy(t.jobs)
  {
    AnswerCurrentSpends(s, sid, body, env);
    SendNextSpends(AnswerCurrent(s, sid, body, env), sid, env);
  }

  lemma TransferSpends(job: Job, fault: Option<Text>)
    ensures var e := CompleteTransfer(job, fault);
            JobWork(e.job) + StoredWork(e.queued, job.device) <= JobWork(job) && e.job.device == job.device
  {
  }

  /** Work queued from outside: a walk it carries is one that could have been reached from a fresh walk. */
  ghost predicate SoundWork(work: Work) {
    work.payload.Discover? ==> Sound(work.payload.walk)
  }

  ghost predicate SoundStep(step: Step) {
    match step
    case InformStep(_, _, _, _, before, after) =>
      && (forall i :: 0 <= i < |before| ==> SoundWork(before[i]))
      && (forall i :: 0 <= i < |after| ==> SoundWork(after[i]))
    case EnqueueStep(_, work) => SoundWork(work)
    case _ => true
  }

  lemma RecoverWalkHealthy(before: Store, device: DeviceId, i: JobId, env: Env)
    requires i < |before.jobs| && AllHealthy(before.jobs)
    ensures AllHealthy(RecoverWalk(before, device, i, env).jobs)
  {
    var job := before.jobs[i];
    if InFlightWalk(job, device) && !LeftToReaper(job.payload) {
      var other := OtherWalk(before.jobs, i, device);
      assert Healthy(job);
      SkipHealthy(job, env, other);
      SettleHealthy(before, i, SkipObject(job, job.payload.walk, env, other));
    }
  }

  lemma {:induction false} RecoverWalksHealthy(s: Store, device: DeviceId, n: nat, env: Env)
    requires n <= |s.jobs| && AllHealthy(s.jobs)
    ensures AllHealthy(RecoverWalks(s, device, n, env).jobs)
  {
    if n > 0 {
      RecoverWalksHealthy(s, device, n - 1, env);
      var before := RecoverWalks(s, device, n - 1, env);
      RecoverWalksStep(s, device, n, env);
      RecoverWalkHealthy(before, device, n - 1, env);
    }
  }

  lemma RecoverRowHealthy(job: Job, id: JobId, device: DeviceId, events: Events, env: Env)
    requires Healthy(job)
    ensures Healthy(ReleaseRow(RecoverRow(job, id, device, events, env), device))
  {
    RecoverKeepsPayload(job, id, device, events, env);
  }

  lemma RecoverKeepsPayload(job: Job, id: JobId, device: DeviceId, events: Events, env: Env)
    ensures var after := ReleaseRow(RecoverRow(job, id, device, events, env), device);
            after.payload == job.payload && after.kind == job.kind && (after.status.RpcSent? ==> job.status.RpcSent?)
  {
  }

  lemma InformHealthy(s: Store, device: DeviceId, events: Events, env: Env, before: seq<Work>, after: seq<Work>)
    requires AllHealthy(s.jobs)
    requires forall i :: 0 <= i < |before| ==> SoundWork(before[i])
    requires forall i :: 0 <= i < |after| ==> SoundWork(after[i])
    ensures AllHealthy(OpenAndRecover(s, device, events, env, before, after).jobs)
  {
    var begun := s.(jobs := s.jobs + Rows(device, before), sessions := s.sessions + [Session(device, false, None)]);
    RecoverWalksHealthy(begun, device, |begun.jobs|, env);
    var walked := RecoverWalks(begun, device, |begun.jobs|, env);
    var t := OpenAndRecover(s, device, events, env, before, after);
    forall j | 0 <= j < |t.jobs| ensures Healthy(t.jobs[j]) {
      if j < |walked.jobs| {
        RecoverRowHealthy(walked.jobs[j], j, device, events, env);
      }
    }
  }

  lemma ReapHealthy(s: Store, stale: set<JobId>)
    requires AllHealthy(s.jobs)
    ensures AllHealthy(Reap(s, stale).jobs)
  {
    forall j | 0 <= j < |s.jobs| ensures Healthy(Reap(s, stale).jobs[j]) {
      assert Healthy(s.jobs[j]);
    }
  }

  lemma TransferHealthy(s: Store, id: JobId, fault: Option<Text>)
    requires AllHealthy(s.jobs) && id < |s.jobs|
    ensures AllHealthy(Settle(s, id, CompleteTransfer(s.jobs[id], fault)).jobs)
    ensures StoredWork(Settle(s, id, CompleteTransfer(s.jobs[id], fault)).jobs, s.jobs[id].device) <= StoredWork(s.jobs, s.jobs[id].device)
  {
    var e := CompleteTransfer(s.jobs[id], fault);
    TransferSpends(s.jobs[id], fault);
    WorkUpdate(s.jobs, id, e.job, s.jobs[id].device);
    WorkAppend(s.jobs[id := e.job], e.queued, s.jobs[id].device);
    assert Healthy(s.jobs[id]);
    SettleHealthy(s, id, e);
  }

  lemma StepHealthy(s: Store, step: Step)
    requires AllHealthy(s.jobs) && SoundStep(step)
    ensures AllHealthy(Next(s, step).0.jobs)
  {
    match step
    case InformStep(key, events, bound, env, before, after) =>
      if key.Some? && InformAdmitted(s, key.value, bound) {
        InformHealthy(Registered(s, key.value),
                      DeviceOf(s, key.value), events, env, before, after);
      }
    case PostStep(cookie, body, bound, env) =>
      if Serves(s, step) {
        DispatchSpends(s, cookie.value, body, env);
      }
    case TransferStep(job, fault, bound) =>
      if job.Some? && job.value < |s.jobs| {
        TransferHealthy(s, job.value, fault);
      }
    case EnqueueStep(_, _) =>
    case ReapStep(stale) => ReapHealthy(s, stale);
  }

  /** What expired leases put back: the work each stale row of the device stands for more than before. */
  ghost function Requeued(jobs: seq<Job>, stale: set<JobId>, device: DeviceId): nat {
    if jobs == [] then 0
    else
      var n := |jobs| - 1;
      Requeued(jobs[..n], stale, device) + if jobs[n].device == device && n in stale then ReapCredit(jobs[n]) else 0
  }

  ghost function ReapCredit(job: Job): nat {
    if JobWork(Reaped(job)) > JobWork(job) then JobWork(Reaped(job)) - JobWork(job) else 0
  }

  /** For a row a session sent that is one unit when it is queued again, and nothing when it is given up. */
  lemma ReapCostsOne(job: Job)
    requires !job.status.InProgress?
    ensures ReapCredit(job) <= 1 && (ReapCredit(job) == 1 ==> Reaped(job).status.Queued? && !job.status.Queued?)
  {
  }

  lemma {:induction false} ReapWork(s: Store, stale: set<JobId>, device: DeviceId, n: nat)
    requires n <= |s.jobs|
    ensures StoredWork(Reap(s, stale).jobs[..n], device) <= StoredWork(s.jobs[..n], device) + Requeued(s.jobs[..n], stale, device)
  {
    if n > 0 {
      ReapWork(s, stale, device, n - 1);
      assert Reap(s, stale).jobs[..n][..n - 1] == Reap(s, stale).jobs[..n - 1] && s.jobs[..n][..n - 1] == s.jobs[..n - 1];
    }
  }

  lemma ReapStepSpends(s: Store, step: Step, sid: SessionId, device: DeviceId)
    requires Holds(s, sid, device) && step.ReapStep?
    ensures var t := Next(s, step).0;
            && StoredWork(t.jobs, device) <= StoredWork(s.jobs, device) + StepCredit(s, step, device)
            && OpenBit(t, sid) == OpenBit(s, sid) && Holds(t, sid, device)
  {
    ReapHealthy(s, step.stale);
    ReapWork(s, step.stale, device, |s.jobs|);
    assert Reap(s, step.stale).jobs[..|s.jobs|] == Reap(s, step.stale).jobs && s.jobs[..|s.jobs|] == s.jobs;
  }

  /** The device does not open another session. */
  ghost predicate Quiet(s: Store, step: Step, device: DeviceId) {
    && SoundStep(step)
    && !(step.InformStep? && step.key.Some? && Lookup(s.devices, step.key.value) == Some(device))
  }

  /** What one step may add to the device's work from outside. */
  ghost function StepCredit(s: Store, step: Step, device: DeviceId): nat {
    match step
    case PostStep(cookie, body, bound, env) =>
      if Serves(s, step) && s.sessions[cookie.value].device == device
      then CurrentCredit(s, cookie.value, body, env) + CONFIG_WRITE * |env.configure| else 0
    case EnqueueStep(target, work) => if target == device then JobWork(Rows(device, [work])[0]) else 0
    case ReapStep(stale) => Requeued(s.jobs, stale, device)
    case _ => 0
  }

  /** 1 when the step is a POST served on the session. */
  ghost function Turn(s: Store, step: Step, sid: SessionId): nat {
    if Serves(s, step) && step.cookie == Some(sid) then 1 else 0
  }

  ghost predicate Holds(s: Store, sid: SessionId, device: DeviceId) {
    device < |s.devices| && sid < |s.sessions| && s.sessions[sid].device == device && AllHealthy(s.jobs)
  }

  lemma PostSpends(s: Store, step: Step, sid: SessionId, device: DeviceId)
    requires Holds(s, sid, device) && step.PostStep? && Serves(s, step)
    ensures var t := Next(s, step).0;
            && Turn(s, step, sid) + StoredWork(t.jobs, device) + OpenBit(t, sid)
               <= StoredWork(s.jobs, device) + OpenBit(s, sid) + StepCredit(s, step, device)
            && Holds(t, sid, device)
  {
    var cookie := step.cookie.value;
    var target := s.sessions[cookie].device;
    var t := Next(s, step).0;
    DispatchSpends(s, cookie, step.body, step.postEnv);
    SessionsKept(s, cookie, step.body, step.postEnv, sid);
    if target != device {
      DispatchConfined(s, cookie, step.body, step.postEnv);
      ElsewhereUnchanged(s.jobs, t.jobs, target, device);
    }
  }

  /** Dispatch touches the session it serves and no other. */
  lemma SessionsKept(s: Store, cookie: SessionId, body: Body, env: Env, sid: SessionId)
    requires cookie < |s.sessions| && sid < |s.sessions|
    ensures var t := Dispatch(s, cookie, body, env).0;
            && t.devices == s.devices && |t.sessions| == |s.sessions| && t.sessions[sid].device == s.sessions[sid].device
            && (sid != cookie ==> t.sessions[sid] == s.sessions[sid])
  {
    DispatchSession(s, cookie, body, env);
  }

  lemma InformElsewhere(s: Store, step: Step, sid: SessionId, device: DeviceId)
    requires Holds(s, sid, device) && step.InformStep? && Quiet(s, step, device)
    ensures var t := Next(s, step).0;
            StoredWork(t.jobs, device) == StoredWork(s.jobs, device) && OpenBit(t, sid) == OpenBit(s, sid) && Holds(t, sid, device)
  {
    StepHealthy(s, step);
    DevicesGrow(s, step);
    if step.key.Some? && InformAdmitted(s, step.key.value, step.informer) {
      var registered := Registered(s, step.key.value);
      var other := DeviceOf(s, step.key.value);
      InformConfined(registered, other, step.events, step.informEnv, step.before, step.after);
      ElsewhereUnchanged(s.jobs, Next(s, step).0.jobs, other, device);
      WalksTouchJobsOnly(registered.(jobs := registered.jobs + Rows(other, step.before), sessions := s.sessions + [Session(other, false, None)]),
                         other, |registered.jobs + Rows(other, step.before)|, step.informEnv);
    }
  }

  lemma TransferAnywhere(s: Store, id: JobId, fault: Option<Text>, device: DeviceId)
    requires AllHealthy(s.jobs) && id < |s.jobs|
    ensures AllHealthy(Settle(s, id, CompleteTransfer(s.jobs[id], fault)).jobs)
    ensures StoredWork(Settle(s, id, CompleteTransfer(s.jobs[id], fault)).jobs, device) <= StoredWork(s.jobs, device)
  {
    TransferHealthy(s, id, fault);
    if s.jobs[id].device != device {
      SettleConfined(s, id, CompleteTransfer(s.jobs[id], fault));
      ElsewhereUnchanged(s.jobs, Settle(s, id, CompleteTransfer(s.jobs[id], fault)).jobs, s.jobs[id].device, device);
    }
  }

  lemma TransferStepSpends(s: Store, step: Step, sid: SessionId, device: DeviceId)
    requires Holds(s, sid, device) && step.TransferStep?
    ensures var t := Next(s, step).0;
            StoredWork(t.jobs, device) <= StoredWork(s.jobs, device) && OpenBit(t, sid) == OpenBit(s, sid) && Holds(t, sid, device)
  {
    if step.job.Some? && step.job.value < |s.jobs| {
      TransferAnywhere(s, step.job.value, step.fault, device);
    }
  }

  lemma EnqueueStepSpends(s: Store, step: Step, sid: SessionId, device: DeviceId)
    requires Holds(s, sid, device) && step.EnqueueStep? && SoundStep(step)
    ensures var t := Next(s, step).0;
            && StoredWork(t.jobs, device) <= StoredWork(s.jobs, device) + StepCredit(s, step, device)
            && OpenBit(t, sid) == OpenBit(s, sid) && Holds(t, sid, device)
  {
  }

  /** One step: serving a POST costs a unit of work or closes the session. */
  lemma StepSpends(s: Store, step: Step, sid: SessionId, device: DeviceId)
    requires Holds(s, sid, device) && Quiet(s, step, device)
    ensures var t := Next(s, step).0;
            && Turn(s, step, sid) + StoredWork(t.jobs, device) + OpenBit(t, sid)
               <= StoredWork(s.jobs, device) + OpenBit(s, sid) + StepCredit(s, step, device)
            && Holds(t, sid, device)
  {
    match step
    case InformStep(_, _, _, _, _, _) => InformElsewhere(s, step, sid, device);
    case PostStep(_, _, _, _) =>
      if Serves(s, step) {
        PostSpends(s, step, sid, device);
      }
    case TransferStep(_, _, _) => TransferStepSpends(s, step, sid, device);
    case EnqueueStep(_, _) => EnqueueStepSpends(s, step, sid, device);
    case ReapStep(_) => ReapStepSpends(s, step, sid, device);
  }

  ghost predicate QuietRun(s: Store, steps: seq<Step>, device: DeviceId) {
    steps == [] || (QuietRun(s, steps[..|steps| - 1], device) && Quiet(Run(s, steps[..|steps| - 1]), steps[|steps| - 1], device))
  }

  ghost function Served(s: Store, steps: seq<Step>, sid: SessionId): nat {
    if steps == [] then 0
    else Served(s, steps[..|steps| - 1], sid) + Turn(Run(s, steps[..|steps| - 1]), steps[|steps| - 1], sid)
  }

  ghost function Credit(s: Store, steps: seq<Step>, device: DeviceId): nat {
    if steps == [] then 0
    else Credit(s, steps[..|steps| - 1], device) + StepCredit(Run(s, steps[..|steps| - 1]), steps[|steps| - 1], device)
  }

  /**
   The POSTs served on a session, plus what is left to do, never exceed the work
   stored for its device when the count started, one closing POST, and the credit
   earned on the way, as long as the device opens no other session; other devices may do
   what they like in between, and leases may expire.
   */
  lemma {:induction false} SessionBudget(s: Store, steps: seq<Step>, sid: SessionId, device: DeviceId)
    requires Holds(s, sid, device) && QuietRun(s, steps, device)
    ensures var t := Run(s, steps);
            && Served(s, steps, sid) + StoredWork(t.jobs, device) + OpenBit(t, sid)
               <= StoredWork(s.jobs, device) + OpenBit(s, sid) + Credit(s, steps, device)
            && Holds(t, sid, device)
  {
    if steps != [] {
      var n := |steps| - 1;
      SessionBudget(s, steps[..n], sid, device);
      StepSpends(Run(s, steps[..n]), steps[n], sid, device);
    }
  }

  ghost predicate Reached(s: Store) {
    AllHealthy(s.jobs) && forall i :: 0 <= i < |s.sessions| ==> s.sessions[i].device < |s.devices|
  }

  lemma {:induction false} RunsReach(steps: seq<Step>)
    requires forall i :: 0 <= i < |steps| ==> SoundStep(steps[i])
    ensures Reached(Run(EMPTY, steps))
  {
    if steps != [] {
      var n := |steps| - 1;
      RunsReach(steps[..n]);
      StepHealthy(Run(EMPTY, steps[..n]), steps[n]);
      SessionDevices(Run(EMPTY, steps[..n]), steps[n]);
    }
  }

  lemma SessionDevices(s: Store, step: Step)
    requires forall i :: 0 <= i < |s.sessions| ==> s.sessions[i].device < |s.devices|
    ensures var t := Next(s, step).0; forall i :: 0 <= i < |t.sessions| ==> t.sessions[i].device < |t.devices|
  {
    if step.InformStep? && step.key.Some? && InformAdmitted(s, step.key.value, step.informer) {
      DevicesGrow(s, step);
      var device := DeviceOf(s, step.key.value);
      var registered := Registered(s, step.key.value);
      var begun := registered.(jobs := s.jobs + Rows(device, step.before), sessions := s.sessions + [Session(device, false, None)]);
      WalksTouchJobsOnly(begun, device, |begun.jobs|, step.informEnv);
    } else if Serves(s, step) {
      forall i | 0 <= i < |s.sessions| ensures Next(s, step).0.sessions[i].device == s.sessions[i].device {
        SessionsKept(s, step.cookie.value, step.body, step.postEnv, i);
      }
    }
  }

  /** Nothing is added from outside: no new job, no job put back, no configuration, no firmware change, no restarted read-back. */
  ghost predicate AddsNothing(s: Store, step: Step, device: DeviceId) {
    && (step.EnqueueStep? ==> step.device != device)
    && (step.ReapStep? ==> Requeued(s.jobs, step.stale, device) == 0)
    && (Serves(s, step) && s.sessions[step.cookie.value].device == device ==>
          && step.postEnv.configure == [] && !step.postEnv.snapshot.FirmwareMoved?
          && (forall id :: s.sessions[step.cookie.value].current == Some(id) && id < |s.jobs| ==> !RestartsReadback(s.jobs[id], step.body)))
  }

  ghost predicate NothingAdded(s: Store, steps: seq<Step>, device: DeviceId) {
    steps == [] || (NothingAdded(s, steps[..|steps| - 1], device) && AddsNothing(Run(s, steps[..|steps| - 1]), steps[|steps| - 1], device))
  }

  lemma {:induction false} NothingAddedNoCredit(s: Store, steps: seq<Step>, device: DeviceId)
    requires NothingAdded(s, steps, device)
    ensures Credit(s, steps, device) == 0
  {
    if steps != [] {
      NothingAddedNoCredit(s, steps[..|steps| - 1], device);
    }
  }

  /**
   A session ends: in every run, from any reachable state, a session of a device that
   opens no other one and to which nothing is added serves at most one POST per unit of
   stored work and one more, and that last POST closes it.
   */
  lemma SessionEnds(history: seq<Step>, steps: seq<Step>, sid: SessionId)
    requires forall i :: 0 <= i < |history| ==> SoundStep(history[i])
    requires sid < |Run(EMPTY, history).sessions|
    requires var s := Run(EMPTY, history);
             QuietRun(s, steps, s.sessions[sid].device) && NothingAdded(s, steps, s.sessions[sid].device)
    ensures var s := Run(EMPTY, history);
            var bound := StoredWork(s.jobs, s.sessions[sid].device) + 1;
            && Served(s, steps, sid) <= bound
            && (Served(s, steps, sid) == bound ==> OpenBit(Run(s, steps), sid) == 0)
  {
    var s := Run(EMPTY, history);
    RunsReach(history);
    SessionBudget(s, steps, sid, s.sessions[sid].device);
    NothingAddedNoCredit(s, steps, s.sessions[sid].device);
  }

  /** A write of one plain parameter that asks to be read back, waiting for the answer to its read-back. */
  function ReadingBack(params: seq<ParameterWrite>, firmware: Text, attempts: nat): Store {
    Store([Text("cpe")],
          [Job(0, SetParameter, RpcSent, Write(params, true, true, {}, Some(firmware)), attempts, DEFAULT_MAX_ATTEMPTS, false, None, None)],
          [Session(0, false, Some(0))])
  }

  /** The CPE answers once more, as if to the write. */
  function AnswerAgain(env: Env): Store -> Store {
    (s: Store) => Next(s, PostStep(Some(0), SILENT.(setValues := true), NO_ONE, env)).0
  }

  function Repeat(next: Store -> Store, s: Store, n: nat): Store {
    if n == 0 then s else next(Repeat(next, s, n - 1))
  }

  lemma RepeatsReadback(params: seq<ParameterWrite>, attempts: nat, env: Env)
    requires VerificationPaths(params, {}) != []
    ensures Next(ReadingBack(params, env.firmware, attempts), PostStep(Some(0), SILENT.(setValues := true), NO_ONE, env)).0
         == ReadingBack(params, env.firmware, attempts + 1)
  {
    var s := ReadingBack(params, env.firmware, attempts);
    var step := PostStep(Some(0), SILENT.(setValues := true), NO_ONE, env);
    var job := s.jobs[0];
    assert Complete(job, step.body, env, OtherWalk(s.jobs, 0, 0)) == Effect(job.(status := Queued), []);
    var answered := AnswerCurrent(s, 0, step.body, env);
    assert answered.jobs == [job.(status := Queued)] && answered.sessions == [Session(0, false, None)];
    NextQueuedIsOldest(answered.jobs, 0, 0);
    assert Prepare(Leased(answered.jobs[0]), env).Ready?;
    assert Prepare(Leased(answered.jobs[0]), env).job == job.(attempts := attempts + 1);
  }

  /** The state is reached by queueing one verified write and answering its SetParameterValues. */
  lemma ReadbackReached(params: seq<ParameterWrite>, env: Env)
    requires VerificationPaths(params, {}) != [] && Openable(params, env.vault) && env.writeOnly == {}
    ensures var inform := InformStep(Some(Text("cpe")), Events({}, false), NO_ONE, env,
                                     [Work(SetParameter, Write(params, true, false, {}, None), DEFAULT_MAX_ATTEMPTS, false)], []);
            var empty := PostStep(Some(0), SILENT, NO_ONE, env);
            var answer := PostStep(Some(0), SILENT.(setValues := true), NO_ONE, env);
            Next(Next(Next(EMPTY, inform).0, empty).0, answer).0 == ReadingBack(params, env.firmware, 2)
  {
    var work := [Work(SetParameter, Write(params, true, false, {}, None), DEFAULT_MAX_ATTEMPTS, false)];
    var inform := InformStep(Some(Text("cpe")), Events({}, false), NO_ONE, env, work, []);
    var queued := NewJob(0, SetParameter, Write(params, true, false, {}, None), DEFAULT_MAX_ATTEMPTS);
    var begun := Next(EMPTY, inform).0;
    FirstInform(Text("cpe"), Events({}, false), env, work[0]);
    NextQueuedIsOldest(begun.jobs, 0, 0);
    var bound := Leased(queued).(payload := Write(params, true, false, {}, Some(env.firmware)));
    var sent := Next(begun, PostStep(Some(0), SILENT, NO_ONE, env)).0;
    assert sent == Store([Text("cpe")], [bound], [Session(0, false, Some(0))]) by {
      assert (set p | p in WrittenPaths(params) && p in env.writeOnly) == {};
      assert Prepare(Leased(queued), env) == Ready(bound, SetValues(Substitute(params, env.vault)));
    }
    WriteAnswered(params, env);
  }

  lemma WriteAnswered(params: seq<ParameterWrite>, env: Env)
    requires VerificationPaths(params, {}) != []
    ensures var bound := Job(0, SetParameter, RpcSent, Write(params, true, false, {}, Some(env.firmware)), 1, DEFAULT_MAX_ATTEMPTS, false, None, None);
            Next(Store([Text("cpe")], [bound], [Session(0, false, Some(0))]), PostStep(Some(0), SILENT.(setValues := true), NO_ONE, env)).0
            == ReadingBack(params, env.firmware, 2)
  {
    var bound := Job(0, SetParameter, RpcSent, Write(params, true, false, {}, Some(env.firmware)), 1, DEFAULT_MAX_ATTEMPTS, false, None, None);
    var s := Store([Text("cpe")], [bound], [Session(0, false, Some(0))]);
    var body := SILENT.(setValues := true);
    var next := bound.(status := Queued, payload := Write(params, true, true, {}, Some(env.firmware)));
    assert Complete(bound, body, env, OtherWalk(s.jobs, 0, 0)) == Effect(next, []);
    var answered := AnswerCurrent(s, 0, body, env);
    assert answered.jobs == [next] && answered.sessions == [Session(0, false, None)];
    NextQueuedIsOldest(answered.jobs, 0, 0);
    assert Prepare(Leased(next), env).Ready?;
    assert Prepare(Leased(next), env).job == Leased(next);
  }

  ghost predicate Chained(next: Store -> Store, states: nat -> Store, k: nat) {
    next(states(k)) == states(k + 1)
  }

  lemma {:induction false} RepeatChain(next: Store -> Store, states: nat -> Store, n: nat)
    requires forall k: nat :: Chained(next, states, k)
    ensures Repeat(next, states(0), n) == states(n)
  {
    if n > 0 {
      RepeatChain(next, states, n - 1);
      assert Chained(next, states, n - 1);
    }
  }

  /**
   Without that condition the claim is false: a CPE that answers the verification read
   with a SetParameterValuesResponse is sent the read again for ever, past every attempt limit.
   */
  lemma RestartedReadbackNeverEnds(params: seq<ParameterWrite>, n: nat, env: Env)
    requires VerificationPaths(params, {}) != []
    ensures Repeat(AnswerAgain(env), ReadingBack(params, env.firmware, 2), n) == ReadingBack(params, env.firmware, 2 + n)
  {
    var states := (k: nat) => ReadingBack(params, env.firmware, 2 + k);
    forall k: nat ensures Chained(AnswerAgain(env), states, k) {
      RepeatsReadback(params, 2 + k, env);
    }
    RepeatChain(AnswerAgain(env), states, n);
  }
}
