/**
 The gateway's handlers as they run: each loads rows, changes them one store
 operation at a time, and replies. Every handler is proved to take the store exactly
 where the state machine of module Gateway says.
 */
module GatewayService {
  import opened Options
  import opened Paths
  import opened Discovery
  import opened Verification
  import opened Jobs
  import opened Gateway

  class Handler {
    var devices: seq<Text>
    var jobs: seq<Job>
    var sessions: seq<Session>

    ghost function Db(): Store
      reads this
    {
      Store(devices, jobs, sessions)
    }

    constructor ()
      ensures Db() == EMPTY
    {
      devices, jobs, sessions := [], [], [];
    }

    /** Store operations: update one row, create one row. */
    method Update(id: JobId, job: Job)
      requires id < |jobs|
      modifies this`jobs
      ensures jobs == old(jobs)[id := job]
    {
      jobs := jobs[id := job];
    }

    method Create(job: Job)
      modifies this`jobs
      ensures jobs == old(jobs) + [job]
    {
      jobs := jobs + [job];
    }

    /** Lease: the oldest queued job a session may send goes to RPC_SENT with one more attempt. */
    method Lease(device: DeviceId) returns (leased: Option<JobId>)
      modifies this`jobs
      ensures leased == NextQueued(old(jobs), device)
      ensures jobs == if leased.Some? then old(jobs)[leased.value := Leased(old(jobs)[leased.value])] else old(jobs)
    {
      leased := None;
      var i := 0;
      while i < |jobs| && leased.None?
        invariant 0 <= i <= |jobs| && jobs == old(jobs)
        invariant leased == NextQueued(jobs[..i], device)
      {
        if Leasable(jobs[i], device) {
          leased := Some(i);
        }
        assert jobs[..i + 1][..i] == jobs[..i];
        i := i + 1;
      }
      if leased.Some? {
        FoundEarly(jobs, i, device);
        Update(leased.value, Leased(jobs[leased.value]));
      } else {
        assert jobs[..i] == jobs;
      }
    }

    method CompleteSetParameter(id: JobId, body: Body, env: Env)
      requires id < |jobs|
      modifies this`jobs
      ensures Db() == Settle(old(Db()), id, CompleteWrite(old(jobs)[id], body, env))
    {
      var job := jobs[id];
      if !body.setValues {
        if job.payload.Write? && job.payload.pending && body.getValues.Some? {
          if !env.evidenceSaved {
            Update(id, MarkFailed(job, EvidenceFailed));
          } else {
            var check := CompareReadback(job.payload.params, job.payload.nonReadable, Dictionary(body.getValues.value));
            Update(id, if check.Success() then MarkSuccess(job) else MarkFailed(job, ReadbackMismatch));
          }
        } else {
          Update(id, MarkFailed(job, UnexpectedResponse));
        }
      } else if WantsReadback(job.payload) {
        Update(id, job.(payload := job.payload.(pending := true), status := Queued));
      } else {
        Update(id, MarkSuccess(job));
        if job.payload.Write? && job.payload.params != [] {
          Create(ReadJob(job.device, WrittenPaths(job.payload.params)));
        }
      }
    }

    method CompleteTest(id: JobId, body: Body, env: Env)
      requires id < |jobs|
      modifies this`jobs
      ensures jobs == old(jobs)[id := CompleteDiagnostic(old(jobs)[id], body, env)]
    {
      var job := jobs[id];
      if !job.Triggered() {
        if body.setValues {
          AwaitTest(id, env);
        } else {
          Update(id, MarkFailed(job, UnexpectedResponse));
        }
      } else if body.getValues.None? {
        Update(id, MarkFailed(job, UnexpectedResponse));
      } else {
        match ClassifyDiagnosticsState(PolledState(job, body))
        case StillPending => AwaitTest(id, env);
        case Completed => Update(id, MarkSuccess(job));
        case Broken => Update(id, MarkFailed(job, DiagnosticFailed));
      }
    }

    method AwaitTest(id: JobId, env: Env)
      requires id < |jobs|
      modifies this`jobs
      ensures jobs == old(jobs)[id := AwaitDiagnostic(old(jobs)[id], env)]
    {
      var job := jobs[id];
      if DiagnosticsExpired(job, env.now) || job.attempts >= job.maxAttempts {
        Update(id, job.(status := TimedOut));
      } else {
        Update(id, SetDeadline(job, env).(status := AwaitingDiagnostics));
      }
    }

    /** finishParameterDiscovery */
    method FinishDiscovery(id: JobId, w: Walk, env: Env)
      requires id < |jobs|
      modifies this`jobs
      ensures Db() == Settle(old(Db()), id, Finish(old(jobs)[id], w, env, OtherWalk(old(jobs), id, old(jobs)[id].device)))
    {
      var job := jobs[id];
      var other := OtherWalk(jobs, id, job.device);
      match env.snapshot
      case StoreError => Update(id, MarkFailed(job, DiscoveryFailed));
      case FirmwareMoved =>
        Update(id, MarkFailed(job, DiscoveryFailed));
        if !other {
          Create(WalkJob(job.device, FreshWalk(ROOT_DEVICE2, Some(ROOT_IGD1), false, true)));
        }
      case Saved =>
        Update(id, MarkSuccess(job));
        if w.root == ROOT_DEVICE2 {
          QueueReads(job.device, env);
        }
    }

    method QueueReads(device: DeviceId, env: Env)
      modifies this`jobs
      ensures jobs == old(jobs) + NewReads(device, env)
    {
      if env.wifiPaths != [] {
        Create(ReadJob(device, env.wifiPaths));
      }
      if env.gatewayPaths != [] {
        Create(ReadJob(device, env.gatewayPaths));
      }
    }

    /** Requeue the walk at its next object, or finish it. */
    method ProceedDiscovery(id: JobId, progress: Progress, env: Env)
      requires id < |jobs|
      modifies this`jobs
      ensures Db() == Settle(old(Db()), id, Proceed(old(jobs)[id], progress, env, OtherWalk(old(jobs), id, old(jobs)[id].device)))
    {
      var job := jobs[id];
      match progress
      case Refused => Update(id, MarkFailed(job, DiscoveryFailed));
      case More(next) => Update(id, job.(payload := Discover(next), status := Queued));
      case Finished(done) => FinishDiscovery(id, done, env);
    }

    /** completeParameterDiscovery */
    method CompleteWalk(id: JobId, body: Body, env: Env)
      requires id < |jobs|
      modifies this`jobs
      ensures Db() == Settle(old(Db()), id, CompleteDiscovery(old(jobs)[id], body, env, OtherWalk(old(jobs), id, old(jobs)[id].device)))
    {
      var job := jobs[id];
      if job.payload.Discover? {
        var w := job.payload.walk;
        if w.incremental && w.cursor.Some? && body.fault.Some? {
          ProceedDiscovery(id, SkipCursor(w), env);
        } else if body.fault.Some? || body.names.None? || (body.names.value == [] && w.cursor.None?) {
          Update(id, MarkFailed(job, DiscoveryFailed));
          if !w.isFallback && w.fallbackRoot.Some? && w.cursor.None? {
            Create(WalkJob(job.device, FreshWalk(w.fallbackRoot.value, None, true, w.incremental)));
          }
        } else {
          CompleteNames(id, w, body.names.value, env);
        }
      }
    }

    method CompleteNames(id: JobId, w: Walk, names: seq<NameEntry>, env: Env)
      requires id < |jobs|
      modifies this`jobs
      ensures var advanced := Advance(w, WritableByName(names));
              Db() == Settle(old(Db()), id, TakeNames(old(jobs)[id], w, advanced, env, OtherWalk(old(jobs), id, old(jobs)[id].device)))
    {
      if w.merge {
        Update(id, FinishMerge(jobs[id], env));
      } else if w.incremental {
        var writable := CollectWritable(names);
        var progress := AdvanceDiscovery(w, writable);
        ProceedDiscovery(id, progress, env);
      } else {
        FinishDiscovery(id, w, env);
      }
    }

    /** The loop that fills writableByName; a name listed twice keeps its last entry. */
    method CollectWritable(names: seq<NameEntry>) returns (writable: map<Path, bool>)
      ensures writable == WritableByName(names)
    {
      writable := map[];
      for i := 0 to |names|
        invariant writable == WritableByName(names[..i])
      {
        writable := writable[names[i].name := names[i].writable];
        assert names[..i + 1][..i] == names[..i];
      }
      assert names[..|names|] == names;
    }

    method CompleteJob(device: DeviceId, id: JobId, body: Body, env: Env)
      modifies this`jobs
      ensures Db() == Gateway.CompleteJob(old(Db()), device, id, body, env)
    {
      if id >= |jobs| || jobs[id].device != device || !jobs[id].status.RpcSent? {
        return;
      }
      var job := jobs[id];
      if job.kind.ParameterDiscovery? {
        CompleteWalk(id, body, env);
      } else if body.fault.Some? {
        Update(id, MarkFailed(job, Reported(body.fault.value)));
      } else if job.kind.SetParameter? {
        CompleteSetParameter(id, body, env);
      } else if job.kind.GetParameter? {
        Update(id, CompleteRead(job, body));
      } else if IsDiagnostic(job.kind) {
        CompleteTest(id, body, env);
      } else if !job.kind.ConnectionRequest? {
        Update(id, CompleteSimple(job, body));
      }
    }

    /** reconcileOnboardingAtSessionEnd: queue each non-empty configuration write. */
    method QueueConfiguration(device: DeviceId, writes: seq<seq<ParameterWrite>>)
      modifies this`jobs
      ensures jobs == old(jobs) + ConfigJobs(device, writes)
    {
      for i := 0 to |writes|
        invariant jobs == old(jobs) + ConfigJobs(device, writes[..i])
      {
        assert writes[..i + 1][..i] == writes[..i];
        if writes[i] != [] {
          Create(NewJob(device, SetParameter, Write(writes[i], true, false, {}, None), DEFAULT_MAX_ATTEMPTS));
        }
      }
      assert writes[..|writes|] == writes;
    }

    method SetCurrentJob(sid: SessionId, current: Option<JobId>)
      requires sid < |sessions|
      modifies this`sessions
      ensures sessions == old(sessions)[sid := old(sessions)[sid].(current := current)]
    {
      sessions := sessions[sid := sessions[sid].(current := current)];
    }

    /** The rest of dispatch: lease, bind, open, render and send, or close. */
    method Send(sid: SessionId, env: Env) returns (reply: Reply)
      requires sid < |sessions|
      modifies this`jobs, this`sessions
      ensures (Db(), reply) == SendNext(old(Db()), sid, env)
    {
      var device := sessions[sid].device;
      ghost var ready := jobs;
      var leased := Lease(device);
      if leased.None? {
        QueueConfiguration(device, env.configure);
        ready := jobs;
        leased := Lease(device);
      }
      if leased.None? {
        sessions := sessions[sid := sessions[sid].(closed := true)];
        return NoContent;
      }
      var id := leased.value;
      SetCurrentJob(sid, Some(id));
      ghost var sent := Prepare(jobs[id], env).job;
      assert jobs[id := sent] == ready[id := sent];
      match Prepare(jobs[id], env)
      case Rejected(job) =>
        Update(id, job);
        reply := NoContent;
      case Ready(job, rpc) =>
        Update(id, job);
        reply := Reply.Send(sid, id, rpc);
    }

    /** Every POST that is neither an Inform nor a TransferComplete. */
    method Dispatch(cookie: Option<SessionId>, body: Body, bound: Identity, env: Env) returns (reply: Reply)
      modifies this`jobs, this`sessions
      ensures (Db(), reply) == Post(old(Db()), cookie, body, bound, env)
    {
      if bound.bootstrapOnly {
        return Forbidden;
      }
      if cookie.None? || cookie.value >= |sessions| || sessions[cookie.value].closed {
        return NoContent;
      }
      var sid := cookie.value;
      var device := sessions[sid].device;
      if bound.credentialDevice.Some? && bound.credentialDevice.value != device {
        return Forbidden;
      }
      if bound.certificateKey.Some? && (device >= |devices| || devices[device] != bound.certificateKey.value) {
        return Forbidden;
      }
      if sessions[sid].current.Some? {
        CompleteJob(device, sessions[sid].current.value, body, env);
        SetCurrentJob(sid, None);
      }
      assert Db() == AnswerCurrent(old(Db()), sid, body, env);
      reply := Send(sid, env);
    }

    method HandleTransferComplete(key: Option<JobId>, fault: Option<Text>, bound: Identity) returns (reply: Reply)
      modifies this`jobs
      ensures (Db(), reply) == TransferComplete(old(Db()), key, fault, bound)
    {
      if bound.bootstrapOnly {
        return Forbidden;
      }
      if key.None? || key.value >= |jobs| {
        return TransferAck;
      }
      var id := key.value;
      var job := jobs[id];
      if bound.credentialDevice.Some? && bound.credentialDevice.value != job.device {
        return Forbidden;
      }
      if bound.certificateKey.Some? && (job.device >= |devices| || devices[job.device] != bound.certificateKey.value) {
        return Forbidden;
      }
      reply := TransferAck;
      if LateReconcilable(job) || job.status.AwaitingTransferComplete? || job.status.RpcSent? {
        if fault.Some? {
          Update(id, MarkFailed(job, Reported(fault.value)));
        } else {
          Update(id, MarkSuccess(job));
          if job.kind.FirmwareDownload? {
            Create(ReadJob(job.device, [Path("Device.DeviceInfo.SoftwareVersion")]));
          }
        }
      }
      assert jobs == Settle(old(Db()), id, CompleteTransfer(job, fault)).jobs;
    }

    /** recoverAbandonedDiscovery: the walks in flight when it starts, oldest first. */
    method RecoverAbandonedDiscovery(device: DeviceId, env: Env)
      modifies this`jobs
      ensures Db() == RecoverWalks(old(Db()), device, |old(jobs)|, env)
    {
      var n := |jobs|;
      for i := 0 to n
        invariant n <= |jobs|
        invariant Db() == RecoverWalks(old(Db()), device, i, env)
      {
        if InFlightWalk(jobs[i], device) && !LeftToReaper(jobs[i].payload) {
          ProceedDiscovery(i, SkipCursor(jobs[i].payload.walk), env);
        }
      }
    }

    method RecoverDroppedSessionJobs(device: DeviceId, events: Events, env: Env)
      modifies this`jobs
      ensures jobs == RecoverDropped(old(jobs), device, events, env)
    {
      for i := 0 to |jobs|
        invariant |jobs| == |old(jobs)|
        invariant forall k :: i <= k < |jobs| ==> jobs[k] == old(jobs)[k]
        invariant forall k :: 0 <= k < i ==> jobs[k] == RecoverRow(old(jobs)[k], k, device, events, env)
      {
        if WasDropped(jobs[i], device) {
          var action := ClassifyDropped(jobs[i], i in events.rebooted, events.diagnosticsComplete);
          Update(i, ApplyDropped(jobs[i], action, env));
        }
      }
    }

    method ReleaseAwaitingDiagnostics(device: DeviceId)
      modifies this`jobs
      ensures jobs == ReleaseDiagnostics(old(jobs), device)
    {
      for i := 0 to |jobs|
        invariant |jobs| == |old(jobs)|
        invariant forall k :: i <= k < |jobs| ==> jobs[k] == old(jobs)[k]
        invariant forall k :: 0 <= k < i ==> jobs[k] == ReleaseRow(old(jobs)[k], device)
      {
        Update(i, ReleaseRow(jobs[i], device));
      }
    }

    method HandleInform(key: Option<Text>, events: Events, bound: Identity, env: Env, before: seq<Work>, after: seq<Work>)
      returns (reply: Reply)
      modifies this
      ensures (Db(), reply) == Inform(old(Db()), key, events, bound, env, before, after)
    {
      if key.None? {
        return BadRequest;
      }
      var known := Lookup(devices, key.value);
      if (bound.bootstrapOnly && known.Some?) || (bound.credentialDevice.Some? && known != bound.credentialDevice)
         || (bound.certificateKey.Some? && bound.certificateKey.value != key.value) {
        return Forbidden;
      }
      var device := if known.Some? then known.value else |devices|;
      if known.None? {
        devices := devices + [key.value];
      }
      jobs := jobs + Rows(device, before);
      reply := InformResponse(|sessions|);
      sessions := sessions + [Session(device, false, None)];
      RecoverAbandonedDiscovery(device, env);
      RecoverDroppedSessionJobs(device, events, env);
      ReleaseAwaitingDiagnostics(device);
      jobs := jobs + Rows(device, after);
    }
  }

  lemma FoundEarly(jobs: seq<Job>, i: nat, device: DeviceId)
    requires i <= |jobs| && NextQueued(jobs[..i], device).Some?
    ensures NextQueued(jobs, device) == NextQueued(jobs[..i], device)
  {
    if i < |jobs| {
      assert jobs[..|jobs| - 1][..i] == jobs[..i];
      FoundEarly(jobs[..|jobs| - 1], i, device);
    } else {
      assert jobs[..i] == jobs;
    }
  }
}
