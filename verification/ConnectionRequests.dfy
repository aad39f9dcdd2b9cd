/**
 The Connection Request worker: wake one CPE over XMPP, HTTP or UDP, then wait for the
 Inform that proves it woke. The network, the cached device state and the arrival of
 Informs are oracles; time is counted in milliseconds.
 */
module ConnectionRequests {
  import opened Options

  const POLL: int := 500
  const SEND_TIMEOUT: nat := 10000
  const DEFAULT_WAIT: nat := 30000
  const MAX_WAIT: nat := 120000
  const WORKER_LEASE: nat := 300000
  const TIGHT_INTERVAL: int := 300

  datatype Mode = UnknownMode | DirectIPv4 | StunAnnexG | PeriodicFallback | Xmpp

  datatype Path = ViaXmpp | ViaAnnexG | Unavailable | BehindNat | ViaHttp

  /** Everything path selection depends on. */
  datatype Inputs = Inputs(hasUrl: bool, hasUdp: bool, mode: Mode, behindNat: bool, hasJabberId: bool, xmppConfigured: bool)

  /** One sending: how long it takes and whether the other side takes it. */
  datatype Sending = Sending(millis: nat, accepted: bool)

  /** What the worker finds outside: the device row, the transports, the event-6 Informs, failing queries, and a shutdown. */
  datatype World = World(loads: bool, inputs: Inputs, requestedWait: int, xmppConnected: bool, xmpp: Sending, http: Sending, udp: Sending,
                         informs: seq<int>, queryFails: set<int>, shutdown: Option<int>, interval: Option<int>)

  datatype Mark = Succeeded | Failed | TimedOut

  datatype Dial = DialXmpp | DialHttp | DialUdp

  /** What the worker has done so far; `attemptedAt` is when it began its last sending. */
  datatype Log = Log(clock: int, attemptedAt: int, marks: seq<Mark>, dials: seq<Dial>, mode: Option<Mode>, tightened: bool)

  function Begin(now: int): Log {
    Log(now, now, [], [], None, false)
  }

  /** selectConnReqPath */
  function Select(in_: Inputs): Path {
    if in_.xmppConfigured && in_.hasJabberId then ViaXmpp
    else if !in_.hasUrl then (if in_.hasUdp then ViaAnnexG else Unavailable)
    else if !in_.hasUdp && (in_.mode.PeriodicFallback? || (in_.mode.Xmpp? && in_.behindNat)) then BehindNat
    else ViaHttp
  }

  function ClampWait(requested: int): (wait: nat)
    ensures 0 < wait <= MAX_WAIT
  {
    if requested <= 0 then DEFAULT_WAIT else if requested > MAX_WAIT then MAX_WAIT else requested
  }

  /** A sending never takes longer than its context allows, and fails if it would. */
  function Spent(s: Sending): nat {
    if s.millis > SEND_TIMEOUT then SEND_TIMEOUT else s.millis
  }

  predicate Works(s: Sending) {
    s.accepted && s.millis <= SEND_TIMEOUT
  }

  /** InformedWithEventSince at this moment: an event-6 Inform since the attempt, and a query that works. */
  predicate Seen(w: World, since: int, now: int) {
    now !in w.queryFails && exists i :: 0 <= i < |w.informs| && since <= w.informs[i] <= now
  }

  predicate ShutDown(w: World, now: int) {
    w.shutdown.Some? && w.shutdown.value < now + POLL
  }

  datatype Awaited = Informed(at: int) | Expired(at: int) | Cancelled(at: int)

  /** The polling loop. */
  function Await(w: World, since: int, now: int, deadline: int): Awaited
    decreases deadline - now
  {
    if now >= deadline then Expired(now)
    else if Seen(w, since, now) then Informed(now)
    else if ShutDown(w, now) then Cancelled(now)
    else Await(w, since, now + POLL, deadline)
  }

  /** tightenPeriodicInform queues a write only when the cached interval is not already at or below the target. */
  predicate NeedsTightening(w: World) {
    !(w.interval.Some? && 0 < w.interval.value <= TIGHT_INTERVAL)
  }

  /** After an accepted sending: wait for the Inform and mark the job. Only HTTP and UDP fall back to periodic Informs. */
  function WaitAndMark(w: World, log: Log, wait: nat, mode: Mode, fallback: bool): Log {
    match Await(w, log.attemptedAt, log.clock, log.clock + wait)
    case Informed(at) => log.(clock := at, marks := log.marks + [Succeeded], mode := Some(mode))
    case Cancelled(at) => log.(clock := at)
    case Expired(at) =>
      log.(clock := at, marks := log.marks + [TimedOut], mode := if fallback then Some(PeriodicFallback) else log.mode,
      tightened := fallback && NeedsTightening(w))
  }

  function Dialled(log: Log, dial: Dial, s: Sending): Log {
    log.(clock := log.clock + Spent(s), attemptedAt := log.clock, dials := log.dials + [dial])
  }

  function Fail(log: Log): Log {
    log.(marks := log.marks + [Failed])
  }

  function AnnexG(w: World, log: Log, wait: nat): Log {
    var sent := Dialled(log, DialUdp, w.udp);
    if Works(w.udp) then WaitAndMark(w, sent, wait, StunAnnexG, true) else Fail(sent)
  }

  function Http(w: World, log: Log, wait: nat): Log {
    var sent := Dialled(log, DialHttp, w.http);
    if Works(w.http) then WaitAndMark(w, sent, wait, DirectIPv4, true)
    else if w.inputs.hasUdp then AnnexG(w, sent, wait)
    else Fail(sent)
  }

  /** The pre-existing paths, without XMPP. */
  function WithoutXmpp(w: World, log: Log, wait: nat): Log {
    match Select(w.inputs.(xmppConfigured := false))
    case ViaAnnexG => AnnexG(w, log, wait)
    case ViaHttp => Http(w, log, wait)
    case _ => Fail(log)
  }

  function ViaXmppOrNot(w: World, log: Log, wait: nat): Log {
    if !w.xmppConnected then WithoutXmpp(w, log, wait)
    else
      var sent := Dialled(log, DialXmpp, w.xmpp);
      if Works(w.xmpp) then WaitAndMark(w, sent, wait, Xmpp, false) else WithoutXmpp(w, sent, wait)
  }

  /** process */
  function Process(w: World, now: int): Log {
    if !w.loads then Fail(Begin(now))
    else if Select(w.inputs).ViaXmpp? then ViaXmppOrNot(w, Begin(now), ClampWait(w.requestedWait))
    else WithoutXmpp(w, Begin(now), ClampWait(w.requestedWait))
  }

  /** A poll moment: some whole number of polls after the start, before the deadline. */
  ghost predicate PollsAt(now: int, deadline: int, k: nat, at: int) {
    at == now + k * POLL && at < deadline
  }

  ghost predicate SomePollSees(w: World, since: int, now: int, deadline: int) {
    exists k: nat, at: int :: PollsAt(now, deadline, k, at) && Seen(w, since, at)
  }

  /** The loop ends within a poll of its deadline, and sees an Inform only if one arrived since the attempt. */
  lemma {:induction false} AwaitEnds(w: World, since: int, now: int, deadline: int)
    requires now <= deadline
    ensures var r := Await(w, since, now, deadline);
            && now <= r.at < deadline + POLL
            && (r.Informed? ==> Seen(w, since, r.at) && r.at < deadline)
            && (r.Cancelled? ==> w.shutdown.Some?)
    decreases deadline - now
  {
    if now < deadline && !Seen(w, since, now) && !ShutDown(w, now) {
      if now + POLL <= deadline {
        AwaitEnds(w, since, now + POLL, deadline);
      }
    }
  }

  /** Without a shutdown the loop succeeds exactly when one of its polls sees the Inform. */
  lemma {:induction false} AwaitExact(w: World, since: int, now: int, deadline: int)
    requires w.shutdown.None?
    ensures Await(w, since, now, deadline).Informed? <==> SomePollSees(w, since, now, deadline)
    decreases deadline - now
  {
    if now < deadline {
      AwaitExact(w, since, now + POLL, deadline);
      if Seen(w, since, now) {
        assert PollsAt(now, deadline, 0, now);
      } else {
        var later := Await(w, since, now + POLL, deadline);
        if later.Informed? {
          var k: nat, at: int :| PollsAt(now + POLL, deadline, k, at) && Seen(w, since, at);
          assert PollsAt(now, deadline, k + 1, at);
        } else {
          forall k: nat, at: int | PollsAt(now, deadline, k, at) ensures !Seen(w, since, at) {
            if k > 0 {
              assert PollsAt(now + POLL, deadline, k - 1, at);
            }
          }
        }
      }
    }
  }

  /** What a finished run shows. */
  ghost predicate Accounts(w: World, before: Log, after: Log, budget: int) {
    && before.clock <= after.clock <= before.clock + budget
    && (w.shutdown.None? ==> |after.marks| == |before.marks| + 1)
    && |before.marks| <= |after.marks| <= |before.marks| + 1 && after.marks[..|before.marks|] == before.marks
    && (|after.marks| > |before.marks| && after.marks[|before.marks|].Succeeded? ==>
          before.clock <= after.attemptedAt && Seen(w, after.attemptedAt, after.clock))
    && (after.tightened ==> before.tightened || NeedsTightening(w))
  }

  /** From an accepted sending on. */
  lemma WaitAccounts(w: World, log: Log, dial: Dial, s: Sending, wait: nat, mode: Mode, fallback: bool)
    ensures Accounts(w, log, WaitAndMark(w, Dialled(log, dial, s), wait, mode, fallback), SEND_TIMEOUT + wait + POLL)
  {
    var sent := Dialled(log, dial, s);
    AwaitEnds(w, sent.attemptedAt, sent.clock, sent.clock + wait);
  }

  lemma Earlier(w: World, a: Log, b: Log, c: Log, budget: int)
    requires Accounts(w, b, c, budget) && a.clock <= b.clock && a.marks == b.marks && a.tightened == b.tightened
    ensures Accounts(w, a, c, budget + b.clock - a.clock)
  {
  }

  lemma AnnexGAccounts(w: World, log: Log, wait: nat)
    ensures Accounts(w, log, AnnexG(w, log, wait), SEND_TIMEOUT + wait + POLL)
  {
    WaitAccounts(w, log, DialUdp, w.udp, wait, StunAnnexG, true);
  }

  lemma HttpAccounts(w: World, log: Log, wait: nat)
    ensures Accounts(w, log, Http(w, log, wait), 2 * SEND_TIMEOUT + wait + POLL)
  {
    var sent := Dialled(log, DialHttp, w.http);
    WaitAccounts(w, log, DialHttp, w.http, wait, DirectIPv4, true);
    AnnexGAccounts(w, sent, wait);
    Earlier(w, log, sent, AnnexG(w, sent, wait), SEND_TIMEOUT + wait + POLL);
  }

  lemma WithoutXmppAccounts(w: World, log: Log, wait: nat)
    ensures Accounts(w, log, WithoutXmpp(w, log, wait), 2 * SEND_TIMEOUT + wait + POLL)
  {
    AnnexGAccounts(w, log, wait);
    HttpAccounts(w, log, wait);
  }

  lemma XmppAccounts(w: World, log: Log, wait: nat)
    ensures Accounts(w, log, ViaXmppOrNot(w, log, wait), 3 * SEND_TIMEOUT + wait + POLL)
  {
    var sent := Dialled(log, DialXmpp, w.xmpp);
    WithoutXmppAccounts(w, log, wait);
    WithoutXmppAccounts(w, sent, wait);
    WaitAccounts(w, log, DialXmpp, w.xmpp, wait, Xmpp, false);
    Earlier(w, log, sent, WithoutXmpp(w, sent, wait), 2 * SEND_TIMEOUT + wait + POLL);
  }

  /**
   For every device and every behaviour of the network: a job that is not cut off by a
   shutdown is marked exactly once, it succeeds only after an event-6 Inform that
   followed the last sending, and the waiting stays within 150.5 s, half the worker's lease.
   */
  lemma EveryRequestEnds(w: World, now: int)
    ensures var log := Process(w, now);
            && (w.shutdown.None? ==> |log.marks| == 1) && |log.marks| <= 1
            && (log.marks == [Succeeded] ==>
                  now <= log.attemptedAt && exists i :: 0 <= i < |w.informs| && log.attemptedAt <= w.informs[i] <= log.clock)
            && now <= log.clock <= now + 150500 < now + WORKER_LEASE
            && (log.tightened ==> NeedsTightening(w))
  {
    var wait := ClampWait(w.requestedWait);
    XmppAccounts(w, Begin(now), wait);
    WithoutXmppAccounts(w, Begin(now), wait);
    var log := Process(w, now);
    assert Accounts(w, Begin(now), log, 150500);
    if log.marks == [Succeeded] {
      assert log.marks[|Begin(now).marks|].Succeeded?;
    }
  }

  /** The transports dialled are those of the selected path, selected again without XMPP when that try failed. */
  lemma PathIsSelected(w: World, now: int)
    requires w.loads
    ensures var dials := Process(w, now).dials;
            var xmppTried := Select(w.inputs).ViaXmpp? && w.xmppConnected;
            var first := if xmppTried then [DialXmpp] else [];
            && (Select(w.inputs).ViaXmpp? && xmppTried && Works(w.xmpp) ==> dials == first)
            && (!(Select(w.inputs).ViaXmpp? && xmppTried && Works(w.xmpp)) ==>
                  match Select(w.inputs.(xmppConfigured := false))
                  case ViaAnnexG => dials == first + [DialUdp]
                  case ViaHttp => dials == first + if Works(w.http) || !w.inputs.hasUdp then [DialHttp] else [DialHttp, DialUdp]
                  case _ => dials == first)
  {
  }

  function SendingOf(w: World, dial: Dial): Sending {
    match dial
    case DialXmpp => w.xmpp
    case DialHttp => w.http
    case DialUdp => w.udp
  }

  /** One of the transports dialled took the request. */
  ghost predicate Taken(w: World, dials: seq<Dial>) {
    exists i :: 0 <= i < |dials| && Works(SendingOf(w, dials[i]))
  }

  /** A poll between the end of the last sending and the deadline sees the Inform. */
  ghost predicate SeenInTime(w: World, log: Log, wait: nat) {
    log.dials != [] &&
    var start := log.attemptedAt + Spent(SendingOf(w, log.dials[|log.dials| - 1]));
    SomePollSees(w, log.attemptedAt, start, start + wait)
  }

  /** The mark says what happened. */
  ghost predicate MarkedRight(w: World, log: Log, wait: nat) {
    && (log.marks == [Failed] <==> !Taken(w, log.dials))
    && (Taken(w, log.dials) && w.shutdown.None? ==> log.marks == [if SeenInTime(w, log, wait) then Succeeded else TimedOut])
  }

  lemma TakenExtends(w: World, dials: seq<Dial>, dial: Dial)
    ensures Taken(w, dials + [dial]) <==> Taken(w, dials) || Works(SendingOf(w, dial))
  {
    assert (dials + [dial])[|dials|] == dial;
    if Taken(w, dials) {
      var i :| 0 <= i < |dials| && Works(SendingOf(w, dials[i]));
      assert (dials + [dial])[i] == dials[i];
    }
  }

  lemma WaitMarksRight(w: World, log: Log, dial: Dial, wait: nat, mode: Mode, fallback: bool)
    requires log.marks == [] && Works(SendingOf(w, dial))
    ensures MarkedRight(w, WaitAndMark(w, Dialled(log, dial, SendingOf(w, dial)), wait, mode, fallback), wait)
  {
    var sent := Dialled(log, dial, SendingOf(w, dial));
    var after := WaitAndMark(w, sent, wait, mode, fallback);
    TakenExtends(w, log.dials, dial);
    assert after.dials[|after.dials| - 1] == dial && after.attemptedAt == sent.attemptedAt;
    assert after.marks == [] || after.marks == [Succeeded] || after.marks == [TimedOut];
    assert [Failed][0] != [Succeeded][0] && [Failed][0] != [TimedOut][0];
    if w.shutdown.None? {
      AwaitExact(w, sent.attemptedAt, sent.clock, sent.clock + wait);
      NotCancelled(w, sent.attemptedAt, sent.clock, sent.clock + wait);
    }
  }

  lemma {:induction false} NotCancelled(w: World, since: int, now: int, deadline: int)
    requires w.shutdown.None?
    ensures !Await(w, since, now, deadline).Cancelled?
    decreases deadline - now
  {
    if now < deadline {
      NotCancelled(w, since, now + POLL, deadline);
    }
  }

  lemma AnnexGMarksRight(w: World, log: Log, wait: nat)
    requires log.marks == [] && !Taken(w, log.dials)
    ensures MarkedRight(w, AnnexG(w, log, wait), wait)
  {
    TakenExtends(w, log.dials, DialUdp);
    if Works(w.udp) {
      WaitMarksRight(w, log, DialUdp, wait, StunAnnexG, true);
    }
  }

  lemma HttpMarksRight(w: World, log: Log, wait: nat)
    requires log.marks == [] && !Taken(w, log.dials)
    ensures MarkedRight(w, Http(w, log, wait), wait)
  {
    TakenExtends(w, log.dials, DialHttp);
    if Works(w.http) {
      WaitMarksRight(w, log, DialHttp, wait, DirectIPv4, true);
    } else {
      AnnexGMarksRight(w, Dialled(log, DialHttp, w.http), wait);
    }
  }

  lemma WithoutXmppMarksRight(w: World, log: Log, wait: nat)
    requires log.marks == [] && !Taken(w, log.dials)
    ensures MarkedRight(w, WithoutXmpp(w, log, wait), wait)
  {
    AnnexGMarksRight(w, log, wait);
    HttpMarksRight(w, log, wait);
  }

  /**
   Which mark results: FAILED exactly when the device does not load or no transport
   dialled took the request; otherwise, without a shutdown, SUCCESS exactly when a poll in
   time sees the Inform, and TIMEOUT when none does.
   */
  lemma MarkIsExact(w: World, now: int)
    ensures var log := Process(w, now);
            && (log.marks == [Failed] <==> !w.loads || !Taken(w, log.dials))
            && (w.loads && Taken(w, log.dials) && w.shutdown.None? ==>
                  log.marks == [if SeenInTime(w, log, ClampWait(w.requestedWait)) then Succeeded else TimedOut])
  {
    var wait := ClampWait(w.requestedWait);
    var begin := Begin(now);
    WithoutXmppMarksRight(w, begin, wait);
    TakenExtends(w, begin.dials, DialXmpp);
    if Works(w.xmpp) {
      WaitMarksRight(w, begin, DialXmpp, wait, Xmpp, false);
    } else {
      WithoutXmppMarksRight(w, Dialled(begin, DialXmpp, w.xmpp), wait);
    }
  }

  /** A device that can only be behind NAT is never dialled over HTTP, with or without XMPP. */
  lemma BehindNatIsNeverDialled(w: World, now: int)
    requires Select(w.inputs.(xmppConfigured := false)).BehindNat?
    ensures DialHttp !in Process(w, now).dials && DialUdp !in Process(w, now).dials
  {
  }

  /** The worker, as it runs: one job, a clock that sleeps, and marks in the job table. */
  class Worker {
    var log: Log

    constructor (now: int)
      ensures log == Begin(now)
    {
      log := Begin(now);
    }

    /** waitForConnReqInform */
    method WaitForInform(w: World, since: int, wait: nat) returns (r: Awaited)
      modifies this
      ensures r == Await(w, since, old(log).clock, old(log).clock + wait)
      ensures log == old(log).(clock := r.at)
    {
      var deadline := log.clock + wait;
      while log.clock < deadline
        invariant log == old(log).(clock := log.clock)
        invariant Await(w, since, log.clock, deadline) == Await(w, since, old(log).clock, deadline)
        decreases deadline - log.clock
      {
        if Seen(w, since, log.clock) {
          return Informed(log.clock);
        }
        if ShutDown(w, log.clock) {
          return Cancelled(log.clock);
        }
        log := log.(clock := log.clock + POLL);
      }
      r := Expired(log.clock);
    }

    method Finish(w: World, wait: nat, mode: Mode, fallback: bool)
      modifies this
      ensures log == WaitAndMark(w, old(log), wait, mode, fallback)
    {
      var r := WaitForInform(w, log.attemptedAt, wait);
      match r
      case Informed(_) => log := log.(marks := log.marks + [Succeeded], mode := Some(mode));
      case Cancelled(_) =>
      case Expired(_) =>
        log := log.(marks := log.marks + [TimedOut]);
        if fallback {
          log := log.(mode := Some(PeriodicFallback));
        }
        log := log.(tightened := fallback && NeedsTightening(w));
    }

    /** attemptAnnexG */
    method AttemptAnnexG(w: World, wait: nat)
      modifies this
      ensures log == AnnexG(w, old(log), wait)
    {
      log := Dialled(log, DialUdp, w.udp);
      if !Works(w.udp) {
        log := Fail(log);
        return;
      }
      Finish(w, wait, StunAnnexG, true);
    }

    /** attemptXMPP: handled means the CPE took the request, and the job is not tried another way. */
    method AttemptXmpp(w: World, wait: nat) returns (handled: bool)
      modifies this
      ensures handled <==> w.xmppConnected && Works(w.xmpp)
      ensures handled ==> log == WaitAndMark(w, Dialled(old(log), DialXmpp, w.xmpp), wait, Xmpp, false)
      ensures !handled ==> log == if w.xmppConnected then Dialled(old(log), DialXmpp, w.xmpp) else old(log)
    {
      if !w.xmppConnected {
        return false;
      }
      log := Dialled(log, DialXmpp, w.xmpp);
      if !Works(w.xmpp) {
        return false;
      }
      Finish(w, wait, Xmpp, false);
      handled := true;
    }

    /** process: the tests the handler makes, in its order. */
    method ProcessJob(w: World)
      requires log == Begin(log.clock)
      modifies this
      ensures log == Process(w, old(log).clock)
    {
      if !w.loads {
        log := Fail(log);
        return;
      }
      var wait := ClampWait(w.requestedWait);
      var inputs := w.inputs;
      if Select(inputs).ViaXmpp? {
        var handled := AttemptXmpp(w, wait);
        if handled {
          return;
        }
        inputs := inputs.(xmppConfigured := false);
      }
      if !inputs.hasUrl {
        if inputs.hasUdp {
          AttemptAnnexG(w, wait);
        } else {
          log := Fail(log);
        }
        return;
      }
      if Select(inputs).BehindNat? {
        log := Fail(log);
        return;
      }
      log := Dialled(log, DialHttp, w.http);
      if !Works(w.http) {
        if inputs.hasUdp {
          AttemptAnnexG(w, wait);
        } else {
          log := Fail(log);
        }
        return;
      }
      Finish(w, wait, DirectIPv4, true);
    }
  }
}
