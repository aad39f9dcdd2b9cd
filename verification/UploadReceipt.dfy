/**
 One upload slot under any number of concurrent PUTs. Each request stages its body
 under a name of its own, one compare-and-set on the slot's row picks the winner, and
 only the winner is renamed to the slot's final name. The steps of different requests
 interleave freely, and a request may stop for good between any two of them.
 */
module UploadReceipt {
  import opened Options

  type Byte = x: int | 0 <= x < 256
  type Bytes = seq<Byte>
  type RequestId = nat
  /** The digest of a byte string, as an uninterpreted function. */
  type Hash = Bytes -> nat

  datatype Row = Pending | Received(filename: Bytes, sha256: nat, size: nat)

  datatype Name = Final | Staging(request: RequestId)

  /** Where a request is. `committed` says that its compare-and-set took effect. */
  datatype Phase =
    | Arrived
    | Saving(hashed: Bytes)
    | Saved(filename: Bytes, sha256: nat, size: nat)
    | Won
    | Cleanup(reply: Status, committed: bool)
    | Promoted
    | Ended(reply: Status, committed: bool)
  {
    predicate Committed() {
      match this
      case Won => true
      case Promoted => true
      case Cleanup(_, committed) => committed
      case Ended(_, committed) => committed
      case _ => false
    }
  }

  datatype Status = Forbidden403 | Conflict409 | TooLarge413 | Internal500

  datatype Slot = Slot(row: Row, objects: map<Name, Bytes>, requests: seq<Phase>)

  const FRESH := Slot(Pending, map[], [])

  /** What the network, the disk and the database do to the next step of a request. */
  datatype Action =
    | Arrive
    | Check(tokenValid: bool, created: bool)
    | Copy(chunk: Bytes)
    | BreakOff
    | Finish(header: Bytes, id: Bytes)
    | Mark(reported: bool, committed: bool)
    | Discard
    | Promote(renamed: bool)

  /** Kept in a filename: not a quote, a backslash or a control byte. */
  predicate Keeps(c: Byte) {
    c != 0x22 && c != 0x5c && c >= 0x20 && c != 0x7f
  }

  const MAX_FILENAME: nat := 200

  /** The bytes worth keeping, in order. */
  function Printable(name: Bytes): Bytes {
    if name == [] then []
    else
      var n := |name| - 1;
      Printable(name[..n]) + if Keeps(name[n]) then [name[n]] else []
  }

  function Sanitized(name: Bytes): Bytes {
    var p := Printable(name);
    if |p| <= MAX_FILENAME then p else p[..MAX_FILENAME]
  }

  function To(s: Slot, r: RequestId, p: Phase): Slot
    requires r < |s.requests|
  {
    s.(requests := s.requests[r := p])
  }

  function Drop(s: Slot, r: RequestId): Slot {
    s.(objects := s.objects - {Staging(r)})
  }

  /** Token check, slot lookup and creation of the staged file. */
  function CheckSlot(s: Slot, r: RequestId, tokenValid: bool, created: bool): Slot
    requires r < |s.requests|
  {
    if !tokenValid then To(s, r, Ended(Forbidden403, false))
    else if !s.row.Pending? then To(s, r, Ended(Conflict409, false))
    else if !created then To(s, r, Ended(Internal500, false))
    else To(s, r, Saving([])).(objects := s.objects[Staging(r) := []])
  }

  /** One round of the copy loop: the ceiling is enforced before anything more is kept. */
  function CopyChunk(s: Slot, r: RequestId, hashed: Bytes, chunk: Bytes, limit: nat): Slot
    requires r < |s.requests|
  {
    if |hashed| + |chunk| > limit then Drop(To(s, r, Ended(TooLarge413, false)), r)
    else To(s, r, Saving(hashed + chunk)).(objects := s.objects[Staging(r) := hashed + chunk])
  }

  /** MarkReceived: `reported` is false when the database call fails, `committed` says whether it took effect all the same. */
  function MarkReceived(s: Slot, r: RequestId, filename: Bytes, sha256: nat, size: nat, reported: bool, committed: bool): Slot
    requires r < |s.requests|
  {
    if reported then
      if s.row.Pending? then To(s, r, Won).(row := Received(filename, sha256, size))
      else To(s, r, Cleanup(Conflict409, false))
    else if committed && s.row.Pending? then To(s, r, Cleanup(Internal500, true)).(row := Received(filename, sha256, size))
    else To(s, r, Cleanup(Internal500, false))
  }

  function PromoteStaged(s: Slot, r: RequestId, renamed: bool): Slot
    requires r < |s.requests|
  {
    if renamed && Staging(r) in s.objects
    then To(s, r, Promoted).(objects := s.objects[Final := s.objects[Staging(r)]] - {Staging(r)})
    else To(s, r, Ended(Internal500, true))
  }

  /** The next step of request r; an action that is not its next step does nothing. */
  function Step(s: Slot, r: RequestId, a: Action, hash: Hash, limit: nat): Slot {
    if a.Arrive? then s.(requests := s.requests + [Arrived])
    else if r >= |s.requests| then s
    else match s.requests[r]
         case Arrived => if a.Check? then CheckSlot(s, r, a.tokenValid, a.created) else s
         case Saving(hashed) =>
           if a.Copy? then CopyChunk(s, r, hashed, a.chunk, limit)
           else if a.BreakOff? then Drop(To(s, r, Ended(Internal500, false)), r)
           else if a.Finish? then
             To(s, r, Saved(if Sanitized(a.header) == [] then a.id else Sanitized(a.header), hash(hashed), |hashed|))
           else s
         case Saved(filename, sha256, size) => if a.Mark? then MarkReceived(s, r, filename, sha256, size, a.reported, a.committed) else s
         case Won => if a.Promote? then PromoteStaged(s, r, a.renamed) else s
         case Cleanup(reply, committed) => if a.Discard? then Drop(To(s, r, Ended(reply, committed)), r) else s
         case Promoted => s
         case Ended(_, _) => s
  }

  function Run(s: Slot, actions: seq<(RequestId, Action)>, hash: Hash, limit: nat): Slot {
    if actions == [] then s
    else
      var last := actions[|actions| - 1];
      Step(Run(s, actions[..|actions| - 1], hash, limit), last.0, last.1, hash, limit)
  }

  /** The bytes have exactly the recorded size and digest. */
  predicate Matches(row: Row, bytes: Bytes, hash: Hash) {
    row.Received? && row.sha256 == hash(bytes) && row.size == |bytes|
  }

  /** What a request holds, seen from its phase. */
  ghost predicate Holds(s: Slot, r: RequestId, hash: Hash, limit: nat)
    requires r < |s.requests|
  {
    && (s.requests[r].Committed() ==> s.row.Received?)
    && (Staging(r) in s.objects ==> |s.objects[Staging(r)]| <= limit)
    && match s.requests[r]
       case Arrived => Staging(r) !in s.objects
       case Saving(hashed) => Staging(r) in s.objects && s.objects[Staging(r)] == hashed
       case Saved(_, sha256, size) =>
         Staging(r) in s.objects && sha256 == hash(s.objects[Staging(r)]) && size == |s.objects[Staging(r)]|
       case Won => Staging(r) in s.objects && Matches(s.row, s.objects[Staging(r)], hash) && Final !in s.objects
       case Promoted => Staging(r) !in s.objects && Final in s.objects
       case _ => true
  }

  ghost predicate Invariant(s: Slot, hash: Hash, limit: nat) {
    && (forall r :: 0 <= r < |s.requests| ==> Holds(s, r, hash, limit))
    && (forall q, r :: 0 <= q < r < |s.requests| ==> !(s.requests[q].Committed() && s.requests[r].Committed()))
    && (s.row.Received? ==> exists r :: 0 <= r < |s.requests| && s.requests[r].Committed())
    && (Final in s.objects ==>
          && Matches(s.row, s.objects[Final], hash) && |s.objects[Final]| <= limit
          && exists r :: 0 <= r < |s.requests| && s.requests[r].Promoted?)
    && (forall n :: n in s.objects && n.Staging? ==> n.request < |s.requests|)
  }

  /** Request r touches its own staged object and, when it is promoted, the final one; nothing else. */
  ghost predicate OwnOnly(s: Slot, t: Slot, r: RequestId) {
    && (forall q :: 0 <= q < |s.requests| && q != r ==> q < |t.requests| && t.requests[q] == s.requests[q])
    && (forall n :: n != Staging(r) && n != Final ==> (n in t.objects <==> n in s.objects) && (n in s.objects ==> t.objects[n] == s.objects[n]))
  }

  /** What is settled stays: the row once received, and the object under the final name. */
  ghost predicate Settled(s: Slot, t: Slot) {
    && (s.row.Received? ==> t.row == s.row)
    && (Final in s.objects ==> Final in t.objects && t.objects[Final] == s.objects[Final])
  }

  /** A step that changes only the request's own phase and staged object. */
  lemma LocalStep(s: Slot, t: Slot, r: RequestId, hash: Hash, limit: nat)
    requires Invariant(s, hash, limit) && r < |s.requests| == |t.requests| && t == Slot(s.row, t.objects, s.requests[r := t.requests[r]])
    requires OwnOnly(s, t, r) && Settled(s, t) && (Final in t.objects ==> Final in s.objects)
    requires t.requests[r].Committed() == s.requests[r].Committed() && t.requests[r].Promoted? == s.requests[r].Promoted?
    requires Holds(t, r, hash, limit)
    ensures Invariant(t, hash, limit)
  {
    forall q | 0 <= q < |t.requests| ensures Holds(t, q, hash, limit) {
      if q != r {
        assert Holds(s, q, hash, limit);
      }
    }
    if s.row.Received? {
      var c :| 0 <= c < |s.requests| && s.requests[c].Committed();
      assert t.requests[c].Committed();
    }
    if Final in s.objects {
      var c :| 0 <= c < |s.requests| && s.requests[c].Promoted?;
      assert t.requests[c].Promoted?;
    }
  }

  /** The compare-and-set took effect: the row moves once, and nobody else has committed. */
  lemma CommitStep(s: Slot, r: RequestId, p: Phase, hash: Hash, limit: nat)
    requires Invariant(s, hash, limit) && r < |s.requests| && s.requests[r].Saved? && s.row.Pending?
    requires p == Won || (p.Cleanup? && p.committed)
    ensures var saved := s.requests[r]; Invariant(To(s, r, p).(row := Received(saved.filename, saved.sha256, saved.size)), hash, limit)
  {
    var t := To(s, r, p).(row := Received(s.requests[r].filename, s.requests[r].sha256, s.requests[r].size));
    assert Holds(s, r, hash, limit);
    forall q | 0 <= q < |t.requests| ensures Holds(t, q, hash, limit) && (q != r ==> !t.requests[q].Committed()) {
      assert Holds(s, q, hash, limit);
    }
    assert t.requests[r].Committed();
  }

  lemma PromoteStep(s: Slot, r: RequestId, hash: Hash, limit: nat)
    requires Invariant(s, hash, limit) && r < |s.requests| && s.requests[r].Won?
    ensures Invariant(PromoteStaged(s, r, true), hash, limit) && PromoteStaged(s, r, true).requests[r] == Promoted
  {
    var t := PromoteStaged(s, r, true);
    assert Holds(s, r, hash, limit);
    forall q | 0 <= q < |t.requests| ensures Holds(t, q, hash, limit) {
      assert Holds(s, q, hash, limit);
    }
    assert t.requests[r].Promoted?;
  }

  lemma ArriveStep(s: Slot, hash: Hash, limit: nat)
    requires Invariant(s, hash, limit)
    ensures Invariant(s.(requests := s.requests + [Arrived]), hash, limit)
  {
    var t := s.(requests := s.requests + [Arrived]);
    forall q | 0 <= q < |t.requests| ensures Holds(t, q, hash, limit) {
      if q < |s.requests| {
        assert Holds(s, q, hash, limit);
      }
    }
    if s.row.Received? {
      var c :| 0 <= c < |s.requests| && s.requests[c].Committed();
      assert t.requests[c].Committed();
    }
    if Final in s.objects {
      var c :| 0 <= c < |s.requests| && s.requests[c].Promoted?;
      assert t.requests[c].Promoted?;
    }
  }

  lemma SavingStep(s: Slot, r: RequestId, a: Action, hash: Hash, limit: nat)
    requires Invariant(s, hash, limit) && r < |s.requests| && s.requests[r].Saving? && !a.Arrive?
    ensures Invariant(Step(s, r, a, hash, limit), hash, limit)
  {
    assert Holds(s, r, hash, limit);
    var t := Step(s, r, a, hash, limit);
    if t != s {
      LocalStep(s, t, r, hash, limit);
    }
  }

  lemma MarkStep(s: Slot, r: RequestId, reported: bool, committed: bool, hash: Hash, limit: nat)
    requires Invariant(s, hash, limit) && r < |s.requests| && s.requests[r].Saved?
    ensures var saved := s.requests[r];
            Invariant(MarkReceived(s, r, saved.filename, saved.sha256, saved.size, reported, committed), hash, limit)
  {
    assert Holds(s, r, hash, limit);
    if s.row.Pending? && (reported || committed) {
      CommitStep(s, r, if reported then Won else Cleanup(Internal500, true), hash, limit);
    } else {
      LocalStep(s, To(s, r, Cleanup(if reported then Conflict409 else Internal500, false)), r, hash, limit);
    }
  }

  lemma StepKeeps(s: Slot, r: RequestId, a: Action, hash: Hash, limit: nat)
    requires Invariant(s, hash, limit)
    ensures Invariant(Step(s, r, a, hash, limit), hash, limit)
  {
    var t := Step(s, r, a, hash, limit);
    if a.Arrive? {
      ArriveStep(s, hash, limit);
    } else if r < |s.requests| {
      assert Holds(s, r, hash, limit);
      match s.requests[r]
      case Arrived =>
        if a.Check? {
          LocalStep(s, t, r, hash, limit);
        }
      case Saving(_) => SavingStep(s, r, a, hash, limit);
      case Saved(_, _, _) =>
        if a.Mark? {
          MarkStep(s, r, a.reported, a.committed, hash, limit);
        }
      case Won =>
        if a.Promote? && a.renamed {
          PromoteStep(s, r, hash, limit);
        } else if a.Promote? {
          LocalStep(s, t, r, hash, limit);
        }
      case Cleanup(_, _) =>
        if a.Discard? {
          LocalStep(s, t, r, hash, limit);
        }
      case Promoted =>
      case Ended(_, _) =>
    }
  }

  /** A loser's step never touches another request's bytes, and no step moves what is settled. */
  lemma StepIsLocal(s: Slot, r: RequestId, a: Action, hash: Hash, limit: nat)
    requires Invariant(s, hash, limit)
    ensures OwnOnly(s, Step(s, r, a, hash, limit), r) && Settled(s, Step(s, r, a, hash, limit))
    ensures r < |s.requests| && !s.requests[r].Won? ==>
              var t := Step(s, r, a, hash, limit);
              (Final in t.objects <==> Final in s.objects) && (Final in s.objects ==> t.objects[Final] == s.objects[Final])
  {
    if r < |s.requests| {
      assert Holds(s, r, hash, limit);
    }
  }

  lemma {:induction false} RunKeeps(actions: seq<(RequestId, Action)>, hash: Hash, limit: nat)
    ensures Invariant(Run(FRESH, actions, hash, limit), hash, limit)
  {
    if actions != [] {
      var n := |actions| - 1;
      RunKeeps(actions[..n], hash, limit);
      StepKeeps(Run(FRESH, actions[..n], hash, limit), actions[n].0, actions[n].1, hash, limit);
    }
  }

  lemma {:induction false} SettledStays(s: Slot, actions: seq<(RequestId, Action)>, hash: Hash, limit: nat)
    requires Invariant(s, hash, limit)
    ensures Settled(s, Run(s, actions, hash, limit)) && Invariant(Run(s, actions, hash, limit), hash, limit)
  {
    if actions != [] {
      var n := |actions| - 1;
      SettledStays(s, actions[..n], hash, limit);
      StepKeeps(Run(s, actions[..n], hash, limit), actions[n].0, actions[n].1, hash, limit);
      StepIsLocal(Run(s, actions[..n], hash, limit), actions[n].0, actions[n].1, hash, limit);
    }
  }

  /**
   Under every interleaving at most one PUT is promoted, and an object under the final
   name exists only when the row is RECEIVED and has exactly the recorded size and
   digest, never more bytes than the ceiling.
   */
  lemma AtMostOnePromoted(actions: seq<(RequestId, Action)>, hash: Hash, limit: nat, q: RequestId, r: RequestId)
    ensures var s := Run(FRESH, actions, hash, limit);
            && (q < |s.requests| && r < |s.requests| && s.requests[q].Promoted? && s.requests[r].Promoted? ==> q == r)
            && (Final in s.objects ==> Matches(s.row, s.objects[Final], hash) && |s.objects[Final]| <= limit)
            && (r < |s.requests| && s.requests[r].Promoted? ==> Final in s.objects)
  {
    RunKeeps(actions, hash, limit);
    var s := Run(FRESH, actions, hash, limit);
    if r < |s.requests| && s.requests[r].Promoted? {
      assert Holds(s, r, hash, limit);
    }
  }

  datatype Served = NotReceivedYet | Unreadable | File(filename: Bytes, bytes: Bytes)

  /** serveUploadedFile: the row is read first and the object opened later. */
  function Serve(row: Row, objects: map<Name, Bytes>): Served {
    if !row.Received? then NotReceivedYet
    else if Final !in objects then Unreadable
    else File(row.filename, objects[Final])
  }

  /** Every file served matches its metadata, whatever happens between the two reads; and it is served again for ever. */
  lemma ServedFileMatches(before: seq<(RequestId, Action)>, between: seq<(RequestId, Action)>, later: seq<(RequestId, Action)>,
                          hash: Hash, limit: nat)
    ensures var s := Run(FRESH, before, hash, limit);
            var t := Run(s, between, hash, limit);
            var u := Run(t, later, hash, limit);
            Serve(s.row, t.objects).File? ==>
              Matches(s.row, Serve(s.row, t.objects).bytes, hash) && Serve(u.row, u.objects) == Serve(s.row, t.objects)
  {
    var s := Run(FRESH, before, hash, limit);
    RunKeeps(before, hash, limit);
    SettledStays(s, between, hash, limit);
    SettledStays(Run(s, between, hash, limit), later, hash, limit);
  }

  /** The compare-and-set of request r took effect. */
  predicate Owns(s: Slot, r: RequestId) {
    r < |s.requests| && s.requests[r].Committed()
  }

  /**
   A slot is received exactly when a request committed it, that request is the only
   one, and the slot has a file exactly when it was promoted.
   */
  lemma ReceivedHasOneOwner(actions: seq<(RequestId, Action)>, hash: Hash, limit: nat)
    ensures var s := Run(FRESH, actions, hash, limit);
            && (s.row.Received? <==> exists r: RequestId :: Owns(s, r))
            && (forall q: RequestId, r: RequestId :: Owns(s, q) && Owns(s, r) ==> q == r)
            && (forall r: RequestId :: Owns(s, r) ==> (Final in s.objects <==> s.requests[r].Promoted?))
  {
    RunKeeps(actions, hash, limit);
    var s := Run(FRESH, actions, hash, limit);
    if s.row.Received? {
      var r :| 0 <= r < |s.requests| && s.requests[r].Committed();
      assert Owns(s, r);
    }
    forall r: RequestId | Owns(s, r) ensures s.row.Received? && (Final in s.objects <==> s.requests[r].Promoted?) {
      OwnerHasFile(s, r, hash, limit);
    }
  }

  lemma OwnerHasFile(s: Slot, r: RequestId, hash: Hash, limit: nat)
    requires Invariant(s, hash, limit) && Owns(s, r)
    ensures s.row.Received? && (Final in s.objects <==> s.requests[r].Promoted?)
  {
    assert Holds(s, r, hash, limit);
    if Final in s.objects {
      var c :| 0 <= c < |s.requests| && s.requests[c].Promoted?;
      assert Holds(s, c, hash, limit);
      assert c == r;
    }
  }

  /** A committed request need not be promoted: when the rename fails, the row says RECEIVED and nothing is served, for good. */
  lemma FailedRenameLosesTheFile(hash: Hash, header: Bytes, id: Bytes)
    ensures var s := Run(FRESH, [(0, Arrive), (0, Check(true, true)), (0, Finish(header, id)), (0, Mark(true, true)), (0, Promote(false))], hash, 0);
            s.row.Received? && Final !in s.objects && s.requests == [Ended(Internal500, true)]
  {
    var s1 := Step(FRESH, 0, Arrive, hash, 0);
    var s2 := Step(s1, 0, Check(true, true), hash, 0);
    var s3 := Step(s2, 0, Finish(header, id), hash, 0);
    var s4 := Step(s3, 0, Mark(true, true), hash, 0);
    var steps: seq<(RequestId, Action)> := [(0, Arrive), (0, Check(true, true)), (0, Finish(header, id)), (0, Mark(true, true)), (0, Promote(false))];
    assert steps[..4][..3][..2][..1] == steps[..1] && steps[..4][..3][..2] == steps[..2] && steps[..4][..3] == steps[..3];
    assert Run(FRESH, steps[..1], hash, 0) == s1;
    assert Run(FRESH, steps[..2], hash, 0) == s2;
    assert Run(FRESH, steps[..3], hash, 0) == s3;
    assert Run(FRESH, steps[..4], hash, 0) == s4;
  }

  /** What one PUT brings: its token, its body in chunks, whether the stream breaks, and how disk and database answer. */
  datatype Put = Put(tokenValid: bool, created: bool, chunks: seq<Bytes>, broken: bool, header: Bytes, id: Bytes,
                     reported: bool, renamed: bool)

  function Flatten(chunks: seq<Bytes>): Bytes {
    if chunks == [] then [] else Flatten(chunks[..|chunks| - 1]) + chunks[|chunks| - 1]
  }

  lemma FlattenGrows(chunks: seq<Bytes>, i: nat)
    requires i <= |chunks|
    ensures |Flatten(chunks[..i])| <= |Flatten(chunks)|
  {
    if i < |chunks| {
      assert chunks[..|chunks| - 1][..i] == chunks[..i];
      FlattenGrows(chunks[..|chunks| - 1], i);
    } else {
      assert chunks[..i] == chunks;
    }
  }

  /** The row and the object store, as the handler changes them. */
  class SlotStore {
    var row: Row
    var objects: map<Name, Bytes>

    /** Save: copy the body to the staged object; on an error the partial object is removed. */
    method Save(r: RequestId, put: Put, limit: nat) returns (saved: Option<Bytes>)
      requires Staging(r) !in objects
      modifies this`objects
      ensures saved == if put.created && !put.broken && |Flatten(put.chunks)| <= limit then Some(Flatten(put.chunks)) else None
      ensures objects == if saved.Some? then old(objects)[Staging(r) := saved.value] else old(objects)
    {
      if !put.created {
        return None;
      }
      objects := objects[Staging(r) := []];
      for i := 0 to |put.chunks|
        invariant |Flatten(put.chunks[..i])| <= limit
        invariant objects == old(objects)[Staging(r) := Flatten(put.chunks[..i])]
      {
        var next := objects[Staging(r)] + put.chunks[i];
        assert put.chunks[..i + 1][..i] == put.chunks[..i];
        FlattenGrows(put.chunks, i + 1);
        if |next| > limit {
          objects := objects - {Staging(r)};
          return None;
        }
        objects := objects[Staging(r) := next];
      }
      assert put.chunks[..|put.chunks|] == put.chunks;
      if put.broken {
        objects := objects - {Staging(r)};
        return None;
      }
      saved := Some(objects[Staging(r)]);
    }

    /**
     receiveUpload, alone on the slot; a failed database call is one that did not commit.
     A PUT turned away by any check leaves no trace; one that only fails its rename leaves
     the row RECEIVED and its body staged.
     */
    method ReceiveUpload(r: RequestId, put: Put, hash: Hash, limit: nat) returns (stored: bool)
      requires Staging(r) !in objects
      modifies this
      ensures var commits := && put.tokenValid && old(row).Pending? && put.created && !put.broken
                             && |Flatten(put.chunks)| <= limit && put.reported;
              && (stored <==> commits && put.renamed)
              && (!commits ==> row == old(row) && objects == old(objects))
              && (commits ==> Matches(row, Flatten(put.chunks), hash))
              && (commits ==> row.filename == if Sanitized(put.header) == [] then put.id else Sanitized(put.header))
              && (commits ==> objects == old(objects)[(if stored then Final else Staging(r)) := Flatten(put.chunks)])
    {
      stored := false;
      if !put.tokenValid || !row.Pending? {
        return;
      }
      var saved := Save(r, put, limit);
      if saved.None? {
        return;
      }
      var filename := SanitizeUploadFilename(put.header);
      if filename == [] {
        filename := put.id;
      }
      if !put.reported {
        objects := objects - {Staging(r)};
        return;
      }
      row := Received(filename, hash(saved.value), |saved.value|);
      if !put.renamed {
        return;
      }
      objects := objects[Final := objects[Staging(r)]] - {Staging(r)};
      stored := true;
    }
  }

  /** sanitizeUploadFilename */
  method SanitizeUploadFilename(name: Bytes) returns (b: Bytes)
    ensures b == Sanitized(name)
  {
    b := [];
    var i := 0;
    while i < |name| && |b| < MAX_FILENAME
      invariant 0 <= i <= |name| && |b| <= MAX_FILENAME
      invariant b == Printable(name[..i])
    {
      assert name[..i + 1][..i] == name[..i];
      if Keeps(name[i]) {
        b := b + [name[i]];
      }
      i := i + 1;
    }
    PrintablePrefix(name, i);
    assert i == |name| ==> name[..i] == name;
  }

  lemma PrintablePrefix(name: Bytes, i: nat)
    requires i <= |name|
    ensures Printable(name[..i]) <= Printable(name)
  {
    if i < |name| {
      assert name[..|name| - 1][..i] == name[..i];
      PrintablePrefix(name[..|name| - 1], i);
    } else {
      assert name[..i] == name;
    }
  }

  predicate AllKept(name: Bytes) {
    forall i :: 0 <= i < |name| ==> Keeps(name[i])
  }

  /** A sanitised name is safe inside a quoted header value, short, and left alone by a second pass. */
  lemma SanitizedIsSafe(name: Bytes)
    ensures |Sanitized(name)| <= MAX_FILENAME && AllKept(Sanitized(name)) && Sanitized(Sanitized(name)) == Sanitized(name)
  {
    PrintableKept(name);
    KeptIsPrintable(Sanitized(name));
  }

  lemma PrintableKept(name: Bytes)
    ensures AllKept(Printable(name))
  {
  }

  lemma {:induction false} KeptIsPrintable(name: Bytes)
    requires AllKept(name)
    ensures Printable(name) == name
  {
    if name != [] {
      KeptIsPrintable(name[..|name| - 1]);
      assert name == name[..|name| - 1] + [name[|name| - 1]];
    }
  }
}
