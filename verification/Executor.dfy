/**
 * One action from claim to report: sign, record, broadcast, and say exactly what became of it.
 *
 * Whatever the outside answers is a script fixed beforehand: which call throws, what the broadcaster
 * says, and what the rest of the process does to the store and the allocator at each await.
 */
module Executor {
  import opened Common
  import opened Persistence
  import opened CrashSafety
  import opened Liveness
  import N = NonceAllocator

  /** What the broadcaster said about the bytes. */
  datatype Wire = Accepted | RejectedOutright | CannotPay | Failed(error: string)

  /** The pre-broadcast record: written and acknowledged, never written, or written with the answer lost. */
  datatype RecordAnswer = Answered | NeverWritten | AnswerLost

  /** What another send or resync does under the allocator's lock. */
  datatype Section = Takes | Reseeds(seed: N.Seed)

  /**
   * `queue` is what runs under the lock before this send's turn; `others` are the writes of the rest of
   * the process up to then, and `meanwhile` those from the record to the report.
   */
  datatype Script = Script(
    haltedBeforeSend: bool, queue: seq<Section>, others: seq<Stamped>, signThrows: bool, hashFor: nat -> TxHash,
    record: RecordAnswer, haltedBeforeBroadcast: bool, wire: Wire, meanwhile: seq<Stamped>, horizon: Option<nat>,
    lateWriteFails: bool)

  /** The allocator once the queue has had its turns. */
  function Queued(a: N.Alloc, queue: seq<Section>): N.Alloc
    decreases |queue|
  {
    if queue == [] then a
    else Queued(match queue[0] case Takes => N.Taken(a) case Reseeds(seed) => N.Reseeded(seed), queue[1..])
  }

  /** Bytes that reached the broadcaster, and its answer. */
  datatype Handover = Handover(hash: TxHash, wire: Wire)

  /** Signing works, and the store both writes the record and says so. */
  predicate Records(script: Script) {
    !script.signThrows && script.record.Answered?
  }

  predicate CertainlyRefused(w: Wire) {
    w.RejectedOutright? || w.CannotPay?
  }

  /** A `PreBroadcastError` says nothing is in flight; any other throw is ambiguous. */
  datatype SendEnd = Sent(hash: TxHash) | PreBroadcast(error: string) | Ambiguous(error: string)

  datatype Commit =
    | AlreadyClaimed(existing: TxIntent)
    | Broadcast(hash: TxHash, intentId: Id)
    | Aborted(broadcastAttempted: bool, txHash: Option<TxHash>, error: string)

  predicate Attempted(r: Commit) {
    r.Broadcast? || (r.Aborted? && r.broadcastAttempted)
  }

  predicate CarriesInFlight(rows: Rows, id: Id, nonce: nat, hash: TxHash) {
    id in rows && IsInFlight(rows[id]) && rows[id].nonce == Some(nonce) && rows[id].txHash == Some(hash)
  }

  /** The write leaves a row that is on its way as it is: no failure, and no transition off its transaction. */
  predicate Spares(op: StoreOp, id: Id, nonce: nat, hash: TxHash) {
    && !(op.FailOp? && op.id == id)
    && (op.TransitionOp? && op.id == id ==>
          op.to in IN_FLIGHT_ON_CHAIN && op.meta.nonce in {None, Some(nonce)} && op.meta.txHash in {None, Some(hash)})
  }

  predicate AllSpare(ops: seq<Stamped>, id: Id, nonce: nat, hash: TxHash) {
    forall i :: 0 <= i < |ops| ==> Spares(ops[i].op, id, nonce, hash)
  }

  lemma SparedRowStays(rows: Rows, op: StoreOp, now: nat, id: Id, nonce: nat, hash: TxHash)
    requires CarriesInFlight(rows, id, nonce, hash) && Spares(op, id, nonce, hash)
    ensures CarriesInFlight(After(rows, op, now), id, nonce, hash)
  {
  }

  /** Claims, proposals, sweeps and spared writes, in any order and number, leave the transaction on its row. */
  lemma {:induction false} SparedRowStaysInFlight(rows: Rows, ops: seq<Stamped>, id: Id, nonce: nat, hash: TxHash)
    requires CarriesInFlight(rows, id, nonce, hash) && AllSpare(ops, id, nonce, hash)
    ensures CarriesInFlight(Replay(rows, ops), id, nonce, hash)
    decreases |ops|
  {
    if ops != [] {
      SparedRowStays(rows, ops[0].op, ops[0].at, id, nonce, hash);
      SparedRowStaysInFlight(After(rows, ops[0].op, ops[0].at), ops[1..], id, nonce, hash);
    }
  }

  predicate NoneStamped(ops: seq<Stamped>, at: nat) {
    forall i :: 0 <= i < |ops| ==> ops[i].at != at
  }

  /** Once a row is no longer the attempt that was claimed, no later write makes it that attempt again. */
  lemma {:induction false} AttemptIsNotRestored(rows: Rows, ops: seq<Stamped>, id: Id, at: nat)
    requires id in rows && !TransitionApplies(rows, id, BoundTo(at)) && NoneStamped(ops, at)
    ensures id in Replay(rows, ops) && !TransitionApplies(Replay(rows, ops), id, BoundTo(at))
    decreases |ops|
  {
    if ops != [] {
      WritesAreStamped(rows, ops[0].op, ops[0].at, id);
      AttemptIsNotRestored(After(rows, ops[0].op, ops[0].at), ops[1..], id, at);
    }
  }

  lemma {:induction false} RowsStay(rows: Rows, ops: seq<Stamped>, id: Id)
    requires id in rows
    ensures id in Replay(rows, ops)
    decreases |ops|
  {
    if ops != [] {
      WritesAreStamped(rows, ops[0].op, ops[0].at, id);
      RowsStay(After(rows, ops[0].op, ops[0].at), ops[1..], id);
    }
  }

  class TxSender {
    var handed: seq<Handover>
    /** The rows as they were when each handover was made. */
    ghost var recorded: seq<Rows>
    /** Every hash that was durably recorded before anything was handed over. */
    ghost var durable: seq<TxHash>

    constructor ()
      ensures handed == [] && recorded == [] && durable == []
    {
      handed := [];
      recorded, durable := [], [];
    }

    /** Sign, record durably, check the halt once more, and only then hand the bytes over. */
    method Send(crash: CrashSafety, id: Id, attemptAt: nat, nonce: nat, script: Script, now: nat)
      returns (end: SendEnd, signedHash: Option<TxHash>)
      modifies this, crash.store`rows
      ensures signedHash.Some? ==>
                && signedHash == Some(script.hashFor(nonce))
                && CarriesInFlight(crash.store.rows, id, nonce, signedHash.value)
                && TransitionApplies(old(crash.store.rows), id, BoundTo(attemptAt))
      ensures signedHash.None? ==> end.PreBroadcast? && handed == old(handed)
      ensures crash.store.rows == old(crash.store.rows)
              || (TransitionApplies(old(crash.store.rows), id, BoundTo(attemptAt))
                  && crash.store.rows == TransitionRows(old(crash.store.rows), id, Pending,
                                                        Signature(nonce, script.hashFor(nonce)),
                                                        BoundTo(attemptAt), now))
      ensures durable == old(durable) + if signedHash.Some? then [signedHash.value] else []
      ensures signedHash.Some? <==>
                Records(script) && TransitionApplies(old(crash.store.rows), id, BoundTo(attemptAt))
      ensures handed != old(handed) <==> signedHash.Some? && !script.haltedBeforeBroadcast
      ensures handed == old(handed) ==> end.PreBroadcast? && recorded == old(recorded)
      ensures handed != old(handed) ==>
                && recorded == old(recorded) + [crash.store.rows]
                && handed == old(handed) + [Handover(script.hashFor(nonce), script.wire)] && signedHash.Some?
                && end == match script.wire
                          case Accepted => Sent(script.hashFor(nonce))
                          case Failed(error) => Ambiguous(error)
                          case _ => PreBroadcast("refused")
    {
      signedHash := None;
      if script.signThrows {
        return PreBroadcast("signing failed"), None;
      }
      var hash := script.hashFor(nonce);
      if script.record.NeverWritten? {
        return PreBroadcast("store unavailable"), None;
      }
      var applied := crash.MarkPending(id, nonce, attemptAt, hash, now);
      if !applied || script.record.AnswerLost? {
        return PreBroadcast("record refused"), None;
      }
      signedHash := Some(hash);
      durable := durable + [hash];
      if script.haltedBeforeBroadcast {
        return PreBroadcast("halted"), signedHash;
      }
      handed := handed + [Handover(hash, script.wire)];
      recorded := recorded + [crash.store.rows];
      match script.wire
      case Accepted => end := Sent(hash);
      case Failed(error) => end := Ambiguous(error);
      case RejectedOutright => end := PreBroadcast("refused");
      case CannotPay => end := PreBroadcast("refused");
    }
  }

  /** The horizon on the row fences for at least as long as the one that was resolved. */
  predicate HorizonAtLeast(row: TxIntent, horizon: Option<nat>) {
    horizon.Some? ==> row.relayMaxBlock.Some? && horizon.value <= row.relayMaxBlock.value
  }

  /** What the write after the send leaves on the row, whether or not there had been a record. */
  predicate Reported(row: TxIntent, r: Commit, recorded: bool, horizon: Option<nat>) {
    && row.status == Submitted
    && (r.Broadcast? ==> row.txHash == Some(r.hash))
    && (r.Aborted? ==> row.error == Some(r.error))
    && (recorded ==> HorizonAtLeast(row, horizon))
  }

  /** The row says so, unless nothing was recorded and it is no longer the attempt that was claimed. */
  predicate LeftReported(rows: Rows, id: Id, at: nat, r: Commit, recorded: bool, horizon: Option<nat>) {
    id in rows && (Reported(rows[id], r, recorded, horizon) || (!recorded && !TransitionApplies(rows, id, BoundTo(at))))
  }

  /** Nothing stands in the way of the record: no halt, a nonce on offer, and the row still the claimed attempt. */
  predicate MayRecord(script: Script, a: N.Alloc, atTurn: Rows, id: Id, at: nat) {
    && !script.haltedBeforeSend && Records(script) && N.Offer(Queued(a, script.queue)).Some?
    && TransitionApplies(atTurn, id, BoundTo(at))
  }

  /**
   * With the resolved horizon on the row, its nonce stays fenced until the head is past the head at submission
   * plus the whole configured window, whatever else is written during the attempt.
   */
  lemma ReportedWindowIsHonoured(rows: Rows, r: Commit, ops: seq<Stamped>, id: Id, head: nat, answer: RelayAnswer,
                                 horizonBlocks: nat, check: LivenessCheck, node: TxHash -> bool,
                                 relay: TxHash -> RelayAnswer)
    requires id in rows && Reported(rows[id], r, true, Some(ResolveHorizon(head, answer, horizonBlocks)))
    requires OneAttempt(rows, ops, id)
    requires var end := Replay(rows, ops);
             id in end && end[id].txHash.Some?
             && !CouldBeInFlight(check, RelayAwareReader(node, relay), end[id].txHash.value, end[id].updatedAt,
                                 end[id].relayMaxBlock)
    ensures check.head.Some? && check.reclaimMarginBlocks.Some?
    ensures check.head.value > head + horizonBlocks + check.reclaimMarginBlocks.value
  {
    ReleaseWaitsForEveryHorizon(rows, ops, id, check, node, relay);
  }

  lemma RowsAllStay(rows: Rows, ops: seq<Stamped>)
    ensures rows.Keys <= Replay(rows, ops).Keys
  {
    forall id | id in rows
      ensures id in Replay(rows, ops)
    {
      RowsStay(rows, ops, id);
    }
  }

  class AutoExecutor {
    const crash: CrashSafety
    const sender: TxSender

    constructor (crash: CrashSafety, sender: TxSender)
      ensures this.crash == crash && this.sender == sender
    {
      this.crash, this.sender := crash, sender;
    }

    /** Other engines use the store while this send is queued. */
    method Wait(others: seq<Stamped>)
      modifies crash.store`rows
      ensures crash.store.rows == Replay(old(crash.store.rows), others)
    {
      var rows, todo := crash.store.rows, others;
      while todo != []
        invariant Replay(rows, todo) == Replay(crash.store.rows, others)
        decreases |todo|
      {
        rows, todo := After(rows, todo[0].op, todo[0].at), todo[1..];
      }
      crash.store.rows := rows;
    }

    /** Other sends and resyncs have the lock first. */
    method Queue(queue: seq<Section>)
      requires crash.nonces.Valid()
      modifies crash.nonces, crash.nonces.lease
      ensures crash.nonces.Valid() && crash.nonces.View() == Queued(old(crash.nonces.View()), queue)
    {
      var todo := queue;
      while todo != []
        invariant crash.nonces.Valid() && Queued(crash.nonces.View(), todo) == Queued(old(crash.nonces.View()), queue)
        decreases |todo|
      {
        match todo[0] {
          case Takes =>
            var nonce, end := crash.nonces.WithNonce(N.Returned(()));
          case Reseeds(seed) =>
            crash.nonces.Resync(seed);
        }
        todo := todo[1..];
      }
    }

    /** Everything inside `commit`'s try: the send under the allocator's lock. */
    method TrySend(id: Id, attemptAt: nat, script: Script, now: nat)
      returns (end: SendEnd, signedHash: Option<TxHash>, nonce: Option<nat>)
      requires crash.nonces.Valid()
      modifies crash.store`rows, crash.nonces, crash.nonces.lease, sender
      ensures crash.nonces.Valid()
      ensures nonce.None? ==> end.PreBroadcast? && signedHash.None?
      ensures nonce.Some? ==>
                && nonce == N.Offer(Queued(old(crash.nonces.View()), script.queue))
                && crash.nonces.View() == N.Taken(Queued(old(crash.nonces.View()), script.queue))
      ensures signedHash.Some? ==>
                && nonce.Some? && signedHash == Some(script.hashFor(nonce.value))
                && CarriesInFlight(crash.store.rows, id, nonce.value, signedHash.value)
                && TransitionApplies(Replay(old(crash.store.rows), script.others), id, BoundTo(attemptAt))
      ensures signedHash.None? ==> end.PreBroadcast? && sender.handed == old(sender.handed)
      ensures crash.store.rows == Replay(old(crash.store.rows), script.others)
              || crash.store.rows == old(crash.store.rows)
              || TransitionApplies(Replay(old(crash.store.rows), script.others), id, BoundTo(attemptAt))
      ensures script.haltedBeforeSend ==> crash.store.rows == old(crash.store.rows)
      ensures !script.haltedBeforeSend
              && !TransitionApplies(Replay(old(crash.store.rows), script.others), id, BoundTo(attemptAt)) ==>
                crash.store.rows == Replay(old(crash.store.rows), script.others)
      ensures sender.durable == old(sender.durable) + if signedHash.Some? then [signedHash.value] else []
      ensures signedHash.Some? <==>
                MayRecord(script, old(crash.nonces.View()), Replay(old(crash.store.rows), script.others), id, attemptAt)
      ensures sender.handed != old(sender.handed) <==> signedHash.Some? && !script.haltedBeforeBroadcast
      ensures old(crash.store.rows).Keys <= crash.store.rows.Keys
      ensures sender.handed == old(sender.handed) ==> end.PreBroadcast? && sender.recorded == old(sender.recorded)
      ensures sender.handed != old(sender.handed) ==>
                && signedHash.Some? && sender.recorded == old(sender.recorded) + [crash.store.rows]
                && sender.handed == old(sender.handed) + [Handover(signedHash.value, script.wire)]
                && (end.PreBroadcast? <==> CertainlyRefused(script.wire))
                && (end.Sent? <==> script.wire.Accepted?) && (end.Sent? ==> end.hash == signedHash.value)
    {
      if script.haltedBeforeSend {
        return PreBroadcast("halted"), None, None;
      }
      RowsAllStay(crash.store.rows, script.others);
      Wait(script.others);
      Queue(script.queue);
      var section;
      nonce, section := crash.nonces.WithNonce(N.Returned(()));
      if nonce.None? {
        return PreBroadcast("nonce lease is not seeded"), None, None;
      }
      end, signedHash := sender.Send(crash, id, attemptAt, nonce.value, script, now);
    }

    /** The write after the send, and the report. Without a durable record it is bound to the claim. */
    method Report(id: Id, attemptAt: nat, end: SendEnd, signedHash: Option<TxHash>, script: Script, later: nat)
      returns (r: Commit)
      requires end.Sent? ==> signedHash == Some(end.hash)
      modifies crash.store`rows
      ensures !r.AlreadyClaimed?
      ensures Attempted(r) <==> end.Sent? || (end.Ambiguous? && signedHash.Some?)
      ensures Attempted(r) ==> signedHash == if r.Broadcast? then Some(r.hash) else r.txHash
      ensures forall n, h :: signedHash == Some(h) && CarriesInFlight(old(crash.store.rows), id, n, h) ==>
                CarriesInFlight(crash.store.rows, id, n, h)
      ensures signedHash.None? && !TransitionApplies(old(crash.store.rows), id, BoundTo(attemptAt)) ==>
                crash.store.rows == old(crash.store.rows)
      ensures script.lateWriteFails ==> crash.store.rows == old(crash.store.rows)
      ensures !script.lateWriteFails && id in old(crash.store.rows)
              && (signedHash.Some? || TransitionApplies(old(crash.store.rows), id, BoundTo(attemptAt))) ==>
                id in crash.store.rows && Reported(crash.store.rows[id], r, signedHash.Some?, script.horizon)
      ensures crash.store.rows.Keys == old(crash.store.rows).Keys
      ensures forall x :: x in old(crash.store.rows) && x != id ==> crash.store.rows[x] == old(crash.store.rows)[x]
      ensures r.Broadcast? <==> end.Sent?
      ensures r.Aborted? ==> (end.PreBroadcast? || end.Ambiguous?) && r.error == end.error
    {
      if end.Sent? {
        crash.Transition(id, Submitted, Meta(None, Some(end.hash), None, script.horizon), ANYTHING,
                         script.lateWriteFails, later);
        return Broadcast(end.hash, id);
      }
      var error := end.error;
      var meta := Meta(None, None, Some(error), if signedHash.Some? then script.horizon else None);
      crash.Transition(id, Submitted, meta, if signedHash.Some? then ANYTHING else BoundTo(attemptAt),
                       script.lateWriteFails, later);
      r := if end.Ambiguous? && signedHash.Some? then Aborted(true, signedHash, error) else Aborted(false, None, error);
    }

    /** All that a send can be seen by: the rows, the allocator, and what went to the broadcaster. */
    ghost function Seen(): Scene
      reads crash, crash.store, crash.nonces, crash.nonces.lease, sender
    {
      Scene(crash.store.rows, crash.nonces.View(), sender.handed, sender.recorded, sender.durable)
    }

    /** `commit`'s try and catch: send and report, while the rest of the process goes on. */
    method Deliver(id: Id, attemptAt: nat, script: Script, now: nat, later: nat) returns (r: Commit)
      requires crash.nonces.Valid() && id in crash.store.rows
      modifies crash.store`rows, crash.nonces, crash.nonces.lease, sender
      ensures crash.nonces.Valid() && !r.AlreadyClaimed?
      ensures HandsOver(old(Seen()), Seen(), id, attemptAt, script, r)
      ensures Accounts(old(Seen()), Seen(), id, attemptAt, script, r)
    {
      ghost var atClaim := crash.store.rows;
      var end, signedHash, nonce := TrySend(id, attemptAt, script, now);
      ghost var sent := crash.store.rows;
      RowsAllStay(sent, script.meanwhile);
      Wait(script.meanwhile);
      SparedOnceRecorded(sent, script, id, signedHash, nonce);
      LostAttemptStaysLost(atClaim, sent, script, id, attemptAt);
      r := Report(id, attemptAt, end, signedHash, script, later);
    }

    /**
     * Claim, send and report. The row stays in flight whatever happens to the send; reconcile has the last
     * word.
     */
    method Commit(input: IntentInput, script: Script, claimAt: nat, now: nat, later: nat) returns (r: Commit)
      requires crash.nonces.Valid()
      modifies crash`sending, crash.store`rows, crash.nonces, crash.nonces.lease, sender
      ensures crash.nonces.Valid()
      ensures r.AlreadyClaimed? <==> Refuses(old(crash.store.rows), input)
      ensures r.AlreadyClaimed? ==>
                && Seen() == old(Seen()) && crash.sending == old(crash.sending)
                && r.existing == old(crash.store.rows)[IdempotencyKey(input)]
      ensures !r.AlreadyClaimed? ==>
                var claimed := old(Seen()).(rows := After(old(crash.store.rows), RecordIntentOp(input), claimAt));
                && crash.sending == old(crash.sending) - {IdempotencyKey(input)}
                && HandsOver(claimed, Seen(), IdempotencyKey(input), claimAt, script, r)
                && Accounts(claimed, Seen(), IdempotencyKey(input), claimAt, script, r)
    {
      var claimed := crash.Claim(input, claimAt);
      if claimed.Duplicate? {
        return AlreadyClaimed(claimed.existing);
      }
      crash.BeginSend(claimed.intentId);
      r := Deliver(claimed.intentId, claimed.attemptAt, script, now, later);
      crash.EndSend(claimed.intentId);
    }
  }

  /** What can be seen of the process around a send. */
  datatype Scene = Scene(rows: Rows, alloc: N.Alloc, handed: seq<Handover>, recorded: seq<Rows>, durable: seq<TxHash>)

  /** The last bytes handed over, and what is left of them on the row when the send has ended. */
  predicate LastHandedOver(s: Scene, id: Id, offer: Option<nat>, meanwhile: seq<Stamped>) {
    && |s.handed| > 0 && |s.recorded| > 0 && offer.Some?
    && var hash := s.handed[|s.handed| - 1].hash;
       && CarriesInFlight(s.recorded[|s.recorded| - 1], id, offer.value, hash)
       && (AllSpare(meanwhile, id, offer.value, hash) ==> CarriesInFlight(s.rows, id, offer.value, hash))
  }

  /**
   * A record is made exactly when nothing stands in its way, and the bytes are handed over, once, exactly when it
   * was made and no halt came after it. At the handover the row carries the nonce then on offer and their hash.
   */
  predicate HandsOver(s: Scene, s': Scene, id: Id, at: nat, script: Script, r: Commit) {
    && (s'.durable != s.durable <==> MayRecord(script, s.alloc, Replay(s.rows, script.others), id, at))
    && |s'.durable| <= |s.durable| + 1
    && (s'.handed != s.handed <==> s'.durable != s.durable && !script.haltedBeforeBroadcast)
    && |s'.handed| <= |s.handed| + 1 && s.handed <= s'.handed
    && (s'.handed != s.handed ==>
          && s'.handed[|s.handed|].wire == script.wire
          && LastHandedOver(s', id, N.Offer(Queued(s.alloc, script.queue)), script.meanwhile))
  }

  /**
   * A broadcast is reported exactly for bytes that were accepted, an attempt exactly for bytes that were handed
   * over and not certainly refused, each under its hash. The row says what was reported, and an attempt that was
   * lost before its record is left alone.
   */
  predicate Accounts(s: Scene, s': Scene, id: Id, at: nat, script: Script, r: Commit) {
    && (r.Broadcast? <==> s'.handed != s.handed && script.wire.Accepted?)
    && (Attempted(r) <==> s'.handed != s.handed && !CertainlyRefused(script.wire))
    && (Attempted(r) ==>
          |s'.handed| > 0 && (if r.Broadcast? then Some(r.hash) else r.txHash) == Some(s'.handed[|s'.handed| - 1].hash))
    && (!script.lateWriteFails ==> LeftReported(s'.rows, id, at, r, s'.durable != s.durable, script.horizon))
    && (!script.haltedBeforeSend && NoneStamped(script.meanwhile, at)
        && !TransitionApplies(Replay(s.rows, script.others), id, BoundTo(at)) ==>
          s'.rows == Replay(Replay(s.rows, script.others), script.meanwhile))
  }

  lemma SparedOnceRecorded(sent: Rows, script: Script, id: Id, signedHash: Option<TxHash>, nonce: Option<nat>)
    requires signedHash.Some? ==> nonce.Some? && CarriesInFlight(sent, id, nonce.value, signedHash.value)
    ensures signedHash.Some? && AllSpare(script.meanwhile, id, nonce.value, signedHash.value) ==>
              CarriesInFlight(Replay(sent, script.meanwhile), id, nonce.value, signedHash.value)
  {
    if signedHash.Some? && AllSpare(script.meanwhile, id, nonce.value, signedHash.value) {
      SparedRowStaysInFlight(sent, script.meanwhile, id, nonce.value, signedHash.value);
    }
  }

  lemma LostAttemptStaysLost(atClaim: Rows, sent: Rows, script: Script, id: Id, at: nat)
    requires id in atClaim
    ensures sent == Replay(atClaim, script.others) && !TransitionApplies(sent, id, BoundTo(at))
            && NoneStamped(script.meanwhile, at) ==>
              !TransitionApplies(Replay(sent, script.meanwhile), id, BoundTo(at))
  {
    if sent == Replay(atClaim, script.others) && !TransitionApplies(sent, id, BoundTo(at))
       && NoneStamped(script.meanwhile, at) {
      RowsStay(atClaim, script.others, id);
      AttemptIsNotRestored(sent, script.meanwhile, id, at);
    }
  }

  // ---- Proposing ------------------------------------------------------------------------------------

  datatype Proposal = FreshProposal(intentId: Id) | DuplicateOf(existing: TxIntent)

  /**
   * Propose under the action's key: a live row with the same payload is a duplicate; one whose payload
   * changed is retired if nobody has claimed it, and never while it carries an envelope.
   */
  method Propose(store: MemoryStateStore, input: IntentInput, payload: ProposedTx, now: nat) returns (r: Proposal)
    requires input.chainId == payload.chainId
    modifies store`rows
    ensures var id := IdempotencyKey(input);
            var before := old(store.rows);
            var outdated := id in before && IsLive(before[id]) && before[id].payloadHash != Some(HashPayload(payload))
                            && SupersedeApplies(before, id);
            && id in store.rows && IsLive(store.rows[id])
            && (r.FreshProposal? <==> !Refuses(before, input) || outdated)
            && (r.FreshProposal? ==>
                  && r.intentId == id && store.rows[id].status == Proposed
                  && store.rows[id].payload == Some(payload)
                  && store.rows[id].payloadHash == Some(HashPayload(payload))
                  && store.rows[id].safeEnvelope.None?)
            && (r.DuplicateOf? ==> store.rows == before && r.existing == before[id])
            && (forall x :: x in before && x != id ==> x in store.rows && store.rows[x] == before[x])
  {
    var hash := HashPayload(payload);
    var recorded := store.Propose(input, payload, hash, now);
    match recorded.value
    case Recorded(id, _) =>
      return FreshProposal(id);
    case Refused(existing) =>
      if existing.payloadHash == Some(hash) {
        return DuplicateOf(existing);
      }
      var id := IdempotencyKey(input);
      var retired := store.Supersede(id, now);
      var second := store.Propose(input, payload, hash, now);
      match second.value
      case Recorded(anew, _) =>
        return FreshProposal(anew);
      case Refused(other) =>
        return DuplicateOf(other);
  }
}
