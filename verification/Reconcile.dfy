/** Resolving persisted in-flight intents against the chain: three resolvers and the pass that applies them. */
module Reconcile {
  import opened Common
  import opened Persistence
  import opened Liveness

  datatype ReceiptStatus = Succeeded | Reverted

  /** How a Safe's `execTransaction` resolved. */
  datatype SafeOutcome = SafeSuccess | SafeFailure | SafeReverted | NoEvent | NoReceipt

  /** A log scan for one SafeTx: found in some transaction, absent, or the scan itself failed. */
  datatype Scan = FoundIn(txHash: TxHash, success: bool) | NotFoundAnywhere | ScanFailed

  datatype NonceCounts = NonceCounts(latest: nat, pending: nat)

  /** Everything the chain answered about one intent. */
  datatype Answers = Answers(receipt: Option<ReceiptStatus>, reader: Reader, safe: SafeOutcome, scan: Scan)

  datatype Bucket = InConfirmed | InFailed | InStillInFlight

  datatype Resolution = Resolution(status: Option<Status>, meta: Meta, bucket: Bucket, repairHorizon: bool)

  const STILL_IN_FLIGHT := Resolution(None, NO_META, InStillInFlight, false)
  const STILL_IN_FLIGHT_UNFENCED := Resolution(None, NO_META, InStillInFlight, true)

  function ConfirmedAs(meta: Meta): Resolution {
    Resolution(Some(Confirmed), meta, InConfirmed, false)
  }

  function FailedAs(meta: Meta): Resolution {
    Resolution(Some(Failed), meta, InFailed, false)
  }

  function WithHash(h: TxHash): Meta {
    NO_META.(txHash := Some(h))
  }

  function HashError(h: TxHash, error: string): Meta {
    NO_META.(txHash := Some(h), error := Some(error))
  }

  function Because(error: string): Meta {
    NO_META.(error := Some(error))
  }

  predicate Young(check: LivenessCheck, intent: TxIntent) {
    check.now - intent.updatedAt < Grace(check)
  }

  function ResolveFound(scan: Scan): Resolution
    requires scan.FoundIn?
  {
    if scan.success then ConfirmedAs(WithHash(scan.txHash))
    else FailedAs(HashError(scan.txHash, "Safe inner call reverted (ExecutionFailure)"))
  }

  function ResolveSafeIntent(check: LivenessCheck, intent: TxIntent, outcome: SafeOutcome, scan: Scan): Resolution
    requires IsSafe(intent)
  {
    var h := intent.txHash.value;
    match outcome
    case SafeSuccess => ConfirmedAs(WithHash(h))
    case SafeFailure => FailedAs(HashError(h, "Safe inner call reverted (ExecutionFailure)"))
    case SafeReverted => (
      match scan
      case ScanFailed => STILL_IN_FLIGHT
      case FoundIn(_, _) => ResolveFound(scan)
      case NotFoundAnywhere => FailedAs(HashError(h, "Safe execTransaction reverted")))
    case NoEvent => FailedAs(HashError(h, "Safe tx mined without a matching Execution event"))
    case NoReceipt =>
      if Young(check, intent) then STILL_IN_FLIGHT
      else if scan.FoundIn? then ResolveFound(scan)
      else STILL_IN_FLIGHT
  }

  function ResolveBroadcastIntent(check: LivenessCheck, nonces: NonceCounts, intent: TxIntent,
                                  receipt: Option<ReceiptStatus>, reader: Reader): Resolution
    requires IsBroadcast(intent)
  {
    var h := intent.txHash.value;
    if receipt == Some(Succeeded) then ConfirmedAs(WithHash(h))
    else if receipt == Some(Reverted) then FailedAs(HashError(h, "reverted (reconciled)"))
    else if intent.nonce.None? then STILL_IN_FLIGHT
    else if nonces.latest > intent.nonce.value then FailedAs(HashError(h, "dropped/replaced (reconciled)"))
    else if nonces.pending <= intent.nonce.value
            && !CouldBeInFlight(check, reader, h, intent.updatedAt, intent.relayMaxBlock)
    then FailedAs(HashError(h, "not accepted (reconciled)"))
    else if check.reclaimMarginBlocks.Some? && intent.relayMaxBlock.None? then STILL_IN_FLIGHT_UNFENCED
    else STILL_IN_FLIGHT
  }

  function ResolveUnbroadcastIntent(check: LivenessCheck, nonces: NonceCounts, intent: TxIntent): Resolution
  {
    if intent.status == Pending && intent.nonce.None? && intent.txHash.None? && Young(check, intent)
    then STILL_IN_FLIGHT
    else if intent.nonce.Some? && nonces.latest > intent.nonce.value
    then FailedAs(Because("nonce mined without recorded hash"))
    else if intent.nonce.Some? && nonces.pending > intent.nonce.value
    then Resolution(Some(Submitted), Because("broadcast unconfirmed on boot"), InStillInFlight, false)
    else FailedAs(Because("not broadcast (reconciled)"))
  }

  function Resolve(check: LivenessCheck, nonces: NonceCounts, intent: TxIntent, answers: Answers): Resolution {
    if IsSafe(intent) then ResolveSafeIntent(check, intent, answers.safe, answers.scan)
    else if IsBroadcast(intent) then ResolveBroadcastIntent(check, nonces, intent, answers.receipt, answers.reader)
    else ResolveUnbroadcastIntent(check, nonces, intent)
  }

  /** Bind a write to the row version the pass read. */
  function AsRead(intent: TxIntent): Expectation {
    Expectation(Some(intent.updatedAt), intent.txHash, Some({intent.status}))
  }

  predicate Ends(r: Resolution) {
    r.status == Some(Confirmed) || r.status == Some(Failed)
  }

  // ---- What a resolution needs ----------------------------------------------------------------

  /** A signed intent outside Safe custody ends on exactly three kinds of evidence. */
  lemma SignedEndsExactly(check: LivenessCheck, nonces: NonceCounts, intent: TxIntent, answers: Answers)
    requires IsSigned(intent) && !IsSafe(intent)
    ensures Ends(Resolve(check, nonces, intent, answers)) <==>
              || answers.receipt.Some?
              || nonces.latest > intent.nonce.value
              || (nonces.pending <= intent.nonce.value
                  && !CouldBeInFlight(check, answers.reader, intent.txHash.value, intent.updatedAt,
                                      intent.relayMaxBlock))
    ensures Resolve(check, nonces, intent, answers).status == Some(Confirmed) <==> answers.receipt == Some(Succeeded)
    ensures Resolve(check, nonces, intent, answers).status.Some? ==> Ends(Resolve(check, nonces, intent, answers))
  {
    // The receipt, the nonce and the judgement are consulted in this order.
    match answers.receipt
    case Some(Succeeded) =>
    case Some(Reverted) =>
    case None =>
  }

  /**
   * Reconcile and the nonce fence cannot disagree: an intent is ended without a receipt and without
   * its nonce being spent only when, on the same answers, the fence no longer reserves that nonce.
   */
  lemma EndedIntentIsNotFenced(check: LivenessCheck, nonces: NonceCounts, intent: TxIntent, answers: Answers)
    requires IsSigned(intent) && !IsSafe(intent)
    requires Ends(Resolve(check, nonces, intent, answers))
    requires answers.receipt.None? && nonces.latest <= intent.nonce.value
    ensures !CouldBeInFlight(check, answers.reader, intent.txHash.value, intent.updatedAt, intent.relayMaxBlock)
  {
    SignedEndsExactly(check, nonces, intent, answers);
  }

  /**
   * And they do disagree in exactly two ways: an intent the fence still reserves for is ended if and only if
   * it has a receipt or its nonce is spent.
   */
  lemma EndedWhileFencedExactly(check: LivenessCheck, nonces: NonceCounts, intent: TxIntent, answers: Answers)
    requires IsSigned(intent) && !IsSafe(intent)
    ensures var fenced := CouldBeInFlight(check, answers.reader, intent.txHash.value, intent.updatedAt,
                                          intent.relayMaxBlock);
            Ends(Resolve(check, nonces, intent, answers)) && fenced <==>
              fenced && (answers.receipt.Some? || nonces.latest > intent.nonce.value)
  {
    SignedEndsExactly(check, nonces, intent, answers);
  }

  /**
   * Within the grace window the fence reserves for any signed intent. A receipt ends one all the same, and so
   * does another transaction mined at its nonce.
   */
  lemma FencedIntentsEnd()
    ensures var input := IntentInput(1, "token", "approval", "spender");
            var intent := TxIntent(IdempotencyKey(input), input, Submitted, Some(7), Some("h"), None, None, None, None,
                                   None, 0, 1000);
            var check := LivenessCheck(1001, None, None, None);
            var answers := Answers(Some(Succeeded), Reader(h => false, None), NoReceipt, NotFoundAnywhere);
            && IsSigned(intent) && !IsSafe(intent)
            && CouldBeInFlight(check, answers.reader, "h", intent.updatedAt, intent.relayMaxBlock)
            && Resolve(check, NonceCounts(7, 8), intent, answers).status == Some(Confirmed)
            && Resolve(check, NonceCounts(8, 8), intent, answers.(receipt := None)).status == Some(Failed)
  {
  }

  /** A Safe intent is confirmed only on an execution event, and never ended on a failed log scan. */
  lemma SafeConfirmsOnEventsOnly(check: LivenessCheck, nonces: NonceCounts, intent: TxIntent, answers: Answers)
    requires IsSafe(intent)
    ensures Resolve(check, nonces, intent, answers).status == Some(Confirmed) <==>
              || answers.safe == SafeSuccess
              || (answers.scan.FoundIn? && answers.scan.success
                  && (answers.safe == SafeReverted || (answers.safe == NoReceipt && !Young(check, intent))))
    ensures answers.scan == ScanFailed && answers.safe in {SafeReverted, NoReceipt} ==>
              Resolve(check, nonces, intent, answers) == STILL_IN_FLIGHT
  {
  }

  /** The recorded transaction of a Safe intent mined, and its own receipt says how. */
  predicate AnsweredByItself(answers: Answers) {
    answers.safe in {SafeSuccess, SafeFailure, NoEvent}
  }

  /** What there is to know when it did not: a revert at once, no receipt only past the grace window. */
  predicate AskedElsewhere(check: LivenessCheck, intent: TxIntent, answers: Answers) {
    answers.safe == SafeReverted || (answers.safe == NoReceipt && Grace(check) <= check.now - intent.updatedAt)
  }

  /**
   * A Safe intent ends in exactly three ways: its recorded transaction mined and says so itself, it reverted
   * and the scan did not fail, or past the grace window it has no receipt and the scan found the SafeTx.
   * An intent with neither a receipt nor an execution found elsewhere never ends.
   */
  lemma SafeEndsExactly(check: LivenessCheck, nonces: NonceCounts, intent: TxIntent, answers: Answers)
    requires IsSafe(intent)
    ensures Ends(Resolve(check, nonces, intent, answers)) <==>
              || AnsweredByItself(answers)
              || (answers.safe == SafeReverted && answers.scan != ScanFailed)
              || (answers.safe == NoReceipt && Grace(check) <= check.now - intent.updatedAt && answers.scan.FoundIn?)
    ensures answers.safe == NoReceipt && !answers.scan.FoundIn? ==>
              Resolve(check, nonces, intent, answers) == STILL_IN_FLIGHT
    ensures Resolve(check, nonces, intent, answers).status.Some? ==> Ends(Resolve(check, nonces, intent, answers))
    ensures !Resolve(check, nonces, intent, answers).repairHorizon
  {
  }

  /** The hash it ends under is that of the transaction that carried the verdict, found elsewhere or recorded. */
  lemma SafeEndsUnderTheCarrier(check: LivenessCheck, nonces: NonceCounts, intent: TxIntent, answers: Answers)
    requires IsSafe(intent) && Ends(Resolve(check, nonces, intent, answers))
    ensures Resolve(check, nonces, intent, answers).meta.txHash ==
              if AskedElsewhere(check, intent, answers) && answers.scan.FoundIn? then Some(answers.scan.txHash)
              else intent.txHash
    ensures Resolve(check, nonces, intent, answers).meta.nonce.None?
    ensures Resolve(check, nonces, intent, answers).meta.relayMaxBlock.None?
  {
  }

  /** Broadcast from an operator's own wallet, an intent has no nonce to reason from: only a receipt ends it. */
  lemma WithoutNonceOnlyReceiptsEnd(check: LivenessCheck, nonces: NonceCounts, intent: TxIntent, answers: Answers)
    requires IsBroadcast(intent) && !IsSafe(intent) && intent.nonce.None?
    ensures Ends(Resolve(check, nonces, intent, answers)) <==> answers.receipt.Some?
    ensures Resolve(check, nonces, intent, answers).status == Some(Confirmed) <==> answers.receipt == Some(Succeeded)
    ensures answers.receipt.None? ==> Resolve(check, nonces, intent, answers) == STILL_IN_FLIGHT
  {
    match answers.receipt
    case Some(Succeeded) =>
    case Some(Reverted) =>
    case None =>
  }

  /**
   * Without a hash an intent ends exactly when its nonce has mined, or neither the chain nor the pool has it and
   * nobody can still be signing it; with its nonce in the pool it is kept live as submitted.
   */
  lemma UnbroadcastEndsExactly(check: LivenessCheck, nonces: NonceCounts, intent: TxIntent, answers: Answers)
    requires !IsBroadcast(intent)
    ensures var young := check.now - intent.updatedAt < Grace(check);
            var signing := intent.status == Pending && intent.nonce.None? && young;
            var r := Resolve(check, nonces, intent, answers);
            && (r.status == Some(Failed) <==>
                  if intent.nonce.None? then !signing
                  else nonces.latest > intent.nonce.value || nonces.pending <= intent.nonce.value)
            && (r.status == Some(Submitted) <==>
                  intent.nonce.Some? && nonces.latest <= intent.nonce.value < nonces.pending)
            && (r.status.None? <==> signing)
            && (r.status.Some? ==> r.meta.error.Some? && r.meta.txHash.None? && r.meta.nonce.None?)
  {
  }

  /**
   * A horizon is asked for exactly when a signed intent stays in flight under private submission without one,
   * and nothing else about the row is written with it.
   */
  lemma RepairsExactly(nonces: NonceCounts, intent: TxIntent, turn: Turn)
    requires IsSigned(intent) && !IsSafe(intent) && !turn.sending
    ensures var ends := Ends(Resolve(turn.check, nonces, intent, turn.answers));
            var fence := turn.check.reclaimMarginBlocks.Some? && intent.relayMaxBlock.None? && turn.repair.Recovered?;
            WriteOf(nonces, intent, turn).Some? <==> ends || fence
    ensures var op := WriteOf(nonces, intent, turn);
            op.Some? && !Ends(Resolve(turn.check, nonces, intent, turn.answers)) ==>
              op == Some(TransitionOp(intent.id, intent.status, Meta(None, None, None, Some(turn.repair.block)),
                                      AsRead(intent)))
  {
    SignedEndsExactly(turn.check, nonces, intent, turn.answers);
  }

  predicate Coherent(r: Resolution) {
    && (r.bucket == InConfirmed <==> r.status == Some(Confirmed))
    && (r.bucket == InFailed <==> r.status == Some(Failed))
  }

  lemma SafeCountedAsResolved(check: LivenessCheck, intent: TxIntent, outcome: SafeOutcome, scan: Scan)
    requires IsSafe(intent)
    ensures Coherent(ResolveSafeIntent(check, intent, outcome, scan))
  {
  }

  lemma BroadcastCountedAsResolved(check: LivenessCheck, nonces: NonceCounts, intent: TxIntent,
                                   receipt: Option<ReceiptStatus>, reader: Reader)
    requires IsBroadcast(intent)
    ensures Coherent(ResolveBroadcastIntent(check, nonces, intent, receipt, reader))
  {
  }

  lemma CountedAsResolved(check: LivenessCheck, nonces: NonceCounts, intent: TxIntent, answers: Answers)
    ensures Coherent(Resolve(check, nonces, intent, answers))
  {
    if IsSafe(intent) {
      SafeCountedAsResolved(check, intent, answers.safe, answers.scan);
    } else if IsBroadcast(intent) {
      BroadcastCountedAsResolved(check, nonces, intent, answers.receipt, answers.reader);
    }
  }

  /** What is written is what was resolved, and the summary counts it under that name. */
  lemma WrittenAsCounted(nonces: NonceCounts, intent: TxIntent, turn: Turn)
    ensures BucketOf(nonces, intent, turn) == InConfirmed <==>
              WriteOf(nonces, intent, turn).Some? && WriteOf(nonces, intent, turn).value.to == Confirmed
              && Ends(Resolve(turn.check, nonces, intent, turn.answers))
    ensures BucketOf(nonces, intent, turn) == InFailed <==>
              WriteOf(nonces, intent, turn).Some? && WriteOf(nonces, intent, turn).value.to == Failed
              && Ends(Resolve(turn.check, nonces, intent, turn.answers))
    ensures turn.sending ==> WriteOf(nonces, intent, turn).None?
  {
    if !turn.sending {
      CountedAsResolved(turn.check, nonces, intent, turn.answers);
    }
  }

  // ---- The write lands on the version that was judged ------------------------------------------

  predicate StampedAfter(ops: seq<Stamped>, at: nat) {
    forall i :: 0 <= i < |ops| ==> at < ops[i].at
  }

  /** As long as every write stamps afresh, the guard holds exactly while the row is untouched. */
  lemma {:induction false} AsReadPinsTheVersion(rows: Rows, ops: seq<Stamped>, id: Id)
    requires id in rows && StampedAfter(ops, rows[id].updatedAt)
    ensures id in Replay(rows, ops)
    ensures Replay(rows, ops)[id] == rows[id] || Replay(rows, ops)[id].updatedAt > rows[id].updatedAt
    ensures TransitionApplies(Replay(rows, ops), id, AsRead(rows[id])) <==> Replay(rows, ops)[id] == rows[id]
    decreases |ops|
  {
    if ops != [] {
      var next := After(rows, ops[0].op, ops[0].at);
      WritesAreStamped(rows, ops[0].op, ops[0].at, id);
      if next[id] == rows[id] {
        AsReadPinsTheVersion(next, ops[1..], id);
      } else {
        StampsOnlyGrow(next, ops[1..], id, rows[id].updatedAt);
      }
    }
  }

  lemma {:induction false} StampsOnlyGrow(rows: Rows, ops: seq<Stamped>, id: Id, at: nat)
    requires id in rows && rows[id].updatedAt > at && StampedAfter(ops, at)
    ensures id in Replay(rows, ops) && Replay(rows, ops)[id].updatedAt > at
    decreases |ops|
  {
    if ops != [] {
      WritesAreStamped(rows, ops[0].op, ops[0].at, id);
      StampsOnlyGrow(After(rows, ops[0].op, ops[0].at), ops[1..], id, at);
    }
  }

  // ---- The pass --------------------------------------------------------------------------------

  /**
   * One iteration as the outside world shapes it: whether this process is sending the intent, the
   * answers it gets, whatever everyone else does to the store in the meantime, and the write's stamp.
   */
  datatype Turn = Turn(sending: bool, check: LivenessCheck, answers: Answers, repair: Repair, meanwhile: seq<Stamped>,
                       at: nat)

  /** The store operation one turn issues, if any. */
  function WriteOf(nonces: NonceCounts, intent: TxIntent, turn: Turn): Option<StoreOp> {
    if turn.sending then None
    else
      var r := Resolve(turn.check, nonces, intent, turn.answers);
      if r.status.Some? then Some(TransitionOp(intent.id, r.status.value, r.meta, AsRead(intent)))
      else if r.repairHorizon && IsBroadcast(intent) && turn.repair.Recovered?
      then Some(TransitionOp(intent.id, intent.status, NO_META.(relayMaxBlock := Some(turn.repair.block)),
                             AsRead(intent)))
      else None
  }

  function OwnWrite(nonces: NonceCounts, intent: TxIntent, turn: Turn): seq<Stamped> {
    var own := WriteOf(nonces, intent, turn);
    if own.Some? then [Stamped(own.value, turn.at)] else []
  }

  function BucketOf(nonces: NonceCounts, intent: TxIntent, turn: Turn): Bucket {
    if turn.sending then InStillInFlight else Resolve(turn.check, nonces, intent, turn.answers).bucket
  }

  /** The first `n` turns of a pass as one interleaved history of the store. */
  function History(nonces: NonceCounts, intents: seq<TxIntent>, turns: seq<Turn>, n: nat): seq<Stamped>
    requires n <= |intents| == |turns|
  {
    if n == 0 then []
    else History(nonces, intents, turns, n - 1) + turns[n - 1].meanwhile
         + OwnWrite(nonces, intents[n - 1], turns[n - 1])
  }

  function Count(nonces: NonceCounts, intents: seq<TxIntent>, turns: seq<Turn>, n: nat, b: Bucket): nat
    requires n <= |intents| == |turns|
  {
    if n == 0 then 0
    else Count(nonces, intents, turns, n - 1, b) + if BucketOf(nonces, intents[n - 1], turns[n - 1]) == b then 1 else 0
  }

  /** Every write during the pass is stamped after `at`. */
  predicate PassAfter(turns: seq<Turn>, at: nat) {
    forall j :: 0 <= j < |turns| ==> at < turns[j].at && StampedAfter(turns[j].meanwhile, at)
  }

  lemma {:induction false} HistoryAfter(nonces: NonceCounts, intents: seq<TxIntent>, turns: seq<Turn>, n: nat, at: nat)
    requires n <= |intents| == |turns| && PassAfter(turns, at)
    ensures StampedAfter(History(nonces, intents, turns, n), at)
  {
    if n > 0 {
      HistoryAfter(nonces, intents, turns, n - 1, at);
    }
  }

  lemma {:induction false} ReplayAppends(rows: Rows, a: seq<Stamped>, b: seq<Stamped>)
    ensures Replay(rows, a + b) == Replay(Replay(rows, a), b)
    decreases |a|
  {
    if a == [] {
      assert a + b == b;
    } else {
      assert (a + b)[1..] == a[1..] + b;
      ReplayAppends(After(rows, a[0].op, a[0].at), a[1..], b);
    }
  }

  /** The intent is a row of the work list, exactly as the store held it. */
  predicate ReadFrom(rows: Rows, intent: TxIntent) {
    intent.id in rows && rows[intent.id] == intent && IsInFlight(intent)
  }

  /** No write landed, or it replaced exactly the row that was judged. */
  predicate LandsOn(replaced: Option<TxIntent>, judged: TxIntent) {
    replaced == None || replaced == Some(judged)
  }

  /** The store is where the first `n` turns of the pass leave it. */
  ghost predicate Reached(start: Rows, rows: Rows, nonces: NonceCounts, intents: seq<TxIntent>, turns: seq<Turn>,
                          n: nat)
    requires n <= |intents| == |turns|
  {
    rows == Replay(start, History(nonces, intents, turns, n))
  }

  predicate AllLand(landed: seq<Option<TxIntent>>, intents: seq<TxIntent>) {
    |landed| <= |intents| && forall i :: 0 <= i < |landed| ==> LandsAt(landed, intents, i)
  }

  predicate LandsAt(landed: seq<Option<TxIntent>>, intents: seq<TxIntent>, i: nat)
    requires i < |landed| <= |intents|
  {
    LandsOn(landed[i], intents[i])
  }

  datatype Summary = Summary(examined: nat, confirmed: nat, failed: nat, stillInFlight: nat)

  /** The intents were read from these rows, and everything in the pass is written after them. */
  ghost predicate WorkRead(rows: Rows, intents: seq<TxIntent>, turns: seq<Turn>) {
    forall i :: 0 <= i < |intents| ==> ReadAt(rows, intents, turns, i)
  }

  predicate ReadAt(rows: Rows, intents: seq<TxIntent>, turns: seq<Turn>, i: nat)
    requires i < |intents|
  {
    ReadFrom(rows, intents[i]) && PassAfter(turns, intents[i].updatedAt)
  }

  function Counted(s: Summary, b: Bucket): Summary {
    match b
    case InConfirmed => s.(examined := s.examined + 1, confirmed := s.confirmed + 1)
    case InFailed => s.(examined := s.examined + 1, failed := s.failed + 1)
    case InStillInFlight => s.(examined := s.examined + 1, stillInFlight := s.stillInFlight + 1)
  }

  /** What the pass has to report after `n` turns. */
  ghost predicate Reported(nonces: NonceCounts, intents: seq<TxIntent>, turns: seq<Turn>, n: nat,
                           landed: seq<Option<TxIntent>>, s: Summary)
    requires n <= |intents| == |turns|
  {
    && |landed| == n && AllLand(landed, intents)
    && s.examined == n == s.confirmed + s.failed + s.stillInFlight
    && s.confirmed == Count(nonces, intents, turns, n, InConfirmed)
    && s.failed == Count(nonces, intents, turns, n, InFailed)
  }

  lemma ReportedSnoc(nonces: NonceCounts, intents: seq<TxIntent>, turns: seq<Turn>, n: nat,
                     landed: seq<Option<TxIntent>>, s: Summary, hit: Option<TxIntent>)
    requires n < |intents| == |turns| && Reported(nonces, intents, turns, n, landed, s) && LandsOn(hit, intents[n])
    ensures Reported(nonces, intents, turns, n + 1, landed + [hit], Counted(s, BucketOf(nonces, intents[n], turns[n])))
  {
    forall i | 0 <= i < n + 1
      ensures LandsAt(landed + [hit], intents, i)
    {
      assert i < n ==> LandsAt(landed, intents, i);
    }
  }

  /**
   * One pass over the work list it read. `landed[i]` is the row the i-th write replaced, if a write
   * landed: it is always the very row that was judged, however much the store moved in between.
   */
  method ReconcilePending(store: MemoryStateStore, intents: seq<TxIntent>, nonces: NonceCounts, turns: seq<Turn>)
    returns (summary: Summary, landed: seq<Option<TxIntent>>)
    requires |turns| == |intents|
    requires WorkRead(store.rows, intents, turns)
    modifies store`rows
    ensures Reached(old(store.rows), store.rows, nonces, intents, turns, |intents|)
    ensures Reported(nonces, intents, turns, |intents|, landed, summary)
  {
    landed, summary := [], Summary(0, 0, 0, 0);
    ghost var start := store.rows;
    for i := 0 to |intents|
      invariant Reached(start, store.rows, nonces, intents, turns, i)
      invariant Reported(nonces, intents, turns, i, landed, summary)
    {
      var hit, bucket := TakeTurn(store, nonces, intents, turns, i, start);
      ReportedSnoc(nonces, intents, turns, i, landed, summary, hit);
      landed, summary := landed + [hit], Counted(summary, bucket);
    }
  }

  /** One iteration: the world moves on, then the intent is judged and written. */
  method TakeTurn(store: MemoryStateStore, nonces: NonceCounts, intents: seq<TxIntent>, turns: seq<Turn>, i: nat,
                  ghost start: Rows)
    returns (hit: Option<TxIntent>, bucket: Bucket)
    requires i < |intents| == |turns|
    requires ReadAt(start, intents, turns, i)
    requires Reached(start, store.rows, nonces, intents, turns, i)
    modifies store`rows
    ensures Reached(start, store.rows, nonces, intents, turns, i + 1)
    ensures LandsOn(hit, intents[i])
    ensures bucket == BucketOf(nonces, intents[i], turns[i])
  {
    var intent, turn := intents[i], turns[i];
    ghost var done := History(nonces, intents, turns, i);
    ReplayAppends(start, done, turn.meanwhile);
    HistoryAfter(nonces, intents, turns, i, intent.updatedAt);
    AsReadPinsTheVersion(start, done + turn.meanwhile, intent.id);
    store.rows := Replay(store.rows, turn.meanwhile);
    hit, bucket := ReconcileOne(store, nonces, intent, turn);
    ReplayAppends(start, done + turn.meanwhile, OwnWrite(nonces, intent, turn));
  }

  /** One intent: judge it unless this process is sending it, and write the outcome guarded by what was read. */
  method ReconcileOne(store: MemoryStateStore, nonces: NonceCounts, intent: TxIntent, turn: Turn)
    returns (hit: Option<TxIntent>, bucket: Bucket)
    modifies store`rows
    ensures store.rows == Replay(old(store.rows), OwnWrite(nonces, intent, turn))
    ensures bucket == BucketOf(nonces, intent, turn)
    ensures hit == if WriteOf(nonces, intent, turn).Some?
                      && TransitionApplies(old(store.rows), intent.id, AsRead(intent))
                   then Some(old(store.rows)[intent.id]) else None
  {
    hit := None;
    if turn.sending {
      return None, InStillInFlight;
    }
    var resolution := Resolve(turn.check, nonces, intent, turn.answers);
    bucket := resolution.bucket;
    var before := store.rows;
    var applied := false;
    if resolution.status.Some? {
      applied := store.Transition(intent.id, resolution.status.value, resolution.meta, AsRead(intent), turn.at);
    } else if resolution.repairHorizon && IsBroadcast(intent) && turn.repair.Recovered? {
      applied := store.Transition(intent.id, intent.status, NO_META.(relayMaxBlock := Some(turn.repair.block)),
                                  AsRead(intent), turn.at);
    }
    if applied {
      hit := Some(before[intent.id]);
    }
  }
}
