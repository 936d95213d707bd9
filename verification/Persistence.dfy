/**
 * The intent store: persisted rows, their lifecycle, and the in-memory `StateStore`.
 *
 * Hashes are collision-free: a content hash is represented by the fields it commits to, so two
 * hashes agree exactly when those fields do. Transaction hashes stay opaque strings.
 */
module Persistence {
  import opened Common

  type Id = string
  type TxHash = string

  datatype Status = Proposed | Claimed | Pending | Submitted | Confirmed | Failed | Superseded | Expired

  const LIVE_FOR_DEDUP: set<Status> := {Proposed, Claimed, Pending, Submitted}
  const IN_FLIGHT_ON_CHAIN: set<Status> := {Pending, Submitted}
  const AWAITING_OPERATOR: set<Status> := {Proposed, Claimed}

  /** The identity of an action: everything the idempotency key is derived from. */
  datatype IntentInput = IntentInput(chainId: nat, target: string, action: string, subject: string)

  /** The transaction a proposal asks an operator to sign. */
  datatype ProposedTx = ProposedTx(chainId: nat, to: string, data: string, value: nat, gasLimit: Option<nat>)

  /** `hashPayload`: checksum case and an absent gas limit do not reach the hash. */
  datatype PayloadHash = PayloadHash(chainId: nat, to: string, data: string, value: nat, gasLimit: nat)

  function HashPayload(p: ProposedTx): PayloadHash {
    PayloadHash(p.chainId, Lower(p.to), p.data, p.value, p.gasLimit.GetOr(0))
  }

  /** Payloads share a hash exactly if they ask for the same call on the same chain, under the same gas limit. */
  lemma PayloadHashCommits(p: ProposedTx, q: ProposedTx)
    ensures HashPayload(p) == HashPayload(q) <==>
              && p.chainId == q.chainId && Lower(p.to) == Lower(q.to) && p.data == q.data && p.value == q.value
              && p.gasLimit.GetOr(0) == q.gasLimit.GetOr(0)
  {
  }

  datatype SafeTxParams = SafeTxParams(safeNonce: nat, operation: nat, safeTxGas: nat, baseGas: nat,
                                       gasPrice: nat, gasToken: string, refundReceiver: string)

  /** The EIP-712 hash the owners of a Safe sign: an injective function of everything it covers. */
  datatype SafeTxHash = SafeTxHash(chainId: nat, safe: string, to: string, value: nat, data: string,
                                   params: SafeTxParams)

  datatype SafeEnvelope = SafeEnvelope(params: SafeTxParams, safeTxHash: SafeTxHash, claimBlock: nat)

  /** A persisted intent row. */
  datatype TxIntent = TxIntent(
    id: Id,
    input: IntentInput,
    status: Status,
    nonce: Option<nat>,
    txHash: Option<TxHash>,
    error: Option<string>,
    relayMaxBlock: Option<nat>,
    payload: Option<ProposedTx>,
    payloadHash: Option<PayloadHash>,
    safeEnvelope: Option<SafeEnvelope>,
    createdAt: nat,
    updatedAt: nat)

  type Rows = map<Id, TxIntent>

  predicate IsBroadcast(r: TxIntent) { r.txHash.Some? }
  predicate IsSafe(r: TxIntent) { IsBroadcast(r) && r.safeEnvelope.Some? }
  predicate IsSigned(r: TxIntent) { IsBroadcast(r) && r.nonce.Some? }
  predicate IsLive(r: TxIntent) { r.status in LIVE_FOR_DEDUP }
  predicate IsInFlight(r: TxIntent) { r.status in IN_FLIGHT_ON_CHAIN }

  // ---- Idempotency key ----------------------------------------------------------------------

  function Digit(d: nat): char
    requires d < 10
  {
    "0123456789"[d]
  }

  function Decimal(n: nat): (s: string)
    ensures |s| > 0 && ':' !in s
  {
    if n < 10 then [Digit(n)] else Decimal(n / 10) + [Digit(n % 10)]
  }

  lemma {:induction false} DecimalInjective(m: nat, n: nat)
    requires Decimal(m) == Decimal(n)
    ensures m == n
    decreases m
  {
    var s, t := Decimal(m), Decimal(n);
    assert s[|s| - 1] == Digit(m % 10) && t[|t| - 1] == Digit(n % 10);
    assert m % 10 == n % 10;
    assert (m < 10 <==> |s| == 1) && (n < 10 <==> |t| == 1);
    if m >= 10 && n >= 10 {
      assert Decimal(m / 10) == s[..|s| - 1] && Decimal(n / 10) == t[..|t| - 1];
      DecimalInjective(m / 10, n / 10);
    }
  }

  function IdempotencyKey(i: IntentInput): Id {
    Decimal(i.chainId) + ":" + (Lower(i.target) + ":" + (i.action + ":" + Lower(i.subject)))
  }

  predicate ColonFree(i: IntentInput) {
    ':' !in i.target && ':' !in i.action && ':' !in i.subject
  }

  /** Two inputs name the same action: equal up to the letter case of addresses and subjects. */
  predicate SameAction(a: IntentInput, b: IntentInput) {
    && a.chainId == b.chainId
    && Lower(a.target) == Lower(b.target)
    && a.action == b.action
    && Lower(a.subject) == Lower(b.subject)
  }

  lemma LowerKeepsColons(s: string)
    ensures ':' in Lower(s) <==> ':' in s
  {
    if ':' in s {
      var i :| 0 <= i < |s| && s[i] == ':';
      assert Lower(s)[i] == ':';
    }
    if ':' in Lower(s) {
      var i :| 0 <= i < |s| && Lower(s)[i] == ':';
      assert LowerChar(s[i]) == ':';
      assert s[i] == ':';
    }
  }

  lemma SplitAtColon(a: string, x: string, b: string, y: string)
    requires ':' !in a && ':' !in b
    requires a + (":" + x) == b + (":" + y)
    ensures a == b && x == y
  {
    var s, t := a + (":" + x), b + (":" + y);
    assert s[|a|] == ':' && t[|b|] == ':';
    assert forall i :: 0 <= i < |a| ==> s[i] == a[i];
    assert forall i :: 0 <= i < |b| ==> t[i] == b[i];
    assert |a| == |b|;
    assert s[..|a|] == a && t[..|b|] == b;
    assert s[|a| + 1..] == x && t[|b| + 1..] == y;
  }

  /** Keys coincide exactly for the same action, as long as no field contains a colon. */
  lemma KeyIdentifiesAction(a: IntentInput, b: IntentInput)
    requires ColonFree(a) && ColonFree(b)
    ensures IdempotencyKey(a) == IdempotencyKey(b) <==> SameAction(a, b)
  {
    if IdempotencyKey(a) == IdempotencyKey(b) {
      LowerKeepsColons(a.target);
      LowerKeepsColons(b.target);
      var a2, b2 := a.action + ":" + Lower(a.subject), b.action + ":" + Lower(b.subject);
      var a1, b1 := Lower(a.target) + ":" + a2, Lower(b.target) + ":" + b2;
      assert IdempotencyKey(a) == Decimal(a.chainId) + (":" + a1);
      assert IdempotencyKey(b) == Decimal(b.chainId) + (":" + b1);
      SplitAtColon(Decimal(a.chainId), a1, Decimal(b.chainId), b1);
      DecimalInjective(a.chainId, b.chainId);
      assert a1 == Lower(a.target) + (":" + a2) && b1 == Lower(b.target) + (":" + b2);
      SplitAtColon(Lower(a.target), a2, Lower(b.target), b2);
      assert a2 == a.action + (":" + Lower(a.subject)) && b2 == b.action + (":" + Lower(b.subject));
      SplitAtColon(a.action, Lower(a.subject), b.action, Lower(b.subject));
    }
  }

  /** With a colon in a field two different actions can share one key. */
  lemma ColonsCollide()
    ensures var a := IntentInput(1, "0xa", "buy:x", "y");
            var b := IntentInput(1, "0xa", "buy", "x:y");
            IdempotencyKey(a) == IdempotencyKey(b) && !SameAction(a, b)
  {
    var a := IntentInput(1, "0xa", "buy:x", "y");
    var b := IntentInput(1, "0xa", "buy", "x:y");
    assert Lower("y") == "y" && Lower("x:y") == "x:y";
    assert a.action + ":" + Lower(a.subject) == "buy:x:y" == b.action + ":" + Lower(b.subject);
  }

  // ---- What each operation does to the rows ---------------------------------------------------

  datatype Meta = Meta(nonce: Option<nat>, txHash: Option<TxHash>, error: Option<string>, relayMaxBlock: Option<nat>)

  const NO_META := Meta(None, None, None, None)

  /** What a writer believed the row was; an absent half is no precondition. */
  datatype Expectation = Expectation(updatedAt: Option<nat>, txHash: Option<TxHash>, status: Option<set<Status>>)

  const ANYTHING := Expectation(None, None, None)

  datatype RecordResult =
    | Recorded(id: Id, attemptAt: nat)
    | Refused(existing: TxIntent)

  datatype ClaimFailure = NotFound | NotProposed | HashMismatch

  datatype ClaimResult =
    | ClaimWon(intent: TxIntent)
    | ClaimLost(reason: ClaimFailure, existing: Option<TxIntent>)

  /** The relay horizon only moves later. */
  function MaxHorizon(current: Option<nat>, next: Option<nat>): Option<nat> {
    match next
    case None => current
    case Some(n) => match current
      case None => next
      case Some(c) => Some(if c < n then n else c)
  }

  predicate Refuses(rows: Rows, input: IntentInput) {
    var id := IdempotencyKey(input);
    id in rows && IsLive(rows[id])
  }

  function FreshRow(rows: Rows, input: IntentInput, status: Status, payload: Option<ProposedTx>,
                    payloadHash: Option<PayloadHash>, now: nat): TxIntent {
    var id := IdempotencyKey(input);
    TxIntent(id, input, status, None, None, None, None, payload, payloadHash, None,
             if id in rows then rows[id].createdAt else now, now)
  }

  function RecordRows(rows: Rows, input: IntentInput, status: Status, payload: Option<ProposedTx>,
                      payloadHash: Option<PayloadHash>, now: nat): Rows {
    if Refuses(rows, input) then rows
    else rows[IdempotencyKey(input) := FreshRow(rows, input, status, payload, payloadHash, now)]
  }

  function RecordOutcome(rows: Rows, input: IntentInput, now: nat): RecordResult {
    var id := IdempotencyKey(input);
    if Refuses(rows, input) then Refused(rows[id]) else Recorded(id, now)
  }

  function ClaimOutcome(rows: Rows, id: Id, expected: PayloadHash, envelope: Option<SafeEnvelope>, now: nat)
    : ClaimResult
  {
    if id !in rows then ClaimLost(NotFound, None)
    else if rows[id].status != Proposed then ClaimLost(NotProposed, Some(rows[id]))
    else if rows[id].payloadHash != Some(expected) then ClaimLost(HashMismatch, Some(rows[id]))
    else ClaimWon(rows[id].(status := Claimed, safeEnvelope := envelope, updatedAt := now))
  }

  function ClaimRows(rows: Rows, id: Id, expected: PayloadHash, envelope: Option<SafeEnvelope>, now: nat): Rows {
    match ClaimOutcome(rows, id, expected, envelope, now)
    case ClaimWon(r) => rows[id := r]
    case ClaimLost(_, _) => rows
  }

  predicate BroadcastApplies(rows: Rows, id: Id, expected: PayloadHash) {
    && id in rows
    && rows[id].status == Claimed
    && rows[id].txHash.None?
    && rows[id].payloadHash == Some(expected)
  }

  predicate ReleaseApplies(rows: Rows, id: Id, expected: PayloadHash) {
    id in rows && rows[id].status == Claimed && rows[id].payloadHash == Some(expected)
  }

  predicate FailApplies(rows: Rows, id: Id) {
    id in rows && rows[id].status in {Proposed, Claimed, Pending, Submitted}
  }

  predicate SupersedeApplies(rows: Rows, id: Id) {
    id in rows && rows[id].status == Proposed && rows[id].safeEnvelope.None?
  }

  /** The rows an expiry sweep retires. A row still carrying an envelope is never one of them. */
  predicate Sweeps(r: TxIntent, cutoff: int, action: Option<string>) {
    && r.status == Proposed
    && r.safeEnvelope.None?
    && (action.Some? ==> r.input.action == action.value)
    && r.updatedAt <= cutoff
  }

  function SweptIds(rows: Rows, cutoff: int, action: Option<string>): set<Id> {
    set id | id in rows && Sweeps(rows[id], cutoff, action)
  }

  function ExpireRows(rows: Rows, swept: set<Id>, now: nat): Rows {
    map id | id in rows :: if id in swept then rows[id].(status := Expired, updatedAt := now) else rows[id]
  }

  lemma ExpireOneMore(rows: Rows, swept: set<Id>, id: Id, now: nat)
    requires id in rows && id !in swept
    ensures id in ExpireRows(rows, swept, now) && ExpireRows(rows, swept, now)[id] == rows[id]
    ensures ExpireRows(rows, swept, now)[id := rows[id].(status := Expired, updatedAt := now)]
         == ExpireRows(rows, swept + {id}, now)
  {
  }

  predicate ExpectationHolds(r: TxIntent, e: Expectation) {
    && (e.updatedAt.Some? ==> r.updatedAt == e.updatedAt.value)
    && (e.txHash.Some? ==> r.txHash == e.txHash)
    && (e.status.Some? ==> r.status in e.status.value)
  }

  predicate TransitionApplies(rows: Rows, id: Id, e: Expectation) {
    id in rows && ExpectationHolds(rows[id], e)
  }

  function Moved(r: TxIntent, to: Status, meta: Meta, now: nat): TxIntent {
    r.(status := to,
       nonce := if meta.nonce.Some? then meta.nonce else r.nonce,
       txHash := if meta.txHash.Some? then meta.txHash else r.txHash,
       error := if meta.error.Some? then meta.error else r.error,
       relayMaxBlock := MaxHorizon(r.relayMaxBlock, meta.relayMaxBlock),
       updatedAt := now)
  }

  function TransitionRows(rows: Rows, id: Id, to: Status, meta: Meta, e: Expectation, now: nat): Rows {
    if TransitionApplies(rows, id, e) then rows[id := Moved(rows[id], to, meta, now)] else rows
  }

  function WorkList(rows: Rows): Rows {
    map id | id in rows && IsInFlight(rows[id]) :: rows[id]
  }

  // ---- Whole histories of a store -------------------------------------------------------------

  datatype StoreOp =
    | RecordIntentOp(input: IntentInput)
    | ProposeOp(input: IntentInput, payload: ProposedTx, payloadHash: PayloadHash)
    | ClaimOp(id: Id, expected: PayloadHash, envelope: Option<SafeEnvelope>)
    | MarkBroadcastOp(id: Id, hash: TxHash, expected: PayloadHash)
    | ReleaseOp(id: Id, expected: PayloadHash)
    | FailOp(id: Id, error: Option<string>)
    | SupersedeOp(id: Id)
    | ExpireOp(ttlMs: nat, action: Option<string>)
    | TransitionOp(id: Id, to: Status, meta: Meta, seen: Expectation)

  function After(rows: Rows, op: StoreOp, now: nat): Rows {
    match op
    case RecordIntentOp(input) => RecordRows(rows, input, Pending, None, None, now)
    case ProposeOp(input, p, h) =>
      if input.chainId != p.chainId then rows else RecordRows(rows, input, Proposed, Some(p), Some(h), now)
    case ClaimOp(id, h, e) => ClaimRows(rows, id, h, e, now)
    case MarkBroadcastOp(id, tx, h) =>
      if BroadcastApplies(rows, id, h)
      then rows[id := rows[id].(status := Submitted, txHash := Some(tx), updatedAt := now)] else rows
    case ReleaseOp(id, h) =>
      if ReleaseApplies(rows, id, h) then rows[id := rows[id].(status := Proposed, updatedAt := now)] else rows
    case FailOp(id, error) =>
      if FailApplies(rows, id)
      then
        var kept := if error.Some? then error else rows[id].error;
        rows[id := rows[id].(status := Failed, error := kept, updatedAt := now)]
      else rows
    case SupersedeOp(id) =>
      if SupersedeApplies(rows, id) then rows[id := rows[id].(status := Superseded, updatedAt := now)] else rows
    case ExpireOp(ttl, action) => ExpireRows(rows, SweptIds(rows, now - ttl, action), now)
    case TransitionOp(id, to, meta, e) => TransitionRows(rows, id, to, meta, e, now)
  }

  /** A row written now is told apart from every earlier version of it by its stamp alone. */
  lemma WritesAreStamped(rows: Rows, op: StoreOp, now: nat, id: Id)
    requires id in rows
    ensures id in After(rows, op, now)
    ensures After(rows, op, now)[id] == rows[id] || After(rows, op, now)[id].updatedAt == now
  {
  }

  /**
   * A live row can only be re-created after it has ended: recording and proposing leave a live row
   * alone, so a live row keeps its payload and its creation stamp whatever is done to the store.
   */
  lemma LiveRowsAreNotOverwritten(rows: Rows, op: StoreOp, now: nat, id: Id)
    requires id in rows && IsLive(rows[id])
    ensures var r := After(rows, op, now)[id];
            && r.payload == rows[id].payload
            && r.payloadHash == rows[id].payloadHash
            && r.input == rows[id].input
            && r.createdAt == rows[id].createdAt
  {
  }

  /** An envelope survives everything except a new claim or the revival of an ended row. */
  lemma EnvelopesAreKept(rows: Rows, op: StoreOp, now: nat, id: Id)
    requires id in rows && IsLive(rows[id]) && rows[id].safeEnvelope.Some?
    requires !(op.ClaimOp? && op.id == id)
    ensures After(rows, op, now)[id].safeEnvelope == rows[id].safeEnvelope
    ensures After(rows, op, now)[id].status in {Superseded, Expired} ==>
              op.TransitionOp? && op.id == id
  {
  }

  /**
   * The lifecycle outside free transitions: which operation alone can bring a row into each status, from
   * where, and under which guard. Nothing but a transition confirms.
   */
  lemma StatusMoves(rows: Rows, op: StoreOp, now: nat, id: Id)
    requires id in rows && !op.TransitionOp? && After(rows, op, now)[id].status != rows[id].status
    ensures var r, r' := rows[id], After(rows, op, now)[id];
            match r'.status
            case Proposed =>
              || (r.status == Claimed && op.ReleaseOp? && r.payloadHash == Some(op.expected)
                  && r' == r.(status := Proposed, updatedAt := now))
              || (!IsLive(r) && op.ProposeOp? && r'.safeEnvelope.None? && r'.payloadHash == Some(op.payloadHash))
            case Claimed =>
              r.status == Proposed && op.ClaimOp? && r.payloadHash == Some(op.expected)
              && r'.safeEnvelope == op.envelope
            case Pending => !IsLive(r) && op.RecordIntentOp? && r'.nonce.None? && r'.txHash.None?
            case Submitted =>
              && r.status == Claimed && op.MarkBroadcastOp? && r.txHash.None? && r'.txHash == Some(op.hash)
              && r.payloadHash == Some(op.expected)
            case Confirmed => false
            case Failed => IsLive(r) && op.FailOp?
            case Superseded => r.status == Proposed && op.SupersedeOp? && r.safeEnvelope.None?
            case Expired =>
              r.status == Proposed && op.ExpireOp? && r.safeEnvelope.None? && r.updatedAt <= now - op.ttlMs
  {
  }

  /** And the guards suffice: each operation moves a row exactly when it is where the operation starts from. */
  lemma StatusMovesExactly(rows: Rows, op: StoreOp, now: nat, id: Id)
    requires id in rows && !op.TransitionOp?
    ensures var r, r' := rows[id], After(rows, op, now)[id];
            && (r.status != Claimed && r'.status == Claimed <==>
                  op.ClaimOp? && op.id == id && r.status == Proposed && r.payloadHash == Some(op.expected))
            && (r.status == Claimed && r'.status == Submitted <==>
                  op.MarkBroadcastOp? && op.id == id && r.status == Claimed && r.txHash.None?
                  && r.payloadHash == Some(op.expected))
            && (r.status == Claimed && r'.status == Proposed <==>
                  op.ReleaseOp? && op.id == id && r.status == Claimed && r.payloadHash == Some(op.expected))
            && (r.status != Failed && r'.status == Failed <==>
                  op.FailOp? && op.id == id && r.status in {Proposed, Claimed, Pending, Submitted})
            && (r.status != Superseded && r'.status == Superseded <==>
                  op.SupersedeOp? && op.id == id && r.status == Proposed && r.safeEnvelope.None?)
            && (r.status != Expired && r'.status == Expired <==>
                  op.ExpireOp? && r.status == Proposed && r.safeEnvelope.None? && r.updatedAt <= now - op.ttlMs
                  && (op.action.Some? ==> r.input.action == op.action.value))
  {
  }

  /** Which row an operation is about; a sweep is about no single one. */
  predicate Targets(op: StoreOp, id: Id) {
    match op
    case RecordIntentOp(input) => IdempotencyKey(input) == id
    case ProposeOp(input, _, _) => IdempotencyKey(input) == id
    case ExpireOp(_, _) => true
    case ClaimOp(i, _, _) => i == id
    case MarkBroadcastOp(i, _, _) => i == id
    case ReleaseOp(i, _) => i == id
    case FailOp(i, _) => i == id
    case SupersedeOp(i) => i == id
    case TransitionOp(i, _, _, _) => i == id
  }

  /** Nothing else about a row moves with its status: not its action, its nonce, its horizon or its payload. */
  lemma OnlyStatusMoves(rows: Rows, op: StoreOp, now: nat, id: Id)
    requires id in rows && !op.TransitionOp? && !Revives(rows, op, id)
    ensures var r, r' := rows[id], After(rows, op, now)[id];
            && r' == r.(status := r'.status, safeEnvelope := r'.safeEnvelope, txHash := r'.txHash, error := r'.error,
                        updatedAt := r'.updatedAt)
            && (r'.safeEnvelope != r.safeEnvelope ==> op.ClaimOp? && r'.safeEnvelope == op.envelope)
            && (r'.txHash != r.txHash ==> op.MarkBroadcastOp? && r'.txHash == Some(op.hash))
            && (r'.error != r.error ==> op.FailOp? && op.error.Some? && r'.error == op.error)
            && (r'.status == r.status ==> r' == r)
            && (r'.status != r.status ==> Targets(op, id) && r'.updatedAt == now)
  {
  }

  /** What a row says once an operation has moved it there. */
  lemma MovedRowsSay(rows: Rows, op: StoreOp, now: nat, id: Id)
    requires id in rows && Targets(op, id) && After(rows, op, now)[id].status != rows[id].status
    ensures var r' := After(rows, op, now)[id];
            && (op.ClaimOp? ==> r'.safeEnvelope == op.envelope)
            && (op.MarkBroadcastOp? ==> r'.txHash == Some(op.hash))
            && (op.FailOp? && op.error.Some? ==> r'.error == op.error)
  {
  }

  /** A row is re-created, or created, exactly when there is none or it has ended; whatever it was, it starts clean. */
  lemma RevivedRowsStartClean(rows: Rows, op: StoreOp, now: nat, id: Id)
    requires op.RecordIntentOp? || (op.ProposeOp? && op.input.chainId == op.payload.chainId)
    requires IdempotencyKey(op.input) == id
    ensures Revives(rows, op, id) <==> id !in rows || rows[id].status in {Confirmed, Failed, Superseded, Expired}
    ensures !Revives(rows, op, id) ==> After(rows, op, now) == rows
    ensures Revives(rows, op, id) ==>
              && id in After(rows, op, now)
              && var r' := After(rows, op, now)[id];
                 && r'.id == id && r'.input == op.input && r'.updatedAt == now
                 && r'.status == (if op.RecordIntentOp? then Pending else Proposed)
                 && r'.nonce.None? && r'.txHash.None? && r'.error.None? && r'.relayMaxBlock.None?
                 && r'.safeEnvelope.None?
                 && (if op.ProposeOp? then r'.payload == Some(op.payload) && r'.payloadHash == Some(op.payloadHash)
                     else r'.payload.None? && r'.payloadHash.None?)
                 && r'.createdAt == if id in rows then rows[id].createdAt else now
  {
    assert id in rows && !IsLive(rows[id]) ==> rows[id].status in {Confirmed, Failed, Superseded, Expired} by {
      assert id in rows ==> var s := rows[id].status;
               s.Proposed? || s.Claimed? || s.Pending? || s.Submitted?
               || s.Confirmed? || s.Failed? || s.Superseded? || s.Expired?;
    }
  }

  /** An operation touches no row but its own, and makes none but its own. */
  lemma OtherRowsAreKept(rows: Rows, op: StoreOp, now: nat, id: Id)
    requires !Targets(op, id)
    ensures id in After(rows, op, now) <==> id in rows
    ensures id in rows ==> After(rows, op, now)[id] == rows[id]
  {
  }

  /**
   * A free transition lands exactly on the version its writer saw. It replaces what it brings and keeps the
   * rest, and of two horizons the later one stands.
   */
  lemma TransitionsMerge(rows: Rows, id: Id, to: Status, meta: Meta, seen: Expectation, now: nat)
    requires id in rows
    ensures var r, r' := rows[id], After(rows, TransitionOp(id, to, meta, seen), now)[id];
            var asSeen := && (seen.updatedAt.Some? ==> seen.updatedAt.value == r.updatedAt)
                          && (seen.txHash.Some? ==> seen.txHash == r.txHash)
                          && (seen.status.Some? ==> r.status in seen.status.value);
            if !asSeen then r' == r
            else
              && r'.status == to && r'.updatedAt == now
              && r'.nonce == (if meta.nonce.Some? then meta.nonce else r.nonce)
              && r'.txHash == (if meta.txHash.Some? then meta.txHash else r.txHash)
              && r'.error == (if meta.error.Some? then meta.error else r.error)
              && (r'.relayMaxBlock.None? <==> r.relayMaxBlock.None? && meta.relayMaxBlock.None?)
              && (r'.relayMaxBlock.Some? ==>
                    && r'.relayMaxBlock in {r.relayMaxBlock, meta.relayMaxBlock}
                    && (r.relayMaxBlock.Some? ==> r.relayMaxBlock.value <= r'.relayMaxBlock.value)
                    && (meta.relayMaxBlock.Some? ==> meta.relayMaxBlock.value <= r'.relayMaxBlock.value))
              && r'.payload == r.payload && r'.payloadHash == r.payloadHash && r'.safeEnvelope == r.safeEnvelope
              && r'.input == r.input && r'.createdAt == r.createdAt
  {
  }

  // ---- The horizon over an attempt ------------------------------------------------------------

  datatype Stamped = Stamped(op: StoreOp, at: nat)

  function Replay(rows: Rows, ops: seq<Stamped>): Rows
    decreases |ops|
  {
    if ops == [] then rows else Replay(After(rows, ops[0].op, ops[0].at), ops[1..])
  }

  /** The operation starts a new attempt at `id`. */
  predicate Revives(rows: Rows, op: StoreOp, id: Id) {
    && (op.RecordIntentOp? || (op.ProposeOp? && op.input.chainId == op.payload.chainId))
    && IdempotencyKey(op.input) == id
    && !Refuses(rows, op.input)
  }

  predicate OneAttempt(rows: Rows, ops: seq<Stamped>, id: Id)
    decreases |ops|
  {
    ops == [] || (!Revives(rows, ops[0].op, id) && OneAttempt(After(rows, ops[0].op, ops[0].at), ops[1..], id))
  }

  /** Whatever is written during one attempt, a recorded relay horizon never moves earlier. */
  lemma {:induction false} HorizonOnlyMovesLater(rows: Rows, ops: seq<Stamped>, id: Id)
    requires id in rows && OneAttempt(rows, ops, id)
    ensures id in Replay(rows, ops)
    ensures rows[id].relayMaxBlock.Some? ==>
              var end := Replay(rows, ops)[id].relayMaxBlock;
              end.Some? && rows[id].relayMaxBlock.value <= end.value
    decreases |ops|
  {
    if ops != [] {
      var next := After(rows, ops[0].op, ops[0].at);
      WritesAreStamped(rows, ops[0].op, ops[0].at, id);
      HorizonOnlyMovesLater(next, ops[1..], id);
    }
  }

  /** The sweep itself: one pass over the rows, retiring each proposal past the cutoff. */
  method SweepRows(rows: Rows, cutoff: int, action: Option<string>, now: nat) returns (current: Rows, swept: nat)
    ensures current == ExpireRows(rows, SweptIds(rows, cutoff, action), now)
    ensures swept == |SweptIds(rows, cutoff, action)|
  {
    var todo := rows.Keys;
    ghost var hit: set<Id> := {};
    current, swept := rows, 0;
    while todo != {}
      invariant todo <= rows.Keys && hit <= rows.Keys - todo && swept == |hit|
      invariant current == ExpireRows(rows, hit, now)
      invariant forall id :: id in rows && id !in todo ==> (id in hit <==> Sweeps(rows[id], cutoff, action))
      decreases |todo|
    {
      var id :| id in todo;
      ExpireOneMore(rows, hit, id, now);
      todo := todo - {id};
      if Sweeps(current[id], cutoff, action) {
        current := current[id := current[id].(status := Expired, updatedAt := now)];
        hit := hit + {id};
        swept := swept + 1;
      }
    }
    assert hit == SweptIds(rows, cutoff, action);
  }

  // ---- The in-memory store --------------------------------------------------------------------

  /** Non-durable `StateStore`. `now` is the injected clock, read by each operation that stamps a row. */
  class MemoryStateStore {
    var rows: Rows
    var boundIdentity: Option<(nat, string)>

    constructor ()
      ensures rows == map[] && boundIdentity == None
    {
      rows := map[];
      boundIdentity := None;
    }

    /** Record or revive: refuse a live intent, else (re)create it in `status`. */
    method Record(input: IntentInput, status: Status, payload: Option<ProposedTx>,
                  payloadHash: Option<PayloadHash>, now: nat) returns (r: RecordResult)
      modifies this`rows
      ensures rows == RecordRows(old(rows), input, status, payload, payloadHash, now)
      ensures r == RecordOutcome(old(rows), input, now)
    {
      var id := IdempotencyKey(input);
      if id in rows && IsLive(rows[id]) {
        return Refused(rows[id]);
      }
      var createdAt := if id in rows then rows[id].createdAt else now;
      var row := TxIntent(id, input, status, None, None, None, None, payload, payloadHash, None, createdAt, now);
      rows := rows[id := row];
      return Recorded(id, now);
    }

    method RecordIntent(input: IntentInput, now: nat) returns (r: RecordResult)
      modifies this`rows
      ensures rows == After(old(rows), RecordIntentOp(input), now)
      ensures r == RecordOutcome(old(rows), input, now)
    {
      r := Record(input, Pending, None, None, now);
    }

    /** A proposal whose payload names another chain is an error and writes nothing. */
    method Propose(input: IntentInput, payload: ProposedTx, payloadHash: PayloadHash, now: nat)
      returns (r: Option<RecordResult>)
      modifies this`rows
      ensures rows == After(old(rows), ProposeOp(input, payload, payloadHash), now)
      ensures r == if input.chainId != payload.chainId then None else Some(RecordOutcome(old(rows), input, now))
    {
      if input.chainId != payload.chainId {
        return None;
      }
      var recorded := Record(input, Proposed, Some(payload), Some(payloadHash), now);
      return Some(recorded);
    }

    method ClaimProposal(id: Id, expected: PayloadHash, envelope: Option<SafeEnvelope>, now: nat)
      returns (r: ClaimResult)
      modifies this`rows
      ensures rows == After(old(rows), ClaimOp(id, expected, envelope), now)
      ensures r == ClaimOutcome(old(rows), id, expected, envelope, now)
    {
      if id !in rows {
        return ClaimLost(NotFound, None);
      }
      var row := rows[id];
      if row.status != Proposed {
        return ClaimLost(NotProposed, Some(row));
      }
      if row.payloadHash != Some(expected) {
        return ClaimLost(HashMismatch, Some(row));
      }
      var updated := row.(status := Claimed, safeEnvelope := envelope, updatedAt := now);
      rows := rows[id := updated];
      return ClaimWon(updated);
    }

    method MarkBroadcast(id: Id, txHash: TxHash, expected: PayloadHash, now: nat) returns (applied: bool)
      modifies this`rows
      ensures rows == After(old(rows), MarkBroadcastOp(id, txHash, expected), now)
      ensures applied == BroadcastApplies(old(rows), id, expected)
    {
      if id !in rows || rows[id].status != Claimed || rows[id].txHash != None {
        return false;
      }
      if rows[id].payloadHash != Some(expected) {
        return false;
      }
      rows := rows[id := rows[id].(status := Submitted, txHash := Some(txHash), updatedAt := now)];
      return true;
    }

    method Release(id: Id, expected: PayloadHash, now: nat) returns (applied: bool)
      modifies this`rows
      ensures rows == After(old(rows), ReleaseOp(id, expected), now)
      ensures applied == ReleaseApplies(old(rows), id, expected)
    {
      if id !in rows || rows[id].status != Claimed || rows[id].payloadHash != Some(expected) {
        return false;
      }
      rows := rows[id := rows[id].(status := Proposed, updatedAt := now)];
      return true;
    }

    method Fail(id: Id, error: Option<string>, now: nat) returns (applied: bool)
      modifies this`rows
      ensures rows == After(old(rows), FailOp(id, error), now)
      ensures applied == FailApplies(old(rows), id)
    {
      if id !in rows {
        return false;
      }
      if rows[id].status !in {Proposed, Claimed, Pending, Submitted} {
        return false;
      }
      var detail := if error.Some? then error else rows[id].error;
      rows := rows[id := rows[id].(status := Failed, error := detail, updatedAt := now)];
      return true;
    }

    method Supersede(id: Id, now: nat) returns (applied: bool)
      modifies this`rows
      ensures rows == After(old(rows), SupersedeOp(id), now)
      ensures applied == SupersedeApplies(old(rows), id)
    {
      if id !in rows || rows[id].status != Proposed || rows[id].safeEnvelope != None {
        return false;
      }
      rows := rows[id := rows[id].(status := Superseded, updatedAt := now)];
      return true;
    }

    /** Sweep un-actioned proposals, row by row; exactly the rows `Sweeps` names are retired. */
    method ExpireProposals(ttlMs: nat, action: Option<string>, now: nat) returns (swept: nat)
      modifies this`rows
      ensures rows == After(old(rows), ExpireOp(ttlMs, action), now)
      ensures swept == |SweptIds(old(rows), now - ttlMs, action)|
    {
      var current: Rows;
      current, swept := SweepRows(rows, now - ttlMs, action, now);
      rows := current;
    }

    method Transition(id: Id, to: Status, meta: Meta, seen: Expectation, now: nat) returns (applied: bool)
      modifies this`rows
      ensures rows == After(old(rows), TransitionOp(id, to, meta, seen), now)
      ensures applied == TransitionApplies(old(rows), id, seen)
    {
      if id !in rows {
        return false;
      }
      var row := rows[id];
      if seen.updatedAt.Some? && row.updatedAt != seen.updatedAt.value {
        return false;
      }
      if seen.txHash.Some? && row.txHash != seen.txHash {
        return false;
      }
      if seen.status.Some? && row.status !in seen.status.value {
        return false;
      }
      rows := rows[id := row.(
        status := to,
        nonce := if meta.nonce.Some? then meta.nonce else row.nonce,
        txHash := if meta.txHash.Some? then meta.txHash else row.txHash,
        error := if meta.error.Some? then meta.error else row.error,
        relayMaxBlock := MaxHorizon(row.relayMaxBlock, meta.relayMaxBlock),
        updatedAt := now)];
      return true;
    }

    /** One store belongs to one account: the first identity binds it, any other is refused. */
    method BindExecutionIdentity(chainId: nat, address: string) returns (ok: bool)
      modifies this`boundIdentity
      ensures boundIdentity == Some(old(boundIdentity).GetOr((chainId, Lower(address))))
      ensures ok <==> boundIdentity == Some((chainId, Lower(address)))
    {
      if boundIdentity == None {
        boundIdentity := Some((chainId, Lower(address)));
      }
      ok := boundIdentity == Some((chainId, Lower(address)));
    }

    /** The work list: every row that may exist on chain, and nothing else. */
    method Reconcile() returns (work: Rows)
      ensures work == WorkList(rows)
    {
      work := map id | id in rows && rows[id].status in IN_FLIGHT_ON_CHAIN :: rows[id];
    }
  }
}
