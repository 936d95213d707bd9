/**
 * Could a signed transaction still be on the wire? The one judgement that both the nonce fence and
 * reconcile make, and the relay horizon that lets it ever answer no under private submission.
 */
module Liveness {
  import opened Common
  import opened Persistence

  const UNKNOWN_TX_GRACE_MS := 30_000
  const MAX_RELAY_HORIZON_BLOCKS := 7200

  /** What the relay said about one hash; a probe can also fail outright. */
  datatype RelayAnswer =
    | Answered(status: string, simError: Option<string>, seenInMempool: bool, maxBlockNumber: int)
    | ProbeFailed

  /** The two questions the judgement puts to its reader. `nodeKnows` is absent when `isKnown` is the node's own. */
  datatype Reader = Reader(isKnown: TxHash -> bool, nodeKnows: Option<TxHash -> bool>)

  datatype LivenessCheck = LivenessCheck(
    now: int, graceMs: Option<nat>, reclaimMarginBlocks: Option<nat>, head: Option<nat>)

  function Grace(check: LivenessCheck): nat {
    check.graceMs.GetOr(UNKNOWN_TX_GRACE_MS)
  }

  predicate PastRelayHorizon(check: LivenessCheck, relayMaxBlock: Option<nat>) {
    && check.head.Some? && check.reclaimMarginBlocks.Some? && relayMaxBlock.Some?
    && check.head.value > relayMaxBlock.value + check.reclaimMarginBlocks.value
  }

  predicate KnownToNode(reader: Reader, hash: TxHash) {
    if reader.nodeKnows.Some? then reader.nodeKnows.value(hash) else reader.isKnown(hash)
  }

  predicate CouldBeInFlight(check: LivenessCheck, reader: Reader, hash: TxHash, updatedAt: nat,
                            relayMaxBlock: Option<nat>) {
    if check.now - updatedAt < Grace(check) then true
    else if PastRelayHorizon(check, relayMaxBlock) then KnownToNode(reader, hash)
    else reader.isKnown(hash)
  }

  /** Wrap a node's reader so that whatever the relay answers, and a failed probe too, reads as live. */
  function RelayAwareReader(node: TxHash -> bool, relay: TxHash -> RelayAnswer): Reader {
    Reader(h => node(h) || RelayHolds(relay(h)), Some(node))
  }

  predicate RelayHolds(answer: RelayAnswer) {
    match answer
    case Answered(_, _, _, _) => true
    case ProbeFailed => true
  }

  // ---- The horizon ---------------------------------------------------------------------------

  function ClampDeclared(declared: int, head: nat): int {
    Min(declared, head + MAX_RELAY_HORIZON_BLOCKS)
  }

  /** The deadline recorded at submission. */
  function ResolveHorizon(head: nat, relay: RelayAnswer, horizonBlocks: nat): (deadline: nat)
    ensures head + horizonBlocks <= deadline
  {
    var declared := if relay.Answered? then relay.maxBlockNumber else 0;
    Max(ClampDeclared(declared, head), head + horizonBlocks)
  }

  datatype Repair = RepairThrew | Keep | Recovered(block: nat)

  /** The deadline recovered at reconcile; only the relay's own word for this hash will do. */
  function RepairHorizon(head: nat, relay: RelayAnswer): Repair {
    match relay
    case ProbeFailed => RepairThrew
    case Answered(status, _, seen, maxBlock) =>
      if status == "UNKNOWN" then Keep
      else if seen then Keep
      else if maxBlock <= 0 then Keep
      else Recovered(ClampDeclared(maxBlock, head))
  }

  // ---- What releases a privately submitted nonce -----------------------------------------------

  /**
   * Under private submission exactly one thing releases a nonce: the grace window is over, the head
   * is past the recorded horizon plus the margin, and the node does not hold the transaction.
   */
  lemma PrivateReleaseExactly(check: LivenessCheck, node: TxHash -> bool, relay: TxHash -> RelayAnswer,
                              hash: TxHash, updatedAt: nat, relayMaxBlock: Option<nat>)
    ensures !CouldBeInFlight(check, RelayAwareReader(node, relay), hash, updatedAt, relayMaxBlock)
       <==> && check.now - updatedAt >= Grace(check)
            && relayMaxBlock.Some? && check.head.Some? && check.reclaimMarginBlocks.Some?
            && check.head.value > relayMaxBlock.value + check.reclaimMarginBlocks.value
            && !node(hash)
  {
    assert RelayHolds(relay(hash));
  }

  /** Under public submission the node's own answer decides once the grace window is over; no horizon does. */
  lemma PublicReleaseExactly(check: LivenessCheck, node: TxHash -> bool, hash: TxHash, updatedAt: nat,
                             relayMaxBlock: Option<nat>)
    ensures !CouldBeInFlight(check, Reader(node, None), hash, updatedAt, relayMaxBlock) <==>
              check.now - updatedAt >= check.graceMs.GetOr(30_000) && !node(hash)
  {
  }

  /** No relay answer, terminal or missing, changes the judgement. */
  lemma RelayNeverDecides(check: LivenessCheck, node: TxHash -> bool, relay: TxHash -> RelayAnswer,
                          other: TxHash -> RelayAnswer, hash: TxHash, updatedAt: nat, relayMaxBlock: Option<nat>)
    ensures CouldBeInFlight(check, RelayAwareReader(node, relay), hash, updatedAt, relayMaxBlock)
         == CouldBeInFlight(check, RelayAwareReader(node, other), hash, updatedAt, relayMaxBlock)
  {
    PrivateReleaseExactly(check, node, relay, hash, updatedAt, relayMaxBlock);
    PrivateReleaseExactly(check, node, other, hash, updatedAt, relayMaxBlock);
  }

  /**
   * A row that carried a horizon at some point of an attempt is not released before that block plus
   * the margin has passed, whatever the store was put through since.
   */
  lemma ReleaseWaitsForEveryHorizon(rows: Rows, ops: seq<Stamped>, id: Id, check: LivenessCheck,
                                    node: TxHash -> bool, relay: TxHash -> RelayAnswer)
    requires id in rows && OneAttempt(rows, ops, id) && rows[id].relayMaxBlock.Some?
    requires var r := Replay(rows, ops);
             id in r && r[id].txHash.Some?
             && !CouldBeInFlight(check, RelayAwareReader(node, relay), r[id].txHash.value, r[id].updatedAt,
                                 r[id].relayMaxBlock)
    ensures check.head.Some? && check.reclaimMarginBlocks.Some?
    ensures check.head.value > rows[id].relayMaxBlock.value + check.reclaimMarginBlocks.value
  {
    HorizonOnlyMovesLater(rows, ops, id);
    var r := Replay(rows, ops)[id];
    PrivateReleaseExactly(check, node, relay, r.txHash.value, r.updatedAt, r.relayMaxBlock);
  }

  /**
   * The submission write ties the two ends together: once it has recorded the resolved horizon, the
   * nonce stays fenced until the head is past the submission head plus the whole configured window.
   */
  lemma {:induction false} WindowIsHonoured(rows: Rows, ops: seq<Stamped>, id: Id, head: nat, answer: RelayAnswer,
                                            horizonBlocks: nat, at: nat, check: LivenessCheck, node: TxHash -> bool,
                                            relay: TxHash -> RelayAnswer)
    requires id in rows
    requires var horizon := Some(ResolveHorizon(head, answer, horizonBlocks));
             var submit := TransitionOp(id, Submitted, NO_META.(relayMaxBlock := horizon), ANYTHING);
             OneAttempt(After(rows, submit, at), ops, id)
             && var r := Replay(After(rows, submit, at), ops);
                id in r && r[id].txHash.Some?
                && !CouldBeInFlight(check, RelayAwareReader(node, relay), r[id].txHash.value, r[id].updatedAt,
                                    r[id].relayMaxBlock)
    ensures check.head.Some? && check.reclaimMarginBlocks.Some?
    ensures check.head.value > head + horizonBlocks + check.reclaimMarginBlocks.value
  {
    var horizon := Some(ResolveHorizon(head, answer, horizonBlocks));
    var submit := TransitionOp(id, Submitted, NO_META.(relayMaxBlock := horizon), ANYTHING);
    ReleaseWaitsForEveryHorizon(After(rows, submit, at), ops, id, check, node, relay);
  }

  /** A relay's own deadline is kept in full up to the ceiling; it is never used to fence for less than the window. */
  lemma DeclaredDeadlinesExtend(head: nat, relay: RelayAnswer, horizonBlocks: nat)
    ensures var d := ResolveHorizon(head, relay, horizonBlocks);
            && (relay.Answered? && relay.maxBlockNumber <= head + MAX_RELAY_HORIZON_BLOCKS ==>
                  relay.maxBlockNumber <= d)
            && d <= head + Max(MAX_RELAY_HORIZON_BLOCKS, horizonBlocks)
            && (relay.ProbeFailed? ==> d == head + horizonBlocks)
    ensures var r := RepairHorizon(head, relay);
            r.Recovered? ==>
              && relay.Answered? && relay.status != "UNKNOWN" && !relay.seenInMempool
              && 0 < r.block <= relay.maxBlockNumber && r.block <= head + MAX_RELAY_HORIZON_BLOCKS
  {
  }

  /** A deadline that fences for the configured window and for whatever the relay declares up to the ceiling. */
  predicate Fences(deadline: int, head: nat, relay: RelayAnswer, horizonBlocks: nat) {
    && head + horizonBlocks <= deadline
    && (relay.Answered? ==> Min(relay.maxBlockNumber, head + MAX_RELAY_HORIZON_BLOCKS) <= deadline)
  }

  /** The recorded deadline is the least that does both: nothing is fenced for longer than that. */
  lemma ResolvedIsLeast(head: nat, relay: RelayAnswer, horizonBlocks: nat, other: int)
    requires Fences(other, head, relay, horizonBlocks)
    ensures Fences(ResolveHorizon(head, relay, horizonBlocks), head, relay, horizonBlocks)
    ensures ResolveHorizon(head, relay, horizonBlocks) <= other
  {
  }

  /** A missing deadline is recovered if and only if the relay holds this hash privately and names one. */
  lemma RecoversExactly(head: nat, relay: RelayAnswer)
    ensures RepairHorizon(head, relay).Recovered? <==>
              relay.Answered? && relay.status != "UNKNOWN" && !relay.seenInMempool && 0 < relay.maxBlockNumber
    ensures RepairHorizon(head, relay).Recovered? ==>
              && RepairHorizon(head, relay).block <= relay.maxBlockNumber
              && RepairHorizon(head, relay).block <= head + MAX_RELAY_HORIZON_BLOCKS
              && (RepairHorizon(head, relay).block == relay.maxBlockNumber
                  || RepairHorizon(head, relay).block == head + MAX_RELAY_HORIZON_BLOCKS)
    ensures RepairHorizon(head, relay).RepairThrew? <==> relay.ProbeFailed?
  {
  }
}
