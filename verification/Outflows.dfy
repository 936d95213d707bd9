/**
 * Which held outflows a balance read accounts for. Every answer was true when it was given; the chain
 * moves on between one answer and the next, and before the list is applied.
 */
module Outflows {
  import opened Common
  import opened RiskGate
  import opened ExposureSafety

  datatype Outflow = Outflow(txHash: Hash, minedAtBlock: Option<nat>)

  datatype Receipt = InBlock(block: nat) | NotFound | LookupFailed
  datatype NodeView = Known | Unknown | ProbeFailed

  /** What the chain answered about one outflow. */
  datatype Answer = Answer(receipt: Receipt, view: NodeView)

  /** `inFlight` is absent when the process keeps no store. */
  predicate Retires(o: Outflow, block: nat, inFlight: Option<set<Hash>>, a: Answer) {
    if o.minedAtBlock.Some? then o.minedAtBlock.value <= block
    else match a.receipt
      case LookupFailed => false
      case InBlock(b) => b <= block
      case NotFound => if inFlight.Some? then o.txHash !in inFlight.value else a.view.Unknown?
  }

  function SettledOutflows(outflows: seq<Outflow>, block: nat, inFlight: Option<set<Hash>>, answers: seq<Answer>)
    : (retired: seq<Hash>)
    requires |outflows| == |answers|
    ensures forall h :: h in retired <==>
              exists i :: 0 <= i < |outflows| && outflows[i].txHash == h
                          && Retires(outflows[i], block, inFlight, answers[i])
  {
    if outflows == [] then []
    else
      var n := |outflows| - 1;
      var earlier := SettledOutflows(outflows[..n], block, inFlight, answers[..n]);
      assert forall i :: 0 <= i < n ==> outflows[..n][i] == outflows[i] && answers[..n][i] == answers[i];
      if Retires(outflows[n], block, inFlight, answers[n]) then earlier + [outflows[n].txHash] else earlier
  }

  // ---- The chain moves on ---------------------------------------------------------------------------

  /** Whatever had become of a transaction by `w`, it is still so at `w'`. */
  predicate Later(w: World, w': World) {
    forall h :: h in w.txs ==> h in w'.txs && (!w.txs[h].fate.Pending? ==> w'.txs[h].fate == w.txs[h].fate)
  }

  lemma {:induction false} RunIsLater(w: World, cfg: Config, bal: Balances, own: Key, run: seq<Event>)
    requires Run(w, cfg, bal, own, run)
    ensures Later(w, Final(w, cfg, bal, own, run))
    decreases |run|
  {
    if run != [] {
      assert Later(w, Apply(w, cfg, bal, own, run[0]));
      RunIsLater(Apply(w, cfg, bal, own, run[0]), cfg, bal, own, run[1..]);
    }
  }

  // ---- True answers ---------------------------------------------------------------------------------

  /** The store keeps every transaction that may still mine in flight. */
  predicate InFlightTrue(w: World, inFlight: Option<set<Hash>>) {
    inFlight.Some? ==> forall h :: h in w.txs && w.txs[h].fate.Pending? ==> h in inFlight.value
  }

  predicate ReceiptTrue(w: World, h: Hash, r: Receipt)
    requires h in w.txs
  {
    match r
    case InBlock(b) => w.txs[h].fate.Mined? && w.txs[h].fate.block == b
    case NotFound => !w.txs[h].fate.Mined?
    case LookupFailed => true
  }

  /** With public submission, a node that does not know a transaction will never mine it. */
  predicate ViewTrue(w: World, h: Hash, view: NodeView)
    requires h in w.txs
  {
    view.Unknown? ==> w.txs[h].fate.Gone?
  }

  /** The moments at which one outflow's receipt and node view were read. */
  datatype Moment = Moment(receiptAt: World, viewAt: World)

  /** The gate's holds are listed first, then the work list is read, then receipts, then node views. */
  predicate ReadInOrder(w0: World, w1: World, w2: World, m: Moment) {
    Later(w0, w1) && Later(w1, m.receiptAt) && Later(m.receiptAt, m.viewAt) && Later(m.viewAt, w2)
  }

  predicate AnswerTrue(o: Outflow, a: Answer, m: Moment) {
    && o.txHash in m.receiptAt.txs && ReceiptTrue(m.receiptAt, o.txHash, a.receipt)
    && o.txHash in m.viewAt.txs && ViewTrue(m.viewAt, o.txHash, a.view)
  }

  /** An outflow the gate listed at `w0`. */
  predicate Listed(w0: World, o: Outflow) {
    o.txHash in w0.gate.ledger.holds && o.minedAtBlock == w0.gate.ledger.holds[o.txHash].minedAtBlock
  }

  lemma RetiredIsAccounted(w0: World, w1: World, w2: World, m: Moment, o: Outflow, block: nat,
                           inFlight: Option<set<Hash>>, a: Answer)
    requires HoldsSound(w0) && Listed(w0, o) && InFlightTrue(w1, inFlight)
    requires ReadInOrder(w0, w1, w2, m) && AnswerTrue(o, a, m)
    requires Retires(o, block, inFlight, a)
    ensures o.txHash in w2.txs && Accounted(w2.txs[o.txHash].fate, block)
  {
    assert HeightTrue(w0, o.txHash);
  }

  /**
   * The list is justified whenever it is applied, whatever the chain does between one read and the next:
   * each retired outflow is one that a read at `block` already shows, or one that can no longer happen.
   */
  lemma RetiredListIsJustified(w0: World, w1: World, w2: World, moments: seq<Moment>, outflows: seq<Outflow>,
                               block: nat, inFlight: Option<set<Hash>>, answers: seq<Answer>)
    requires HoldsSound(w0) && InFlightTrue(w1, inFlight)
    requires |outflows| == |answers| == |moments|
    requires forall i :: 0 <= i < |outflows| ==>
               && Listed(w0, outflows[i]) && ReadInOrder(w0, w1, w2, moments[i])
               && AnswerTrue(outflows[i], answers[i], moments[i])
    ensures Justified(w2, SettledOutflows(outflows, block, inFlight, answers), block)
  {
    forall h | h in SettledOutflows(outflows, block, inFlight, answers)
      ensures h in w2.txs && Accounted(w2.txs[h].fate, block)
    {
      var i :| 0 <= i < |outflows| && outflows[i].txHash == h && Retires(outflows[i], block, inFlight, answers[i]);
      RetiredIsAccounted(w0, w1, w2, moments[i], outflows[i], block, inFlight, answers[i]);
    }
  }

  /**
   * With a store, and lookups that answer, an outflow is retired exactly when at the moment of its receipt
   * the transaction is mined at or below the read, or is gone and the store had let go of it.
   */
  lemma RetiredExactly(w0: World, w1: World, w2: World, m: Moment, o: Outflow, block: nat, inFlight: set<Hash>,
                       a: Answer)
    requires HoldsSound(w0) && Listed(w0, o) && InFlightTrue(w1, Some(inFlight))
    requires ReadInOrder(w0, w1, w2, m) && AnswerTrue(o, a, m) && !a.receipt.LookupFailed?
    ensures var fate := m.receiptAt.txs[o.txHash].fate;
            Retires(o, block, Some(inFlight), a) <==>
              (fate.Mined? && fate.block <= block) || (fate.Gone? && o.txHash !in inFlight)
  {
    assert HeightTrue(w0, o.txHash);
  }

  /**
   * Without a store an outflow is retired exactly when at the moment of its receipt it is mined at or below the
   * read, or it is not mined and the node does not know it; and in any case nothing is retired on a failed lookup
   * unless the hold names a block at or below the read.
   */
  lemma RetiredWithoutStoreExactly(w0: World, w1: World, w2: World, m: Moment, o: Outflow, block: nat, a: Answer)
    requires HoldsSound(w0) && Listed(w0, o) && ReadInOrder(w0, w1, w2, m) && AnswerTrue(o, a, m)
    ensures var fate := m.receiptAt.txs[o.txHash].fate;
            !a.receipt.LookupFailed? ==>
              (Retires(o, block, None, a) <==>
                 (fate.Mined? && fate.block <= block) || (!fate.Mined? && a.view.Unknown?))
    ensures a.receipt.LookupFailed? ==>
              forall inFlight ::
                Retires(o, block, inFlight, a) <==> o.minedAtBlock.Some? && o.minedAtBlock.value <= block
  {
    assert HeightTrue(w0, o.txHash);
  }

  /**
   * The order of the reads carries the proof. Had the receipt been looked up first and the work list
   * after, a transaction that mined in between would be retired although the read does not show it.
   */
  lemma WorkListMustBeReadFirst()
    ensures exists before: World, after: World, o: Outflow, a: Answer, inFlight: set<Hash> ::
              && Later(before, after) && o.txHash in before.txs && o.txHash in after.txs
              && ReceiptTrue(before, o.txHash, a.receipt) && InFlightTrue(after, Some(inFlight))
              && Retires(o, 5, Some(inFlight), a) && !Accounted(after.txs[o.txHash].fate, 5)
  {
    var g := Gate(Safety(true, "", 0, false, 0, false), EMPTY_LEDGER, 0, []);
    var before := World(g, map["h" := Tx(0, Pending)], 6);
    var after := World(g, map["h" := Tx(0, Mined(7, true))], 7);
    var o := Outflow("h", None);
    var a := Answer(NotFound, Known);
    var inFlight: set<Hash> := {};
    assert Later(before, after) && ReceiptTrue(before, "h", a.receipt) && InFlightTrue(after, Some(inFlight));
    assert Retires(o, 5, Some(inFlight), a) && !Accounted(after.txs["h"].fate, 5);
  }
}
