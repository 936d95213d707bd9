/**
 * One arbitrage poll cycle against the shared gate. What every await answers, and where one throws, is a
 * script; at each await another engine uses the same gate, but never this cycle's slots.
 */
module ArbitrageCycle {
  import opened Common
  import opened RiskGate
  import opened GateLedger
  import E = ExposureSafety

  // ---- What the outside answers -------------------------------------------------------------------

  /** Whether our signed authorization paid without us; a failed read is an answer of its own. */
  datatype Verdict = Spent(paid: bool) | SpendUnknown

  datatype Preview = PreviewThrows | NotWorthIt | Worth(action: Action)
  datatype FundingAnswer = FundingThrows | AwaitingOperator | Satisfied
  datatype EstimateAnswer = BuildThrows | EstimateFails(verdict: Verdict) | EstimateWorks
  datatype CommitAnswer =
    | CommitThrows
    | NothingSent(verdict: Verdict)
    | CleanAbort(verdict: Verdict)
    | AmbiguousAbort(hash: Hash)
    | Broadcast(hash: Hash)

  datatype Receipt =
    | LookupFailed
    | TimedOut
    | ReplacedBy(other: Hash)
    | Succeeded(block: nat)
    | Reverted(block: nat, taken: bool, verdict: Verdict, expired: bool)
    | ClassifierThrows

  /** Where the handling of one vault gives up control. */
  datatype Await =
    | Previewing | Funding | Building | Estimating | AskingTaken | AskingVerdict | Committing | Throttled
    | ClassifyingTaken | ClassifyingVerdict | ClassifyingExpiry | Recording

  /** `others`: what the sibling engine does to the gate at each of them. */
  datatype Vault = Vault(
    preview: Preview, now: int, funding: FundingAnswer, estimate: EstimateAnswer, commit: CommitAnswer,
    throttleThrows: bool, receipt: Receipt, others: Await -> seq<GateEvent>)

  // ---- Outcomes ------------------------------------------------------------------------------------

  const FAILED := Outcome(false, false, false, false, false, false, None, None)

  function Unresolved(h: Hash): Outcome {
    FAILED.(unresolved := true, txHash := Some(h))
  }

  function WithVerdict(o: Outcome, v: Verdict): Outcome {
    match v
    case Spent(paid) => o.(spent := paid)
    case SpendUnknown => o.(spendUnknown := true)
  }

  function AbandonedAfter(v: Verdict): Outcome {
    WithVerdict(ABANDONED, v)
  }

  predicate Sends(v: Vault) {
    v.funding.Satisfied? && v.estimate.EstimateWorks? && v.commit.Broadcast?
  }

  /** How an allowed vault that is not handed to the receipt phase is settled. */
  function PrepareOutcome(v: Vault): Outcome {
    match v.funding
    case FundingThrows => FAILED
    case AwaitingOperator => ABANDONED
    case Satisfied =>
      match v.estimate
      case BuildThrows => FAILED
      case EstimateFails(verdict) => AbandonedAfter(verdict)
      case EstimateWorks =>
        match v.commit
        case CommitThrows => FAILED
        case NothingSent(verdict) => AbandonedAfter(verdict)
        case CleanAbort(verdict) => AbandonedAfter(verdict)
        case AmbiguousAbort(h) => Unresolved(h)
        case Broadcast(h) => Unresolved(h)
  }

  function ReceiptOutcome(h: Hash, r: Receipt): Outcome {
    match r
    case LookupFailed => Unresolved(h)
    case TimedOut => Unresolved(h)
    case ReplacedBy(_) => Unresolved(h)
    case Succeeded(b) => FAILED.(ok := true, txHash := Some(h), minedAtBlock := Some(b))
    case Reverted(b, taken, verdict, expired) =>
      if taken then WithVerdict(FAILED.(contended := true, txHash := Some(h), minedAtBlock := Some(b)), verdict)
      else if expired then ABANDONED
      else FAILED
    case ClassifierThrows => FAILED.(spendUnknown := true)
  }

  /** The one outcome that settles an allowed vault's slot, given whether the receipt phase was reached. */
  function FinalOutcome(v: Vault, receiptsReached: bool): Outcome {
    if Sends(v) && receiptsReached then ReceiptOutcome(v.commit.hash, v.receipt) else PrepareOutcome(v)
  }

  predicate HasReceipt(r: Receipt) {
    r.Succeeded? || r.Reverted? || r.ClassifierThrows?
  }

  /** The transaction that may have left for this vault. */
  function OnTheWire(v: Vault): Option<Hash> {
    if !v.funding.Satisfied? || !v.estimate.EstimateWorks? then None
    else match v.commit
      case AmbiguousAbort(h) => Some(h)
      case Broadcast(h) => Some(h)
      case _ => None
  }

  /** A transaction that left, or may have, and has no receipt of its own is `unresolved` under its own hash. */
  lemma NoReceiptMeansUnresolved(v: Vault, receiptsReached: bool)
    requires OnTheWire(v).Some? && !(Sends(v) && receiptsReached && HasReceipt(v.receipt))
    ensures FinalOutcome(v, receiptsReached) == Unresolved(OnTheWire(v).value)
    ensures !FinalOutcome(v, receiptsReached).abandoned && CountsAsSpent(FinalOutcome(v, receiptsReached))
  {
  }

  /** `abandoned` is reported only when nothing of ours left, or the router refused an expired batch. */
  lemma AbandonedMeansNothingLeft(v: Vault, receiptsReached: bool)
    ensures FinalOutcome(v, receiptsReached).abandoned ==>
              || OnTheWire(v).None?
              || (Sends(v) && receiptsReached && v.receipt.Reverted? && v.receipt.expired && !v.receipt.taken)
  {
  }

  // ---- What an outcome counts as, from the script alone ----------------------------------------------

  /** Our transaction left, or may have, and no receipt of its own has come in. */
  predicate FateUnknown(v: Vault, receiptsReached: bool) {
    OnTheWire(v).Some? && !(Sends(v) && receiptsReached && HasReceipt(v.receipt))
  }

  /** The receipt of our own transaction is in hand. */
  predicate ReceiptRead(v: Vault, receiptsReached: bool) {
    v.funding.Satisfied? && v.estimate.EstimateWorks? && v.commit.Broadcast? && receiptsReached
  }

  /** The acquisition mined and failed because somebody else had taken the vault. */
  predicate LostRace(v: Vault, receiptsReached: bool) {
    ReceiptRead(v, receiptsReached) && v.receipt.Reverted? && v.receipt.taken
  }

  predicate ExpiredBeforeMining(v: Vault, receiptsReached: bool) {
    ReceiptRead(v, receiptsReached) && v.receipt.Reverted? && !v.receipt.taken && v.receipt.expired
  }

  /** The attempt was given up before anything left: no funding yet, a failed estimate, or a clean refusal to send. */
  predicate GivenUp(v: Vault) {
    || v.funding.AwaitingOperator?
    || (v.funding.Satisfied? && v.estimate.EstimateFails?)
    || (v.funding.Satisfied? && v.estimate.EstimateWorks? && (v.commit.NothingSent? || v.commit.CleanAbort?))
  }

  /** What was found out about our own signed batch, on the branches that ask. */
  function VerdictRead(v: Vault, receiptsReached: bool): Option<Verdict> {
    if !v.funding.Satisfied? then None
    else if v.estimate.EstimateFails? then Some(v.estimate.verdict)
    else if !v.estimate.EstimateWorks? then None
    else if v.commit.NothingSent? || v.commit.CleanAbort? then Some(v.commit.verdict)
    else if LostRace(v, receiptsReached) then Some(v.receipt.verdict)
    else None
  }

  /**
   * The spend stays counted exactly when a transaction of ours is unresolved, the acquisition succeeded, our
   * batch paid without us or nobody can say whether it did, or classifying a receipt threw.
   */
  lemma CountsAsSpentExactly(v: Vault, receiptsReached: bool)
    ensures CountsAsSpent(FinalOutcome(v, receiptsReached)) <==>
              || FateUnknown(v, receiptsReached)
              || (ReceiptRead(v, receiptsReached) && (v.receipt.Succeeded? || v.receipt.ClassifierThrows?))
              || VerdictRead(v, receiptsReached) in {Some(Spent(true)), Some(SpendUnknown)}
    ensures FinalOutcome(v, receiptsReached).spent <==> VerdictRead(v, receiptsReached) == Some(Spent(true))
    ensures FinalOutcome(v, receiptsReached).spendUnknown <==>
              || VerdictRead(v, receiptsReached) == Some(SpendUnknown)
              || (ReceiptRead(v, receiptsReached) && v.receipt.ClassifierThrows?)
  {
    match v.funding
    case FundingThrows =>
    case AwaitingOperator =>
    case Satisfied => match v.estimate
      case BuildThrows =>
      case EstimateFails(_) =>
      case EstimateWorks => match v.commit
        case Broadcast(h) => ReceiptCounts(h, v.receipt);
        case _ =>
  }

  lemma ReceiptCounts(h: Hash, r: Receipt)
    ensures CountsAsSpent(ReceiptOutcome(h, r)) <==>
              || !HasReceipt(r) || r.Succeeded? || r.ClassifierThrows?
              || (r.Reverted? && r.taken && r.verdict in {Spent(true), SpendUnknown})
    ensures ReceiptOutcome(h, r).spent <==> r.Reverted? && r.taken && r.verdict == Spent(true)
    ensures ReceiptOutcome(h, r).spendUnknown <==>
              (r.Reverted? && r.taken && r.verdict == SpendUnknown) || r.ClassifierThrows?
  {
  }

  /**
   * The breaker hears of it unless nothing was sent, its fate is unknown, the race was lost or the authorization
   * expired. So throws before the send, plain reverts and throwing classifiers count against us, and a success for.
   */
  lemma BreakerExemptExactly(v: Vault, receiptsReached: bool)
    ensures BreakerExempt(FinalOutcome(v, receiptsReached)) <==>
              || GivenUp(v) || FateUnknown(v, receiptsReached)
              || LostRace(v, receiptsReached) || ExpiredBeforeMining(v, receiptsReached)
    ensures FinalOutcome(v, receiptsReached).ok <==> ReceiptRead(v, receiptsReached) && v.receipt.Succeeded?
    ensures FinalOutcome(v, receiptsReached).unresolved <==> FateUnknown(v, receiptsReached)
    ensures FinalOutcome(v, receiptsReached).contended <==> LostRace(v, receiptsReached)
    ensures FinalOutcome(v, receiptsReached).abandoned <==> GivenUp(v) || ExpiredBeforeMining(v, receiptsReached)
  {
  }

  /** The hash and the block travel with every outcome that a receipt or its absence vouches for. */
  lemma CarriesItsEvidence(v: Vault, receiptsReached: bool)
    ensures FateUnknown(v, receiptsReached) ==> FinalOutcome(v, receiptsReached).txHash == OnTheWire(v)
    ensures FinalOutcome(v, receiptsReached).ok || FinalOutcome(v, receiptsReached).contended ==>
              && FinalOutcome(v, receiptsReached).txHash == Some(v.commit.hash)
              && FinalOutcome(v, receiptsReached).minedAtBlock == Some(v.receipt.block)
    ensures !(FinalOutcome(v, receiptsReached).ok || FinalOutcome(v, receiptsReached).contended) ==>
              FinalOutcome(v, receiptsReached).minedAtBlock.None?
  {
  }

  /** A receipt in hand says what the chain did; classifying only ever goes on after a revert. */
  predicate ReceiptTrue(fate: E.Fate, r: Receipt) {
    match r
    case Succeeded(b) => fate == E.Mined(b, true)
    case Reverted(b, _, _, _) => fate == E.Mined(b, false)
    case ClassifierThrows => fate.Mined? && !fate.ok
    case _ => true
  }

  /** The slot sent what the script put on the wire, and nothing else. */
  predicate SentBy(w: E.World, i: nat, v: Vault) {
    && (OnTheWire(v).Some? ==> OnTheWire(v).value in w.txs)
    && forall h :: h in w.txs ==> (w.txs[h].slot == i <==> OnTheWire(v) == Some(h))
  }

  /** With true receipts, every outcome the cycle reports is one the exposure ledger may rely on. */
  lemma OutcomesAreTruthful(w: E.World, i: nat, v: Vault, receiptsReached: bool)
    requires SentBy(w, i, v)
    requires Sends(v) && receiptsReached ==> ReceiptTrue(w.txs[v.commit.hash].fate, v.receipt)
    ensures E.Truthful(w, i, FinalOutcome(v, receiptsReached))
  {
  }

  // ---- The sibling engine ----------------------------------------------------------------------------

  predicate SettlesOneOf(e: GateEvent, mine: set<int>) {
    e.SettleE? && e.slot in mine
  }

  method Perform(risk: RiskGate, e: GateEvent)
    modifies risk
    ensures risk.View() == Step(old(risk.View()), risk.config, e)
  {
    match e
    case OpenE(action, now) => var slot, blocked := risk.Open(action, now);
    case SettleE(i, o) => risk.SettleSlot(i, o);
    case AvailableE(account, amount, block) => risk.Refresh(account, amount, block);
    case SnapshotE(balances, block, settled) => risk.Snapshot(balances, block, settled);
    case HaltE(reason) => risk.HaltFor(reason, false);
    case ResumeE => var accepted := risk.TryResume();
    case VerifyE(pins, answers, startSeq) =>
      if |pins| == |answers| {
        var failed := risk.Verified(Some(pins), answers, startSeq);
      }
  }

  /** Slots of the cycle are as they were; others may have come or been settled. */
  ghost predicate Untouched(before: seq<Slot>, after: seq<Slot>, mine: set<int>) {
    |before| <= |after| && forall i :: i in mine && 0 <= i < |before| ==> after[i] == before[i]
  }

  /** The gate once the sibling has had its say; it never settles a slot of ours. */
  ghost function AfterOthers(g: Gate, cfg: Config, ops: seq<GateEvent>, mine: set<int>): Gate {
    if ops == [] then g
    else
      var before, last := AfterOthers(g, cfg, ops[..|ops| - 1], mine), ops[|ops| - 1];
      if SettlesOneOf(last, mine) then before else Step(before, cfg, last)
  }

  method Others(risk: RiskGate, ops: seq<GateEvent>, mine: set<int>)
    requires Balanced(risk.View(), risk.config)
    modifies risk
    ensures Balanced(risk.View(), risk.config)
    ensures Untouched(old(risk.slots), risk.slots, mine)
    ensures risk.View() == AfterOthers(old(risk.View()), risk.config, ops, mine)
  {
    assert ops[..|ops|] == ops;
    for i := 0 to |ops|
      invariant Balanced(risk.View(), risk.config)
      invariant risk.View() == AfterOthers(old(risk.View()), risk.config, ops[..i], mine)
      invariant Untouched(old(risk.slots), risk.slots, mine)
    {
      assert ops[..i + 1][..i] == ops[..i];
      if !SettlesOneOf(ops[i], mine) {
        StepKeepsBalance(risk.View(), risk.config, ops[i]);
        StepKeepsSlots(risk.View(), risk.config, ops[i]);
        Perform(risk, ops[i]);
      }
    }
  }

  /** Only slot `i` may have changed. */
  ghost predicate OnlyAt(before: seq<Slot>, after: seq<Slot>, i: nat) {
    |after| == |before| && forall j :: 0 <= j < |before| && j != i ==> after[j] == before[j]
  }

  lemma UntouchedThenOnlyAt(a: seq<Slot>, b: seq<Slot>, c: seq<Slot>, mine: set<int>, i: nat)
    requires Untouched(a, b, mine) && OnlyAt(b, c, i) && i !in mine
    ensures Untouched(a, c, mine)
  {
  }

  lemma UntouchedTwice(a: seq<Slot>, b: seq<Slot>, c: seq<Slot>, mine: set<int>)
    requires Untouched(a, b, mine) && Untouched(b, c, mine)
    ensures Untouched(a, c, mine)
  {
  }

  /** The first outcome stays. */
  function FirstOutcome(s: Slot, o: Outcome): Option<Outcome> {
    if s.settled.Some? then s.settled else Some(o)
  }

  method SettleOurs(risk: RiskGate, i: nat, o: Outcome)
    requires Balanced(risk.View(), risk.config) && i < |risk.slots|
    modifies risk
    ensures Balanced(risk.View(), risk.config)
    ensures OnlyAt(old(risk.slots), risk.slots, i)
    ensures risk.slots[i] == old(risk.slots)[i].(settled := FirstOutcome(old(risk.slots)[i], o))
  {
    StepKeepsBalance(risk.View(), risk.config, SettleE(i, o));
    risk.SettleSlot(i, o);
  }

  // ---- Prepare and send --------------------------------------------------------------------------------

  datatype Prepared = Skipped | SendError | Sent(hash: Hash)

  predicate Stops(v: Vault) {
    v.funding.Satisfied? && v.estimate.EstimateWorks? && (v.commit.CleanAbort? || v.commit.AmbiguousAbort?)
  }

  /** The vault is worth acquiring and the gate, as it stands then, allows it. */
  ghost predicate Admits(v: Vault, g: Gate, cfg: Config) {
    v.preview.Worth? && Evaluate(g, cfg, v.now, v.preview.action).None?
  }

  /**
   * Everything up to the broadcast. The slot, once opened, is settled here on every path, a throw
   * included, except when it is handed to the receipt phase.
   */
  method PrepareAndSend(risk: RiskGate, v: Vault, mine: set<int>)
    returns (kind: Prepared, slot: Option<nat>, ghost judged: Gate)
    requires Balanced(risk.View(), risk.config) && forall i :: i in mine ==> 0 <= i < |risk.slots|
    modifies risk
    ensures Balanced(risk.View(), risk.config)
    ensures Untouched(old(risk.slots), risk.slots, mine)
    ensures judged == AfterOthers(old(risk.View()), risk.config, v.others(Previewing), mine)
    ensures slot.Some? <==> Admits(v, judged, risk.config)
    ensures slot.None? ==> kind.Skipped?
    ensures slot.Some? ==>
              && slot.value < |risk.slots| && slot.value !in mine
              && kind == (if Sends(v) then Sent(v.commit.hash) else if Stops(v) then SendError else Skipped)
              && risk.slots[slot.value] ==
                   Slot(v.preview.action.spend, if Sends(v) then None else Some(PrepareOutcome(v)))
  {
    Others(risk, v.others(Previewing), mine);
    judged := risk.View();
    if !v.preview.Worth? {
      return Skipped, None, judged;
    }
    ghost var blocked;
    OpenKeeps(risk.View(), risk.config, v.preview.action, v.now);
    slot, blocked := risk.Open(v.preview.action, v.now);
    if slot.None? {
      return Skipped, None, judged;
    }
    ghost var atOpen := risk.slots;
    kind := SendAllowed(risk, v, slot.value, mine);
    UntouchedTwice(old(risk.slots), atOpen, risk.slots, mine);
  }

  /** The `try`, its `catch` and its `finally`, once there is a slot: only a handed-off slot stays open. */
  method SendAllowed(risk: RiskGate, v: Vault, slot: nat, mine: set<int>) returns (kind: Prepared)
    requires Balanced(risk.View(), risk.config) && slot < |risk.slots| && risk.slots[slot].settled.None?
    requires slot !in mine
    modifies risk
    ensures Balanced(risk.View(), risk.config) && slot < |risk.slots| && Untouched(old(risk.slots), risk.slots, mine)
    ensures kind == (if Sends(v) then Sent(v.commit.hash) else if Stops(v) then SendError else Skipped)
    ensures risk.slots[slot] ==
              old(risk.slots)[slot].(settled := if Sends(v) then None else Some(PrepareOutcome(v)))
  {
    var threw;
    kind, threw := FundAndCommit(risk, v, slot, mine);
    ghost var tried := risk.slots;
    if threw {
      SettleOurs(risk, slot, FAILED);
    }
    if !kind.Sent? {
      SettleOurs(risk, slot, ABANDONED);
    }
    UntouchedThenOnlyAt(old(risk.slots), tried, risk.slots, mine, slot);
  }

  /** The body of the `try` once the gate has allowed the action. */
  method FundAndCommit(risk: RiskGate, v: Vault, slot: nat, mine: set<int>) returns (kind: Prepared, threw: bool)
    requires Balanced(risk.View(), risk.config) && slot < |risk.slots| && risk.slots[slot].settled.None?
    requires slot !in mine
    modifies risk
    ensures Balanced(risk.View(), risk.config) && slot < |risk.slots| && Untouched(old(risk.slots), risk.slots, mine)
    ensures kind == (if Sends(v) then Sent(v.commit.hash) else if Stops(v) then SendError else Skipped)
    ensures kind.Sent? ==> !threw
    ensures risk.slots[slot] ==
              old(risk.slots)[slot].(settled := if kind.Sent? || threw then None else Some(PrepareOutcome(v)))
    ensures threw ==> PrepareOutcome(v) == FAILED
  {
    Others(risk, v.others(Funding), mine + {slot});
    match v.funding
    case FundingThrows => return Skipped, true;
    case AwaitingOperator => SettleAfter(risk, slot, ABANDONED, [], mine); return Skipped, false;
    case Satisfied =>
      Others(risk, v.others(Building) + v.others(Estimating), mine + {slot});
      match v.estimate
      case BuildThrows => return Skipped, true;
      case EstimateFails(verdict) =>
        SettleAfter(risk, slot, AbandonedAfter(verdict), v.others(AskingTaken) + v.others(AskingVerdict), mine);
        return Skipped, false;
      case EstimateWorks =>
        Others(risk, v.others(Committing), mine + {slot});
        kind, threw := JudgeCommit(risk, v, slot, mine);
  }

  /** The sibling goes first, then our slot is settled. */
  method SettleAfter(risk: RiskGate, slot: nat, o: Outcome, others: seq<GateEvent>, mine: set<int>)
    requires Balanced(risk.View(), risk.config) && slot < |risk.slots| && slot !in mine
    modifies risk
    ensures Balanced(risk.View(), risk.config) && slot < |risk.slots| && Untouched(old(risk.slots), risk.slots, mine)
    ensures risk.slots[slot] == old(risk.slots)[slot].(settled := FirstOutcome(old(risk.slots)[slot], o))
  {
    Others(risk, others, mine + {slot});
    ghost var waited := risk.slots;
    SettleOurs(risk, slot, o);
    UntouchedThenOnlyAt(old(risk.slots), waited, risk.slots, mine, slot);
  }

  /** What `commit` reported, settled or handed on. */
  method JudgeCommit(risk: RiskGate, v: Vault, slot: nat, mine: set<int>) returns (kind: Prepared, threw: bool)
    requires Balanced(risk.View(), risk.config) && slot < |risk.slots| && risk.slots[slot].settled.None?
    requires slot !in mine
    requires v.funding.Satisfied? && v.estimate.EstimateWorks?
    modifies risk
    ensures Balanced(risk.View(), risk.config) && slot < |risk.slots| && Untouched(old(risk.slots), risk.slots, mine)
    ensures kind == (if Sends(v) then Sent(v.commit.hash) else if Stops(v) then SendError else Skipped)
    ensures kind.Sent? ==> !threw
    ensures risk.slots[slot] ==
              old(risk.slots)[slot].(settled := if kind.Sent? || threw then None else Some(PrepareOutcome(v)))
    ensures threw ==> PrepareOutcome(v) == FAILED
  {
    match v.commit
    case CommitThrows => return Skipped, true;
    case NothingSent(verdict) =>
      SettleAfter(risk, slot, AbandonedAfter(verdict), v.others(AskingVerdict), mine);
      return Skipped, false;
    case CleanAbort(verdict) =>
      SettleAfter(risk, slot, AbandonedAfter(verdict), v.others(AskingVerdict), mine);
      return SendError, false;
    case AmbiguousAbort(h) =>
      SettleAfter(risk, slot, Unresolved(h), [], mine);
      return SendError, false;
    case Broadcast(h) => return Sent(h), false;
  }

  lemma OpenKeeps(g: Gate, cfg: Config, action: Action, now: int)
    requires Balanced(g, cfg)
    ensures Balanced(OpenSlot(g, cfg, now, action), cfg)
    ensures |g.slots| <= |OpenSlot(g, cfg, now, action).slots|
    ensures forall i :: 0 <= i < |g.slots| ==> OpenSlot(g, cfg, now, action).slots[i] == g.slots[i]
  {
    StepKeepsBalance(g, cfg, OpenE(action, now));
  }

  // ---- Receipts ------------------------------------------------------------------------------------------

  /** A broadcast acquisition: its slot, its hash, and the vault of the list it is for. */
  datatype SentEntry = SentEntry(slot: nat, hash: Hash, vault: nat)

  /** What the sibling does while the receipt is being classified, before our slot is settled. */
  function WhileClassifying(v: Vault): seq<GateEvent> {
    match v.receipt
    case Reverted(_, taken, _, _) =>
      v.others(ClassifyingTaken) + v.others(if taken then ClassifyingVerdict else ClassifyingExpiry)
    case ClassifierThrows => v.others(ClassifyingTaken)
    case _ => []
  }

  /** The branch the receipt takes; a throwing classifier reaches none. */
  method Classify(risk: RiskGate, slot: nat, hash: Hash, receipt: Receipt)
    requires Balanced(risk.View(), risk.config) && slot < |risk.slots| && !receipt.LookupFailed?
    modifies risk
    ensures Balanced(risk.View(), risk.config) && OnlyAt(old(risk.slots), risk.slots, slot)
    ensures risk.slots[slot].settled ==
              if receipt.ClassifierThrows? then old(risk.slots)[slot].settled
              else FirstOutcome(old(risk.slots)[slot], ReceiptOutcome(hash, receipt))
  {
    match receipt
    case TimedOut => SettleOurs(risk, slot, Unresolved(hash));
    case ReplacedBy(_) => SettleOurs(risk, slot, Unresolved(hash));
    case Succeeded(b) => SettleOurs(risk, slot, Outcome(true, false, false, false, false, false, Some(hash), Some(b)));
    case Reverted(b, taken, verdict, expired) =>
      if taken {
        var contended := Outcome(false, false, true, false, false, false, Some(hash), Some(b));
        SettleOurs(risk, slot, WithVerdict(contended, verdict));
      } else if expired {
        SettleOurs(risk, slot, ABANDONED);
      } else {
        SettleOurs(risk, slot, FAILED);
      }
    case ClassifierThrows =>
  }

  /** Classify one receipt; the `finally` settles a throw that no branch accounted for. */
  method FinishAcquisition(risk: RiskGate, e: SentEntry, v: Vault, mine: set<int>)
    requires Balanced(risk.View(), risk.config) && e.slot < |risk.slots| && !v.receipt.LookupFailed? && e.slot !in mine
    modifies risk
    ensures Balanced(risk.View(), risk.config) && e.slot < |risk.slots| && Untouched(old(risk.slots), risk.slots, mine)
    ensures risk.slots[e.slot].settled == FirstOutcome(old(risk.slots)[e.slot], ReceiptOutcome(e.hash, v.receipt))
  {
    Others(risk, WhileClassifying(v), mine + {e.slot});
    ghost var waited := risk.slots;
    Classify(risk, e.slot, e.hash, v.receipt);
    UntouchedThenOnlyAt(old(risk.slots), waited, risk.slots, mine, e.slot);
    ghost var judged := risk.slots;
    SettleAfter(risk, e.slot, FAILED.(spendUnknown := true), v.others(Recording), mine);
    UntouchedTwice(old(risk.slots), judged, risk.slots, mine);
  }

  // ---- The cycle -------------------------------------------------------------------------------------------

  /** The slots the cycle opened, each with the index of its vault. */
  type Slots = map<int, nat>

  ghost predicate Ours(slots: seq<Slot>, vaults: seq<Vault>, ours: Slots) {
    forall i :: i in ours ==> 0 <= i < |slots| && ours[i] < |vaults|
  }

  predicate SentSound(vaults: seq<Vault>, ours: Slots, sent: seq<SentEntry>) {
    && (forall n :: 0 <= n < |sent| ==>
          && sent[n].slot in ours && ours[sent[n].slot] == sent[n].vault && sent[n].vault < |vaults|
          && Sends(vaults[sent[n].vault]) && vaults[sent[n].vault].commit.hash == sent[n].hash)
    && (forall m, n :: 0 <= m < n < |sent| ==> sent[m].slot != sent[n].slot)
  }

  predicate IsSent(sent: seq<SentEntry>, slot: int) {
    exists n :: 0 <= n < |sent| && sent[n].slot == slot
  }

  /** Slots that were never handed on are settled; the handed-on ones are all in `sent`. */
  ghost predicate Accounted(slots: seq<Slot>, vaults: seq<Vault>, ours: Slots, sent: seq<SentEntry>) {
    && Ours(slots, vaults, ours) && SentSound(vaults, ours, sent)
    && forall i :: i in ours ==>
         if Sends(vaults[ours[i]]) then IsSent(sent, i) else slots[i].settled == Some(PrepareOutcome(vaults[ours[i]]))
  }

  /** The first `n` sent entries are settled by their final outcome, the rest are open. */
  ghost predicate Classified(slots: seq<Slot>, vaults: seq<Vault>, ours: Slots, sent: seq<SentEntry>, n: nat,
                             receiptsReached: bool) {
    && Accounted(slots, vaults, ours, sent) && n <= |sent|
    && (forall m :: 0 <= m < n ==>
          slots[sent[m].slot].settled == Some(FinalOutcome(vaults[sent[m].vault], receiptsReached)))
    && (forall m :: n <= m < |sent| ==> slots[sent[m].slot].settled.None?)
  }

  ghost predicate AllSettled(slots: seq<Slot>, vaults: seq<Vault>, ours: Slots, receiptsReached: bool) {
    && Ours(slots, vaults, ours)
    && forall i :: i in ours ==> slots[i].settled == Some(FinalOutcome(vaults[ours[i]], receiptsReached))
  }

  lemma ClassifiedStep(slots: seq<Slot>, after: seq<Slot>, vaults: seq<Vault>, ours: Slots, sent: seq<SentEntry>,
                       n: nat, receiptsReached: bool)
    requires Classified(slots, vaults, ours, sent, n, receiptsReached) && n < |sent|
    requires Untouched(slots, after, ours.Keys - {sent[n].slot})
    requires after[sent[n].slot].settled == Some(FinalOutcome(vaults[sent[n].vault], receiptsReached))
    ensures Classified(after, vaults, ours, sent, n + 1, receiptsReached)
  {
    forall i | i in ours
      ensures if Sends(vaults[ours[i]]) then IsSent(sent, i)
              else after[i].settled == Some(PrepareOutcome(vaults[ours[i]]))
    {
      assert i == sent[n].slot ==> Sends(vaults[ours[i]]);
    }
  }

  lemma ClassifiedEnds(slots: seq<Slot>, vaults: seq<Vault>, ours: Slots, sent: seq<SentEntry>, receiptsReached: bool)
    requires Classified(slots, vaults, ours, sent, |sent|, receiptsReached)
    ensures AllSettled(slots, vaults, ours, receiptsReached)
  {
    forall i | i in ours
      ensures slots[i].settled == Some(FinalOutcome(vaults[ours[i]], receiptsReached))
    {
      if Sends(vaults[ours[i]]) {
        var n :| 0 <= n < |sent| && sent[n].slot == i;
      }
    }
  }

  /** One more vault prepared: its slot, if it got one, is accounted for. */
  lemma PreparedStep(slots: seq<Slot>, after: seq<Slot>, vaults: seq<Vault>, ours: Slots, sent: seq<SentEntry>, i: nat,
                     slot: nat)
    requires Classified(slots, vaults, ours, sent, 0, false) && i < |vaults|
    requires Untouched(slots, after, ours.Keys) && slot < |after| && slot !in ours
    requires after[slot].settled == if Sends(vaults[i]) then None else Some(PrepareOutcome(vaults[i]))
    ensures Classified(after, vaults, ours[slot := i],
                       if Sends(vaults[i]) then sent + [SentEntry(slot, vaults[i].commit.hash, i)] else sent, 0, false)
  {
    var ours' := ours[slot := i];
    var sent' := if Sends(vaults[i]) then sent + [SentEntry(slot, vaults[i].commit.hash, i)] else sent;
    forall j | j in ours'
      ensures if Sends(vaults[ours'[j]]) then IsSent(sent', j)
              else after[j].settled == Some(PrepareOutcome(vaults[ours'[j]]))
    {
      if j == slot {
        if Sends(vaults[i]) {
          assert sent'[|sent|].slot == j;
        }
      } else if Sends(vaults[ours[j]]) {
        var n :| 0 <= n < |sent| && sent[n].slot == j;
        assert sent'[n].slot == j;
      }
    }
  }

  lemma UntouchedStep(slots: seq<Slot>, after: seq<Slot>, vaults: seq<Vault>, ours: Slots, sent: seq<SentEntry>,
                       n: nat, receiptsReached: bool)
    requires Classified(slots, vaults, ours, sent, n, receiptsReached) && Untouched(slots, after, ours.Keys)
    ensures Classified(after, vaults, ours, sent, n, receiptsReached)
  {
  }

  ghost predicate HasSlot(ours: Slots, j: nat) {
    exists i :: i in ours && ours[i] == j
  }

  /** Vaults were tried in order, each exactly once, and got a slot exactly if the gate then allowed it. */
  ghost predicate TriedInOrder(vaults: seq<Vault>, ours: Slots, judged: seq<Gate>, cfg: Config) {
    && |judged| <= |vaults|
    && (forall i :: i in ours ==> ours[i] < |judged|)
    && (forall h, i :: h in ours && i in ours && ours[h] == ours[i] ==> h == i)
    && (forall j :: 0 <= j < |judged| ==> (HasSlot(ours, j) <==> Admits(vaults[j], judged[j], cfg)))
  }

  lemma TriedOneMore(vaults: seq<Vault>, ours: Slots, judged: seq<Gate>, cfg: Config, g: Gate, slot: Option<nat>)
    requires TriedInOrder(vaults, ours, judged, cfg) && |judged| < |vaults|
    requires slot.Some? <==> Admits(vaults[|judged|], g, cfg)
    requires slot.Some? ==> slot.value !in ours
    ensures TriedInOrder(vaults, if slot.Some? then ours[slot.value := |judged|] else ours, judged + [g], cfg)
  {
    var ours' := if slot.Some? then ours[slot.value := |judged|] else ours;
    if slot.Some? {
      assert slot.value in ours' && ours'[slot.value] == |judged|;
    }
    forall j | 0 <= j < |judged|
      ensures HasSlot(ours', j) <==> HasSlot(ours, j)
    {
      if HasSlot(ours, j) {
        var i :| i in ours && ours[i] == j;
        assert i in ours' && ours'[i] == j;
      }
    }
  }

  /** The vault was broadcast and the pause after it throws. */
  ghost predicate ThrottledOut(v: Vault, g: Gate, cfg: Config) {
    Admits(v, g, cfg) && Sends(v) && v.throttleThrows
  }

  /** The vault was tried and its send failed so that the next nonce may be a gap. */
  ghost predicate LeavesGap(v: Vault, g: Gate, cfg: Config) {
    Admits(v, g, cfg) && Stops(v)
  }

  /** No vault below `n` ended the phase. */
  ghost predicate WentOn(vaults: seq<Vault>, judged: seq<Gate>, n: nat, cfg: Config) {
    && n <= |judged| <= |vaults|
    && forall j :: 0 <= j < n ==> !ThrottledOut(vaults[j], judged[j], cfg) && !LeavesGap(vaults[j], judged[j], cfg)
  }

  /** The phase ends at the first throwing throttle or send error, and otherwise not before the last vault. */
  ghost predicate StoppedFor(vaults: seq<Vault>, judged: seq<Gate>, threw: bool, cfg: Config) {
    if judged == [] then vaults == [] && !threw
    else
      var last := |judged| - 1;
      && WentOn(vaults, judged, last, cfg)
      && (threw <==> ThrottledOut(vaults[last], judged[last], cfg))
      && (|judged| == |vaults| || threw || LeavesGap(vaults[last], judged[last], cfg))
  }

  /** Prepare and send the next vault, and list it if it was sent. */
  method TryNext(risk: RiskGate, vaults: seq<Vault>, i: nat, sofar: seq<SentEntry>, had: Slots, ghost seen: seq<Gate>)
    returns (kind: Prepared, sent: seq<SentEntry>, ours: Slots, ghost judged: seq<Gate>)
    requires Balanced(risk.View(), risk.config) && i == |seen| < |vaults|
    requires Classified(risk.slots, vaults, had, sofar, 0, false) && TriedInOrder(vaults, had, seen, risk.config)
    requires WentOn(vaults, seen, i, risk.config)
    modifies risk
    ensures Balanced(risk.View(), risk.config) && |judged| == |seen| + 1
    ensures Classified(risk.slots, vaults, ours, sent, 0, false) && TriedInOrder(vaults, ours, judged, risk.config)
    ensures WentOn(vaults, judged, i, risk.config)
    ensures kind.Sent? <==> Admits(vaults[i], judged[i], risk.config) && Sends(vaults[i])
    ensures kind.SendError? <==> LeavesGap(vaults[i], judged[i], risk.config)
  {
    ghost var before := risk.slots;
    ghost var g;
    var slot;
    kind, slot, g := PrepareAndSend(risk, vaults[i], had.Keys);
    TriedOneMore(vaults, had, seen, risk.config, g, slot);
    sent, ours, judged := sofar, had, seen + [g];
    if slot.None? {
      UntouchedStep(before, risk.slots, vaults, ours, sent, 0, false);
      return;
    }
    PreparedStep(before, risk.slots, vaults, had, sofar, i, slot.value);
    ours := ours[slot.value := i];
    if kind.Sent? {
      sent := sent + [SentEntry(slot.value, kind.hash, i)];
    }
  }

  /** The optional pause after a broadcast: the sibling goes on, and our slots stay as they are. */
  method Pause(risk: RiskGate, vaults: seq<Vault>, others: seq<GateEvent>, sent: seq<SentEntry>, ours: Slots)
    requires Balanced(risk.View(), risk.config) && Classified(risk.slots, vaults, ours, sent, 0, false)
    modifies risk
    ensures Balanced(risk.View(), risk.config) && Classified(risk.slots, vaults, ours, sent, 0, false)
  {
    ghost var prepared := risk.slots;
    Others(risk, others, ours.Keys);
    UntouchedStep(prepared, risk.slots, vaults, ours, sent, 0, false);
  }

  /** The next vault and, if it was broadcast, the pause after it; whether the phase goes on. */
  method Advance(risk: RiskGate, vaults: seq<Vault>, i: nat, sofar: seq<SentEntry>, had: Slots, ghost seen: seq<Gate>)
    returns (sent: seq<SentEntry>, ours: Slots, ghost judged: seq<Gate>, goesOn: bool, threw: bool)
    requires Balanced(risk.View(), risk.config) && i == |seen| < |vaults|
    requires Classified(risk.slots, vaults, had, sofar, 0, false) && TriedInOrder(vaults, had, seen, risk.config)
    requires WentOn(vaults, seen, i, risk.config)
    modifies risk
    ensures Balanced(risk.View(), risk.config) && |judged| == |seen| + 1
    ensures Classified(risk.slots, vaults, ours, sent, 0, false) && TriedInOrder(vaults, ours, judged, risk.config)
    ensures if goesOn then !threw && WentOn(vaults, judged, i + 1, risk.config)
            else StoppedFor(vaults, judged, threw, risk.config)
  {
    var kind;
    kind, sent, ours, judged := TryNext(risk, vaults, i, sofar, had, seen);
    if kind.Sent? {
      Pause(risk, vaults, vaults[i].others(Throttled), sent, ours);
    }
    threw := kind.Sent? && vaults[i].throttleThrows;
    goesOn := !threw && !kind.SendError?;
  }

  /** Send vault after vault, stopping at a send error; a throwing throttle ends the phase at once. */
  method SendAll(risk: RiskGate, vaults: seq<Vault>)
    returns (sent: seq<SentEntry>, threw: bool, ours: Slots, ghost judged: seq<Gate>)
    requires Balanced(risk.View(), risk.config)
    modifies risk
    ensures Balanced(risk.View(), risk.config)
    ensures Classified(risk.slots, vaults, ours, sent, 0, false)
    ensures TriedInOrder(vaults, ours, judged, risk.config) && StoppedFor(vaults, judged, threw, risk.config)
  {
    sent, threw, ours, judged := [], false, map[], [];
    for i := 0 to |vaults|
      invariant Balanced(risk.View(), risk.config)
      invariant Classified(risk.slots, vaults, ours, sent, 0, false)
      invariant TriedInOrder(vaults, ours, judged, risk.config) && |judged| == i
      invariant WentOn(vaults, judged, i, risk.config) && !threw
    {
      var goesOn;
      sent, ours, judged, goesOn, threw := Advance(risk, vaults, i, sent, ours, judged);
      if !goesOn {
        return;
      }
    }
  }

  /** Classify every receipt, one at a time: no throw in one leaves the others unsettled. */
  method SettleReceipts(risk: RiskGate, vaults: seq<Vault>, waiting: seq<GateEvent>, ours: Slots, sent: seq<SentEntry>)
    requires Balanced(risk.View(), risk.config) && Classified(risk.slots, vaults, ours, sent, 0, true)
    modifies risk
    ensures Balanced(risk.View(), risk.config) && AllSettled(risk.slots, vaults, ours, true)
  {
    ghost var was := risk.slots;
    Others(risk, waiting, ours.Keys);
    UntouchedStep(was, risk.slots, vaults, ours, sent, 0, true);
    for n := 0 to |sent|
      invariant Balanced(risk.View(), risk.config)
      invariant Classified(risk.slots, vaults, ours, sent, n, true)
    {
      var e := sent[n];
      ghost var before := risk.slots;
      if vaults[e.vault].receipt.LookupFailed? {
        SettleOurs(risk, e.slot, Unresolved(e.hash));
      } else {
        FinishAcquisition(risk, e, vaults[e.vault], ours.Keys - {e.slot});
      }
      ClassifiedStep(before, risk.slots, vaults, ours, sent, n, true);
    }
    ClassifiedEnds(risk.slots, vaults, ours, sent, true);
  }

  /** `poll`'s finally: every broadcast no receipt settled is on the wire, and held under its hash. */
  method SettleBroadcasts(risk: RiskGate, vaults: seq<Vault>, ours: Slots, sent: seq<SentEntry>,
                          ghost receiptsReached: bool)
    requires Balanced(risk.View(), risk.config)
    requires if receiptsReached then AllSettled(risk.slots, vaults, ours, true) && SentSound(vaults, ours, sent)
             else Classified(risk.slots, vaults, ours, sent, 0, false)
    modifies risk
    ensures Balanced(risk.View(), risk.config) && AllSettled(risk.slots, vaults, ours, receiptsReached)
  {
    for n := 0 to |sent|
      invariant Balanced(risk.View(), risk.config)
      invariant if receiptsReached then AllSettled(risk.slots, vaults, ours, true)
                else Classified(risk.slots, vaults, ours, sent, n, false)
    {
      ghost var before := risk.slots;
      SettleOurs(risk, sent[n].slot, Unresolved(sent[n].hash));
      if !receiptsReached {
        ClassifiedStep(before, risk.slots, vaults, ours, sent, n, false);
      }
    }
    if !receiptsReached {
      ClassifiedEnds(risk.slots, vaults, ours, sent, false);
    }
  }

  /**
   * The whole cycle. However it ends, each slot it opened is settled by exactly one outcome, and nothing
   * the gate still counts in flight is the cycle's. `waiting` is what the sibling does during the one wait
   * for all receipts.
   */
  method Poll(risk: RiskGate, vaults: seq<Vault>, waiting: seq<GateEvent>)
    returns (ours: Slots, receiptsReached: bool, ghost judged: seq<Gate>)
    requires Balanced(risk.View(), risk.config)
    modifies risk
    ensures Balanced(risk.View(), risk.config) && AllSettled(risk.slots, vaults, ours, receiptsReached)
    ensures TriedInOrder(vaults, ours, judged, risk.config)
    ensures StoppedFor(vaults, judged, !receiptsReached, risk.config)
    ensures risk.inFlight == Sum(Indices(|risk.slots|) - ours.Keys, OpenFlag(risk.slots))
  {
    var sent, threw;
    sent, threw, ours, judged := SendAll(risk, vaults);
    receiptsReached := !threw;
    if receiptsReached {
      SettleReceipts(risk, vaults, waiting, ours, sent);
    }
    SettleBroadcasts(risk, vaults, ours, sent, receiptsReached);
    NoneInFlight(risk.View(), ours.Keys);
  }

  lemma NoneInFlight(g: Gate, ours: set<int>)
    requires g.inFlight == OpenCount(g.slots) && ours <= Indices(|g.slots|)
    requires forall i :: i in ours ==> g.slots[i].settled.Some?
    ensures g.inFlight == Sum(Indices(|g.slots|) - ours, OpenFlag(g.slots))
  {
    SumDropZeros(Indices(|g.slots|) - ours, Indices(|g.slots|), OpenFlag(g.slots));
  }
}
