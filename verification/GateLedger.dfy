/** What the risk gate keeps over every interleaving of opens, settles, snapshots, halts and resumes. */
module GateLedger {
  import opened Common
  import opened RiskGate

  // ---- Amounts per key ----------------------------------------------------------------------------

  lemma {:induction false} ReserveAt(m: map<Key, int>, spend: seq<Spend>, k: Key)
    ensures At(Reserve(m, spend), k) == At(m, k) + SpendOn(spend, k)
    decreases |spend|
  {
    if spend != [] {
      ReserveAt(m, spend[..|spend| - 1], k);
    }
  }

  lemma {:induction false} UnreserveAt(m: map<Key, int>, spend: seq<Spend>, k: Key)
    ensures At(Unreserve(m, spend), k) == At(m, k) - SpendOn(spend, k)
    decreases |spend|
  {
    if spend != [] {
      UnreserveAt(m, spend[..|spend| - 1], k);
    }
  }

  lemma {:induction false} ChargeAt(m: map<Key, int>, entries: seq<Entry>, k: Key)
    ensures At(Charge(m, entries), k) == At(m, k) + EntriesOn(entries, k)
    decreases |entries|
  {
    if entries != [] {
      ChargeAt(m, entries[..|entries| - 1], k);
    }
  }

  lemma EntriesSnoc(entries: seq<Entry>, e: Entry, k: Key)
    ensures EntriesOn(entries + [e], k) == EntriesOn(entries, k) + if e.k == k then e.amount else 0
  {
    assert (entries + [e])[..|entries|] == entries;
  }

  lemma {:induction false} GateSpendAtMost(spend: seq<Spend>, k: Key)
    ensures EntriesOn(GateSpend(spend), k) <= SpendOn(spend, k)
    decreases |spend|
  {
    if spend != [] {
      var last := spend[|spend| - 1];
      GateSpendAtMost(spend[..|spend| - 1], k);
      if last.callerAccounts {
        assert GateSpend(spend) == GateSpend(spend[..|spend| - 1]);
      } else {
        EntriesSnoc(GateSpend(spend[..|spend| - 1]), Entry(KeyOf(last.account), last.amount), k);
      }
    }
  }

  lemma {:induction false} WithoutOn(entries: seq<Entry>, keys: set<Key>, k: Key)
    ensures EntriesOn(Without(entries, keys), k) == if k in keys then 0 else EntriesOn(entries, k)
    decreases |entries|
  {
    if entries != [] {
      var last := entries[|entries| - 1];
      WithoutOn(entries[..|entries| - 1], keys, k);
      if last.k in keys {
        assert Without(entries, keys) == Without(entries[..|entries| - 1], keys);
      } else {
        EntriesSnoc(Without(entries[..|entries| - 1], keys), last, k);
      }
    }
  }

  // ---- Holds --------------------------------------------------------------------------------------

  /** What a hash owes on a key, whether or not it is held. */
  function Owes(holds: map<Hash, Hold>, h: Hash, k: Key): nat {
    if h in holds then EntriesOn(holds[h].entries, k) else 0
  }

  lemma HoldReplaced(holds: map<Hash, Hold>, h: Hash, hold: Hold, k: Key)
    ensures HeldFor(holds[h := hold], k) == HeldFor(holds, k) - Owes(holds, h, k) + EntriesOn(hold.entries, k)
  {
    var after := holds[h := hold];
    SumTake(after.Keys, HoldOn(after, k), h);
    SumSame(after.Keys - {h}, HoldOn(after, k), HoldOn(holds, k));
    if h in holds {
      SumTake(holds.Keys, HoldOn(holds, k), h);
      assert after.Keys - {h} == holds.Keys - {h};
    } else {
      assert after.Keys - {h} == holds.Keys;
    }
  }

  lemma HoldRemoved(holds: map<Hash, Hold>, h: Hash, k: Key)
    requires h in holds
    ensures HeldFor(holds - {h}, k) == HeldFor(holds, k) - Owes(holds, h, k)
  {
    var after := holds - {h};
    SumTake(holds.Keys, HoldOn(holds, k), h);
    SumSame(after.Keys, HoldOn(after, k), HoldOn(holds, k));
    assert after.Keys == holds.Keys - {h};
  }

  lemma HeldNonNegative(holds: map<Hash, Hold>, k: Key)
    ensures 0 <= HeldFor(holds, k)
  {
    SumNonNegative(holds.Keys, HoldOn(holds, k));
  }

  /** A new hash adds what it owes; a hash already held adds nothing. */
  lemma PlaceHoldAdds(holds: map<Hash, Hold>, h: Hash, entries: seq<Entry>, mined: Option<nat>, k: Key)
    ensures HeldFor(PlaceHold(holds, h, entries, mined), k)
         == HeldFor(holds, k) + if h in holds then 0 else EntriesOn(entries, k)
  {
    if entries != [] {
      if h !in holds {
        HoldReplaced(holds, h, Hold(entries, mined), k);
      } else if holds[h].minedAtBlock.None? && mined.Some? {
        HoldReplaced(holds, h, holds[h].(minedAtBlock := mined), k);
      }
    }
  }

  // ---- Open slots ---------------------------------------------------------------------------------

  function Indices(n: nat): (r: set<int>)
    ensures forall i :: i in r <==> 0 <= i < n
  {
    if n == 0 then {} else Indices(n - 1) + {n - 1}
  }

  function OpenOn(slots: seq<Slot>, k: Key): int -> int {
    (i: int) => if 0 <= i < |slots| && slots[i].settled.None? then SpendOn(slots[i].spend, k) else 0
  }

  ghost function OpenSpend(slots: seq<Slot>, k: Key): int {
    Sum(Indices(|slots|), OpenOn(slots, k))
  }

  function OpenFlag(slots: seq<Slot>): int -> int {
    (i: int) => if 0 <= i < |slots| && slots[i].settled.None? then 1 else 0
  }

  ghost function OpenCount(slots: seq<Slot>): int {
    Sum(Indices(|slots|), OpenFlag(slots))
  }

  lemma SlotOpened(slots: seq<Slot>, spend: seq<Spend>, k: Key)
    ensures OpenSpend(slots + [Slot(spend, None)], k) == OpenSpend(slots, k) + SpendOn(spend, k)
    ensures OpenCount(slots + [Slot(spend, None)]) == OpenCount(slots) + 1
  {
    var n, after := |slots|, slots + [Slot(spend, None)];
    assert Indices(n + 1) - {n} == Indices(n);
    SumTake(Indices(n + 1), OpenOn(after, k), n);
    SumSame(Indices(n), OpenOn(after, k), OpenOn(slots, k));
    SumTake(Indices(n + 1), OpenFlag(after), n);
    SumSame(Indices(n), OpenFlag(after), OpenFlag(slots));
  }

  lemma SlotSettled(slots: seq<Slot>, i: nat, o: Outcome, k: Key)
    requires i < |slots| && slots[i].settled.None?
    ensures OpenSpend(slots[i := slots[i].(settled := Some(o))], k) == OpenSpend(slots, k) - SpendOn(slots[i].spend, k)
  {
    SumChange(Indices(|slots|), OpenOn(slots, k), OpenOn(slots[i := slots[i].(settled := Some(o))], k), i);
  }

  lemma SlotUncounted(slots: seq<Slot>, i: nat, o: Outcome)
    requires i < |slots| && slots[i].settled.None?
    ensures OpenCount(slots[i := slots[i].(settled := Some(o))]) == OpenCount(slots) - 1
  {
    SumChange(Indices(|slots|), OpenFlag(slots), OpenFlag(slots[i := slots[i].(settled := Some(o))]), i);
  }

  // ---- Runs ---------------------------------------------------------------------------------------

  datatype GateEvent =
    | OpenE(action: Action, now: int)
    | SettleE(slot: nat, outcome: Outcome)
    | AvailableE(account: TokenAccount, amount: int, block: Option<nat>)
    | SnapshotE(balances: seq<Balance>, height: nat, settled: seq<Hash>)
    | HaltE(reason: string)
    | ResumeE
    | VerifyE(pins: seq<Pin>, answers: seq<CodeRead>, startSeq: nat)

  ghost function Step(g: Gate, cfg: Config, e: GateEvent): Gate {
    match e
    case OpenE(action, now) => OpenSlot(g, cfg, now, action)
    case SettleE(i, o) => Settle(g, cfg, i, o)
    case AvailableE(account, amount, block) => g.(ledger := SetAvailable(g.ledger, KeyOf(account), amount, block))
    case SnapshotE(balances, block, settled) => g.(ledger := ApplySnapshot(g.ledger, balances, block, settled))
    case HaltE(reason) => g.(safety := HaltWith(g.safety, reason, false))
    case ResumeE => g.(safety := Resume(g.safety))
    case VerifyE(pins, answers, startSeq) =>
      if |pins| == |answers| then g.(safety := FinishVerify(g.safety, pins, answers, startSeq)) else g
  }

  /** The gate after a whole trace, from the newest event back. */
  ghost function After(g: Gate, cfg: Config, trace: seq<GateEvent>): Gate {
    if trace == [] then g else Step(After(g, cfg, trace[..|trace| - 1]), cfg, trace[|trace| - 1])
  }

  // ---- The reservation ledger -----------------------------------------------------------------------

  ghost predicate Reserved(g: Gate) {
    forall k :: At(g.ledger.reserved, k) == OpenSpend(g.slots, k)
  }

  /** Reservations are exactly the declared spend of the open slots, and `inFlight` is their number. */
  ghost predicate Balanced(g: Gate, cfg: Config) {
    && Reserved(g)
    && g.inFlight == OpenCount(g.slots)
    && (cfg.maxInFlight.Some? ==> g.inFlight <= cfg.maxInFlight.value)
  }

  lemma {:induction false} PublishFrame(l: Ledger, balances: seq<Balance>, block: nat)
    ensures var p := Publish(l, balances, block); p.reserved == l.reserved && p.holds == l.holds
    decreases |balances|
  {
    if balances != [] {
      PublishFrame(l, balances[..|balances| - 1], block);
    }
  }

  lemma OpenKeepsReserved(g: Gate, spend: seq<Spend>)
    requires Reserved(g)
    ensures Reserved(Admit(g, spend))
  {
    forall k
      ensures At(Admit(g, spend).ledger.reserved, k) == OpenSpend(Admit(g, spend).slots, k)
    {
      ReserveAt(g.ledger.reserved, spend, k);
      SlotOpened(g.slots, spend, k);
    }
  }

  lemma SettleKeepsReserved(g: Gate, cfg: Config, i: nat, o: Outcome)
    requires Reserved(g) && IsOpen(g, i)
    ensures Reserved(Settle(g, cfg, i, o))
  {
    var s := Settle(g, cfg, i, o);
    forall k
      ensures At(s.ledger.reserved, k) == OpenSpend(s.slots, k)
    {
      UnreserveAt(g.ledger.reserved, g.slots[i].spend, k);
      SlotSettled(g.slots, i, o, k);
    }
  }

  lemma StepKeepsBalance(g: Gate, cfg: Config, e: GateEvent)
    requires Balanced(g, cfg)
    ensures Balanced(Step(g, cfg, e), cfg)
  {
    match e
    case OpenE(action, now) =>
      if Evaluate(g, cfg, now, action).None? {
        OpenKeepsReserved(g, action.spend);
        SlotOpened(g.slots, action.spend, "");
      }
    case SettleE(i, o) =>
      if IsOpen(g, i) {
        SettleKeepsReserved(g, cfg, i, o);
        SlotUncounted(g.slots, i, o);
      }
    case SnapshotE(balances, block, settled) =>
      PublishFrame(g.ledger.(holds := RetireAll(g.ledger.holds, settled, Refreshed(balances))), balances, block);
    case _ =>
  }

  /** Slots only join, and only the slot being settled changes. */
  lemma StepKeepsSlots(g: Gate, cfg: Config, e: GateEvent)
    ensures |g.slots| <= |Step(g, cfg, e).slots|
    ensures forall i :: 0 <= i < |g.slots| && !(e.SettleE? && e.slot == i) ==> Step(g, cfg, e).slots[i] == g.slots[i]
  {
  }

  /**
   * The reservation ledger, over every trace: `reserved` on each key is the sum of what the unsettled
   * slots declared, `inFlight` is their number, and neither ever passes the cap.
   */
  lemma {:induction false} LedgerBalances(cfg: Config, trace: seq<GateEvent>)
    ensures Balanced(After(Opened(cfg), cfg, trace), cfg)
    decreases |trace|
  {
    if trace == [] {
      assert Indices(0) == {};
    } else {
      LedgerBalances(cfg, trace[..|trace| - 1]);
      StepKeepsBalance(After(Opened(cfg), cfg, trace[..|trace| - 1]), cfg, trace[|trace| - 1]);
    }
  }

  // ---- Capacity -----------------------------------------------------------------------------------

  /**
   * Settling moves each declared amount out of the reservation and, if it counts as spent, into a hold
   * or the running count; an amount nobody has to count any more becomes spendable. So capacity never
   * falls, on any key.
   */
  lemma SettlingNeverLowersCapacity(g: Gate, cfg: Config, i: nat, o: Outcome, k: Key)
    ensures Capacity(g.ledger, k) <= Capacity(Settle(g, cfg, i, o).ledger, k)
    ensures IsOpen(g, i) && !CountsAsSpent(o) ==>
              Capacity(Settle(g, cfg, i, o).ledger, k) == Capacity(g.ledger, k) + SpendOn(g.slots[i].spend, k)
    ensures IsOpen(g, i) && CountsAsSpent(o) && (o.txHash.Some? ==> o.txHash.value !in g.ledger.holds) ==>
              Capacity(Settle(g, cfg, i, o).ledger, k)
                == Capacity(g.ledger, k) + SpendOn(g.slots[i].spend, k) - EntriesOn(GateSpend(g.slots[i].spend), k)
  {
    if IsOpen(g, i) {
      BookCapacity(g.ledger, g.slots[i].spend, o, k);
      GateSpendAtMost(g.slots[i].spend, k);
    }
  }

  lemma BookCapacity(l: Ledger, spend: seq<Spend>, o: Outcome, k: Key)
    ensures Capacity(Book(l, spend, o), k) == Capacity(l, k) + SpendOn(spend, k)
              - if CountsAsSpent(o) && !(o.txHash.Some? && o.txHash.value in l.holds)
                then EntriesOn(GateSpend(spend), k) else 0
  {
    UnreserveAt(l.reserved, spend, k);
    if CountsAsSpent(o) {
      if o.txHash.Some? {
        PlaceHoldAdds(l.holds, o.txHash.value, GateSpend(spend), o.minedAtBlock, k);
      } else {
        ChargeAt(l.spentSinceRefresh, GateSpend(spend), k);
      }
    }
  }

  ghost predicate Solvent(l: Ledger) {
    forall k :: 0 <= Capacity(l, k)
  }

  predicate DistinctKeys(spend: seq<Spend>) {
    forall i, j :: 0 <= i < j < |spend| ==> KeyOf(spend[i].account) != KeyOf(spend[j].account)
  }

  lemma AdmitCapacity(g: Gate, spend: seq<Spend>, k: Key)
    ensures Capacity(Admit(g, spend).ledger, k) == Capacity(g.ledger, k) - SpendOn(spend, k)
  {
    ReserveAt(g.ledger.reserved, spend, k);
  }

  /** Admitting an action keeps every balance solvent exactly when its spends fit key by key, summed. */
  lemma AdmissionKeepsSolvencyExactly(g: Gate, spend: seq<Spend>)
    ensures Solvent(Admit(g, spend).ledger) <==> forall k :: SpendOn(spend, k) <= Capacity(g.ledger, k)
  {
    forall k
      ensures Capacity(Admit(g, spend).ledger, k) == Capacity(g.ledger, k) - SpendOn(spend, k)
    {
      AdmitCapacity(g, spend, k);
    }
  }

  lemma {:induction false} AbsentKey(spend: seq<Spend>, k: Key)
    requires forall i :: 0 <= i < |spend| ==> KeyOf(spend[i].account) != k
    ensures SpendOn(spend, k) == 0
    decreases |spend|
  {
    if spend != [] {
      AbsentKey(spend[..|spend| - 1], k);
    }
  }

  /** The guard judges entries one at a time; with distinct keys that is the same as judging sums. */
  lemma {:induction false} DistinctSpendsFit(l: Ledger, spend: seq<Spend>, k: Key)
    requires SpendBlock(l, spend).None? && DistinctKeys(spend) && 0 <= Capacity(l, k)
    ensures SpendOn(spend, k) <= Capacity(l, k)
    decreases |spend|
  {
    if spend != [] {
      var rest, last := spend[..|spend| - 1], spend[|spend| - 1];
      if KeyOf(last.account) == k {
        AbsentKey(rest, k);
      } else {
        DistinctSpendsFit(l, rest, k);
      }
    }
  }

  predicate Fits(available: map<Key, int>, s: Spend, capacity: int) {
    KeyOf(s.account) in available && s.amount <= capacity
  }

  /** The spend guard passes exactly when every entry names a known balance and fits in it by itself. */
  lemma {:induction false} SpendFitsExactly(l: Ledger, spend: seq<Spend>)
    ensures SpendBlock(l, spend).None? <==>
              forall i :: 0 <= i < |spend| ==> Fits(l.available, spend[i], Capacity(l, KeyOf(spend[i].account)))
    decreases |spend|
  {
    if spend != [] {
      var n := |spend| - 1;
      SpendFitsExactly(l, spend[..n]);
      assert forall i :: 0 <= i < n ==> spend[..n][i] == spend[i];
    }
  }

  /** The source data's age can be judged and is within the bound: never missing, never unusable, never far ahead. */
  predicate Fresh(cfg: Config, now: int, stamp: WireStamp) {
    cfg.maxDataStalenessMs.Some? ==>
      stamp.Ms? && now - cfg.maxDataStalenessMs.value <= stamp.value <= now + MAX_SOURCE_CLOCK_SKEW_MS
  }

  /** What an admitted action is known to satisfy, and all it has to. */
  lemma AdmittedExactly(g: Gate, cfg: Config, now: int, action: Action)
    ensures Evaluate(g, cfg, now, action).None? <==>
              && g.safety.running
              && (cfg.maxInFlight.Some? ==> g.inFlight < cfg.maxInFlight.value)
              && (forall i :: 0 <= i < |action.spend| ==>
                    Fits(g.ledger.available, action.spend[i], Capacity(g.ledger, KeyOf(action.spend[i].account))))
              && (cfg.minProfit.Some? && action.expectedProfit.Some? ==>
                    cfg.minProfit.value <= action.expectedProfit.value)
              && Fresh(cfg, now, action.dataTimestamp)
  {
    SpendFitsExactly(g.ledger, action.spend);
  }

  /** Two entries on one key can each pass the guard and still overdraw it together. */
  lemma RepeatedKeysOverdraw()
    ensures var wbtc := TokenAccount("a", "b");
            var cfg := Config(0, None, None, None, false);
            var spend := [Spend(wbtc, 6, false), Spend(wbtc, 6, false)];
            var g := Opened(cfg).(ledger := SetAvailable(EMPTY_LEDGER, KeyOf(wbtc), 10, Some(1)));
            Solvent(g.ledger) && Evaluate(g, cfg, 0, Action(None, Missing, spend)).None?
            && Capacity(OpenSlot(g, cfg, 0, Action(None, Missing, spend)).ledger, KeyOf(wbtc)) == -2
  {
    var wbtc := TokenAccount("a", "b");
    var cfg := Config(0, None, None, None, false);
    var spend := [Spend(wbtc, 6, false), Spend(wbtc, 6, false)];
    var g := Opened(cfg).(ledger := SetAvailable(EMPTY_LEDGER, KeyOf(wbtc), 10, Some(1)));
    assert forall k :: HeldFor(g.ledger.holds, k) == 0;
    assert Capacity(g.ledger, KeyOf(wbtc)) == 10;
    assert spend[..1] == [Spend(wbtc, 6, false)] && spend[..1][..0] == [];
    assert SpendBlock(g.ledger, spend[..1]).None?;
    assert SpendBlock(g.ledger, spend).None?;
    assert |spend| == 2 && spend[..|spend| - 1] == spend[..1];
    assert SpendOn(spend[..1][..0], KeyOf(wbtc)) == 0;
    assert SpendOn(spend[..1], KeyOf(wbtc)) == 6;
    assert SpendOn(spend, KeyOf(wbtc)) == SpendOn(spend[..1], KeyOf(wbtc)) + 6;
    AdmitCapacity(g, spend, KeyOf(wbtc));
  }

  /** No balance is read during the trace, and every action declares each account at most once. */
  predicate BetweenSnapshots(trace: seq<GateEvent>) {
    forall i :: 0 <= i < |trace| ==>
      && !trace[i].AvailableE? && !trace[i].SnapshotE?
      && (trace[i].OpenE? ==> DistinctKeys(trace[i].action.spend))
  }

  lemma StepKeepsSolvency(g: Gate, cfg: Config, e: GateEvent)
    requires Solvent(g.ledger) && BetweenSnapshots([e])
    ensures Solvent(Step(g, cfg, e).ledger)
  {
    assert [e][0] == e;
    match e
    case OpenE(action, now) =>
      if Evaluate(g, cfg, now, action).None? {
        forall k
          ensures SpendOn(action.spend, k) <= Capacity(g.ledger, k)
        {
          DistinctSpendsFit(g.ledger, action.spend, k);
        }
        AdmissionKeepsSolvencyExactly(g, action.spend);
      }
    case SettleE(i, o) =>
      forall k
        ensures 0 <= Capacity(Settle(g, cfg, i, o).ledger, k)
      {
        SettlingNeverLowersCapacity(g, cfg, i, o, k);
      }
    case _ =>
  }

  /** From one snapshot to the next, capacity that started non-negative stays so. */
  lemma {:induction false} SolventBetweenSnapshots(g: Gate, cfg: Config, trace: seq<GateEvent>)
    requires Solvent(g.ledger) && BetweenSnapshots(trace)
    ensures Solvent(After(g, cfg, trace).ledger)
    decreases |trace|
  {
    if trace != [] {
      var n := |trace| - 1;
      SolventBetweenSnapshots(g, cfg, trace[..n]);
      StepKeepsSolvency(After(g, cfg, trace[..n]), cfg, trace[n]);
    }
  }

  // ---- The breaker ----------------------------------------------------------------------------------

  /** The gate just before event `i` of a trace. */
  ghost function Before(cfg: Config, trace: seq<GateEvent>, i: nat): Gate
    requires i <= |trace|
  {
    After(Opened(cfg), cfg, trace[..i])
  }

  /** The event is the first report for its slot, and says something about how the chain treats us. */
  predicate Judges(g: Gate, e: GateEvent) {
    e.SettleE? && IsOpen(g, e.slot) && !BreakerExempt(e.outcome)
  }

  /** A success settles, or a resume is accepted. */
  predicate Clears(g: Gate, e: GateEvent) {
    (Judges(g, e) && e.outcome.ok) || (e.ResumeE? && !g.safety.codeHashHalt)
  }

  ghost predicate FailsAt(cfg: Config, trace: seq<GateEvent>, i: nat)
    requires i < |trace|
  {
    Judges(Before(cfg, trace, i), trace[i]) && !trace[i].outcome.ok
  }

  ghost predicate ClearsAt(cfg: Config, trace: seq<GateEvent>, i: nat)
    requires i < |trace|
  {
    Clears(Before(cfg, trace, i), trace[i])
  }

  /** `lo` is the start of the trace or just past an event that clears, and nothing clears after it. */
  ghost predicate LastCleared(cfg: Config, trace: seq<GateEvent>, lo: nat) {
    && lo <= |trace|
    && (lo == 0 || ClearsAt(cfg, trace, lo - 1))
    && forall i :: lo <= i < |trace| ==> !ClearsAt(cfg, trace, i)
  }

  ghost function FailuresSince(cfg: Config, trace: seq<GateEvent>, lo: nat): set<int> {
    set i | lo <= i < |trace| && FailsAt(cfg, trace, i)
  }

  ghost predicate BreakerHolds(s: Safety, cfg: Config) {
    cfg.maxConsecutiveFailures > 0 && s.consecutiveFailures >= cfg.maxConsecutiveFailures ==> !s.running
  }

  lemma PrefixJudges(cfg: Config, trace: seq<GateEvent>, n: nat, i: nat)
    requires i < n <= |trace|
    ensures FailsAt(cfg, trace[..n], i) == FailsAt(cfg, trace, i)
    ensures ClearsAt(cfg, trace[..n], i) == ClearsAt(cfg, trace, i)
  {
    assert trace[..n][..i] == trace[..i];
  }

  function NextCount(g: Gate, e: GateEvent): nat {
    if Clears(g, e) then 0
    else if Judges(g, e) && !e.outcome.ok then g.safety.consecutiveFailures + 1
    else g.safety.consecutiveFailures
  }

  lemma EventCounts(g: Gate, cfg: Config, e: GateEvent)
    requires BreakerHolds(g.safety, cfg)
    ensures Step(g, cfg, e).safety.consecutiveFailures == NextCount(g, e) && BreakerHolds(Step(g, cfg, e).safety, cfg)
  {
  }

  /** At the threshold the gate is halted, after every trace; and the last event counts as it should. */
  lemma {:induction false} ThresholdHalts(cfg: Config, trace: seq<GateEvent>)
    ensures BreakerHolds(After(Opened(cfg), cfg, trace).safety, cfg)
    ensures trace != [] ==>
              After(Opened(cfg), cfg, trace).safety.consecutiveFailures
                == NextCount(Before(cfg, trace, |trace| - 1), trace[|trace| - 1])
    decreases |trace|
  {
    if trace != [] {
      var n := |trace| - 1;
      ThresholdHalts(cfg, trace[..n]);
      EventCounts(After(Opened(cfg), cfg, trace[..n]), cfg, trace[n]);
    }
  }

  lemma LastClearedPrefix(cfg: Config, trace: seq<GateEvent>, lo: nat)
    requires LastCleared(cfg, trace, lo) && lo < |trace|
    ensures LastCleared(cfg, trace[..|trace| - 1], lo)
  {
    var n := |trace| - 1;
    if lo > 0 {
      PrefixJudges(cfg, trace, n, lo - 1);
    }
    forall i | lo <= i < n
      ensures !ClearsAt(cfg, trace[..n], i)
    {
      PrefixJudges(cfg, trace, n, i);
    }
  }

  lemma OneMoreFailure(cfg: Config, trace: seq<GateEvent>, lo: nat)
    requires trace != [] && lo < |trace|
    ensures var n := |trace| - 1;
            FailuresSince(cfg, trace, lo)
              == FailuresSince(cfg, trace[..n], lo) + if FailsAt(cfg, trace, n) then {n} else {}
    ensures |trace| - 1 !in FailuresSince(cfg, trace[..|trace| - 1], lo)
  {
    var n := |trace| - 1;
    forall i | 0 <= i < n
      ensures FailsAt(cfg, trace[..n], i) == FailsAt(cfg, trace, i)
    {
      PrefixJudges(cfg, trace, n, i);
    }
  }

  lemma CountsOneMore(cfg: Config, trace: seq<GateEvent>, lo: nat)
    requires LastCleared(cfg, trace, lo) && lo < |trace|
    ensures After(Opened(cfg), cfg, trace).safety.consecutiveFailures
         == Before(cfg, trace, |trace| - 1).safety.consecutiveFailures
            + if FailsAt(cfg, trace, |trace| - 1) then 1 else 0
  {
    ThresholdHalts(cfg, trace);
    assert !ClearsAt(cfg, trace, |trace| - 1);
  }

  /**
   * The breaker's counter is the number of genuine failures settled since the last success or accepted
   * resume: abandoned, contended and unresolved outcomes, and repeated reports for a slot, do not enter it.
   */
  lemma {:induction false} CounterIsFailuresSinceCleared(cfg: Config, trace: seq<GateEvent>, lo: nat)
    requires LastCleared(cfg, trace, lo)
    ensures After(Opened(cfg), cfg, trace).safety.consecutiveFailures == |FailuresSince(cfg, trace, lo)|
    decreases |trace|
  {
    if lo == |trace| {
      assert FailuresSince(cfg, trace, lo) == {};
      ThresholdHalts(cfg, trace);
    } else {
      LastClearedPrefix(cfg, trace, lo);
      CounterIsFailuresSinceCleared(cfg, trace[..|trace| - 1], lo);
      OneMoreFailure(cfg, trace, lo);
      CountsOneMore(cfg, trace, lo);
    }
  }

  lemma SlotStep(g: Gate, cfg: Config, e: GateEvent, s: nat)
    ensures |g.slots| <= |Step(g, cfg, e).slots|
    ensures IsOpen(Step(g, cfg, e), s) <==>
              if s < |g.slots| then IsOpen(g, s) && !(e.SettleE? && e.slot == s) else s < |Step(g, cfg, e).slots|
  {
  }

  /** Event `i` reports on slot `s`, which exists by then. */
  ghost predicate ReportsAt(cfg: Config, trace: seq<GateEvent>, s: nat, i: nat)
    requires i < |trace|
  {
    trace[i].SettleE? && trace[i].slot == s && s < |Before(cfg, trace, i).slots|
  }

  ghost predicate Reported(cfg: Config, trace: seq<GateEvent>, s: nat) {
    exists i :: 0 <= i < |trace| && ReportsAt(cfg, trace, s, i)
  }

  lemma ReportedLast(cfg: Config, trace: seq<GateEvent>, s: nat)
    requires trace != []
    ensures Reported(cfg, trace, s) <==> Reported(cfg, trace[..|trace| - 1], s) || ReportsAt(cfg, trace, s, |trace| - 1)
  {
    var n := |trace| - 1;
    forall i | 0 <= i < n
      ensures ReportsAt(cfg, trace[..n], s, i) == ReportsAt(cfg, trace, s, i)
    {
      assert trace[..n][..i] == trace[..i];
    }
    if Reported(cfg, trace[..n], s) {
      var i :| 0 <= i < n && ReportsAt(cfg, trace[..n], s, i);
      assert ReportsAt(cfg, trace, s, i);
    }
  }

  /** A slot is open exactly until the first report for it: only that one can count. */
  lemma {:induction false} OpenUntilFirstReport(cfg: Config, trace: seq<GateEvent>, s: nat)
    ensures IsOpen(After(Opened(cfg), cfg, trace), s) <==>
              s < |After(Opened(cfg), cfg, trace).slots| && !Reported(cfg, trace, s)
    ensures Reported(cfg, trace, s) ==> s < |After(Opened(cfg), cfg, trace).slots|
    decreases |trace|
  {
    if trace != [] {
      var n := |trace| - 1;
      OpenUntilFirstReport(cfg, trace[..n], s);
      SlotStep(After(Opened(cfg), cfg, trace[..n]), cfg, trace[n], s);
      ReportedLast(cfg, trace, s);
    }
  }

  /** Every trace has such a point, so the counter is always such a number. */
  lemma {:induction false} SomePointCleared(cfg: Config, trace: seq<GateEvent>) returns (lo: nat)
    ensures LastCleared(cfg, trace, lo)
    decreases |trace|
  {
    if trace == [] {
      lo := 0;
    } else {
      var n := |trace| - 1;
      if ClearsAt(cfg, trace, n) {
        lo := n + 1;
      } else {
        lo := SomePointCleared(cfg, trace[..n]);
        if lo > 0 {
          PrefixJudges(cfg, trace, n, lo - 1);
        }
        forall i | lo <= i < n
          ensures !ClearsAt(cfg, trace, i)
        {
          PrefixJudges(cfg, trace, n, i);
        }
      }
    }
  }

  /** The backstop releases every open slot it is given, and moves neither the breaker nor the state. */
  lemma {:induction false} BackstopIsSilent(g: Gate, cfg: Config, list: seq<nat>)
    ensures var s := SettleAll(g, cfg, list);
            && s.safety == g.safety
            && |s.slots| == |g.slots|
            && (forall i :: 0 <= i < |g.slots| ==>
                  s.slots[i] == if i in list && g.slots[i].settled.None?
                                then g.slots[i].(settled := Some(ABANDONED)) else g.slots[i])
    decreases |list|
  {
    if list != [] {
      BackstopIsSilent(g, cfg, list[..|list| - 1]);
    }
  }
}
