/**
 * The gate next to the chain it reads: over every run, the capacity the gate reports on an account never
 * exceeds the balance at the height of its accepted read, less every outflow that read does not show.
 */
module ExposureSafety {
  import opened Common
  import opened RiskGate
  import opened GateLedger

  /** `Gone`: dropped or replaced, so it can never mine. `Mined` and `Gone` are final. */
  datatype Fate = Pending | Gone | Mined(block: nat, ok: bool)

  /** A broadcast transaction and the slot that sent it. */
  datatype Tx = Tx(slot: nat, fate: Fate)

  datatype World = World(gate: Gate, txs: map<Hash, Tx>, head: nat)

  /** The balance of an account at a height. */
  type Balances = (Key, nat) -> int

  datatype Event =
    | Judge(e: GateEvent)
    | Broadcast(slot: nat, hash: Hash)
    | Settled(slot: nat, outcome: Outcome)
    | Mine(hash: Hash, ok: bool)
    | Drop(hash: Hash)
    | NextBlock
    | Snapshot(balances: seq<Balance>, block: nat, retired: seq<Hash>)

  /** A read at `block` already shows whatever this transaction did, or it can never do anything. */
  predicate Accounted(fate: Fate, block: nat) {
    fate.Gone? || (fate.Mined? && fate.block <= block)
  }

  predicate Justified(w: World, retired: seq<Hash>, block: nat) {
    forall h :: h in retired ==> h in w.txs && Accounted(w.txs[h].fate, block)
  }

  /**
   * What an engine reports about a slot agrees with the chain: an outflow that left or may still leave is
   * counted under its own hash, and a mined height came from that transaction's receipt.
   */
  predicate Truthful(w: World, i: nat, o: Outcome) {
    && (o.txHash.Some? ==> o.txHash.value in w.txs && w.txs[o.txHash.value].slot == i)
    && (forall h :: h in w.txs && w.txs[h].slot == i ==>
          && (w.txs[h].fate.Pending? || (w.txs[h].fate.Mined? && w.txs[h].fate.ok) ==>
                CountsAsSpent(o) && o.txHash == Some(h))
          && (o.minedAtBlock.Some? ==> w.txs[h].fate.Mined? && w.txs[h].fate.block == o.minedAtBlock.value))
  }

  /** Whatever is published for the account spoken about is its balance at the height it is published for. */
  predicate TrueReads(bal: Balances, own: Key, balances: seq<Balance>, block: nat) {
    forall i :: 0 <= i < |balances| && KeyOf(balances[i].account) == own ==> balances[i].amount == bal(own, block)
  }

  /** The same for a single balance; any other account may be told anything, at any height or none. */
  predicate TruePublication(w: World, bal: Balances, own: Key, account: TokenAccount, amount: int, block: Option<nat>) {
    KeyOf(account) == own ==> block.Some? && block.value <= w.head && amount == bal(own, block.value)
  }

  /** What may happen next, whatever a snapshot retires. */
  predicate Admissible(w: World, bal: Balances, own: Key, e: Event) {
    match e
    case Judge(g) =>
      && !g.SettleE? && !g.SnapshotE?
      && (g.AvailableE? ==> TruePublication(w, bal, own, g.account, g.amount, g.block))
    case Broadcast(i, h) => IsOpen(w.gate, i) && h !in w.txs && forall x :: x in w.txs ==> w.txs[x].slot != i
    case Settled(i, o) => Truthful(w, i, o)
    case Mine(h, _) => h in w.txs && w.txs[h].fate.Pending?
    case Drop(h) => h in w.txs && w.txs[h].fate.Pending?
    case NextBlock => true
    case Snapshot(balances, block, _) => block <= w.head && TrueReads(bal, own, balances, block)
  }

  /** And a snapshot retires only what its own read accounts for. */
  predicate Enabled(w: World, bal: Balances, own: Key, e: Event) {
    Admissible(w, bal, own, e) && (e.Snapshot? ==> Justified(w, e.retired, e.block))
  }

  function Fated(w: World, h: Hash, fate: Fate): World
    requires h in w.txs
  {
    w.(txs := w.txs[h := w.txs[h].(fate := fate)])
  }

  ghost function Apply(w: World, cfg: Config, bal: Balances, own: Key, e: Event): World
    requires Admissible(w, bal, own, e)
  {
    match e
    case Judge(g) => w.(gate := Step(w.gate, cfg, g))
    case Broadcast(i, h) => w.(txs := w.txs[h := Tx(i, Pending)])
    case Settled(i, o) => w.(gate := Settle(w.gate, cfg, i, o))
    case Mine(h, ok) => Fated(w, h, Mined(w.head + 1, ok))
    case Drop(h) => Fated(w, h, Gone)
    case NextBlock => w.(head := w.head + 1)
    case Snapshot(balances, block, retired) =>
      w.(gate := w.gate.(ledger := ApplySnapshot(w.gate.ledger, balances, block, retired)))
  }

  function Start(cfg: Config): World {
    World(Opened(cfg), map[], 0)
  }

  ghost predicate Run(w: World, cfg: Config, bal: Balances, own: Key, run: seq<Event>)
    decreases |run|
  {
    run == [] || (Enabled(w, bal, own, run[0]) && Run(Apply(w, cfg, bal, own, run[0]), cfg, bal, own, run[1..]))
  }

  ghost function Final(w: World, cfg: Config, bal: Balances, own: Key, run: seq<Event>): World
    requires Run(w, cfg, bal, own, run)
    decreases |run|
  {
    if run == [] then w else Final(Apply(w, cfg, bal, own, run[0]), cfg, bal, own, run[1..])
  }

  // ---- What is owed -------------------------------------------------------------------------------

  /** The transaction still takes, or took, money that the accepted read of `k` does not show. */
  predicate Unshown(fate: Fate, blocks: map<Key, nat>, k: Key) {
    fate.Pending? || (fate.Mined? && fate.ok && (k in blocks ==> blocks[k] < fate.block))
  }

  /** What the transaction takes from `k` that the gate itself has to count. */
  function Takes(w: World, h: Hash, k: Key): nat {
    if h in w.txs && w.txs[h].slot < |w.gate.slots| then EntriesOn(GateSpend(w.gate.slots[w.txs[h].slot].spend), k)
    else 0
  }

  function OwedTx(w: World, h: Hash, k: Key): nat {
    if h in w.txs && Unshown(w.txs[h].fate, w.gate.ledger.snapshotBlock, k) then Takes(w, h, k) else 0
  }

  ghost function Owed(w: World, k: Key): int {
    Sum(w.txs.Keys, h => OwedTx(w, h, k))
  }

  // ---- Invariant ----------------------------------------------------------------------------------

  predicate IsSettled(g: Gate, i: nat) {
    i < |g.slots| && g.slots[i].settled.Some?
  }

  ghost predicate SnapshotsTrue(l: Ledger, bal: Balances, own: Key) {
    && (own in l.snapshotBlock ==> own in l.available && l.available[own] == bal(own, l.snapshotBlock[own]))
    && (forall k :: 0 <= At(l.spentSinceRefresh, k))
  }

  predicate TxsSound(w: World) {
    && (forall h :: h in w.txs ==> w.txs[h].slot < |w.gate.slots|)
    && (forall h, x :: h in w.txs && x in w.txs && w.txs[h].slot == w.txs[x].slot ==> h == x)
  }

  predicate HoldsSound(w: World) {
    forall h :: h in w.gate.ledger.holds ==> h in w.txs && IsSettled(w.gate, w.txs[h].slot) && HeightTrue(w, h)
  }

  /** A hold that names a block names the one its transaction was mined in. */
  predicate HeightTrue(w: World, h: Hash)
    requires h in w.gate.ledger.holds && h in w.txs
  {
    var mined := w.gate.ledger.holds[h].minedAtBlock;
    mined.Some? ==> w.txs[h].fate.Mined? && w.txs[h].fate.block == mined.value
  }

  /** A settled transaction whose outflow is not shown yet is held in full. */
  ghost predicate HeldInFull(w: World) {
    forall h, k :: h in w.txs && IsSettled(w.gate, w.txs[h].slot)
                   && Unshown(w.txs[h].fate, w.gate.ledger.snapshotBlock, k)
                   ==> Takes(w, h, k) <= Owes(w.gate.ledger.holds, h, k)
  }

  ghost predicate Inv(w: World, bal: Balances, own: Key) {
    Reserved(w.gate) && SnapshotsTrue(w.gate.ledger, bal, own) && TxsSound(w) && HoldsSound(w) && HeldInFull(w)
  }

  // ---- Each step ------------------------------------------------------------------------------------

  lemma OpenKeeps(w: World, bal: Balances, own: Key, spend: seq<Spend>)
    requires Inv(w, bal, own)
    ensures Inv(w.(gate := Admit(w.gate, spend)), bal, own)
  {
    OpenKeepsReserved(w.gate, spend);
    var w' := w.(gate := Admit(w.gate, spend));
    forall h, k | h in w'.txs && IsSettled(w'.gate, w'.txs[h].slot)
                  && Unshown(w'.txs[h].fate, w'.gate.ledger.snapshotBlock, k)
      ensures Takes(w', h, k) <= Owes(w'.gate.ledger.holds, h, k)
    {
      assert Takes(w', h, k) == Takes(w, h, k);
    }
  }

  lemma PlaceHoldOwes(holds: map<Hash, Hold>, h: Hash, entries: seq<Entry>, mined: Option<nat>, x: Hash, k: Key)
    requires h !in holds
    ensures Owes(PlaceHold(holds, h, entries, mined), x, k) ==
              if x == h then EntriesOn(entries, k) else Owes(holds, x, k)
    ensures PlaceHold(holds, h, entries, mined).Keys <= holds.Keys + {h}
  {
  }

  lemma SettleKeepsHolds(w: World, cfg: Config, bal: Balances, own: Key, i: nat, o: Outcome)
    requires Inv(w, bal, own) && IsOpen(w.gate, i) && Truthful(w, i, o)
    ensures var w' := w.(gate := Settle(w.gate, cfg, i, o)); HoldsSound(w') && HeldInFull(w')
  {
    var w' := w.(gate := Settle(w.gate, cfg, i, o));
    var spend := w.gate.slots[i].spend;
    var holds, after := w.gate.ledger.holds, w'.gate.ledger.holds;
    if CountsAsSpent(o) && o.txHash.Some? {
      var own := o.txHash.value;
      assert own !in holds;
      forall h, k | h in w'.txs && IsSettled(w'.gate, w'.txs[h].slot)
                    && Unshown(w'.txs[h].fate, w'.gate.ledger.snapshotBlock, k)
        ensures Takes(w', h, k) <= Owes(after, h, k)
      {
        PlaceHoldOwes(holds, own, GateSpend(spend), o.minedAtBlock, h, k);
        assert Takes(w', h, k) == Takes(w, h, k);
      }
      PlaceHoldOwes(holds, own, GateSpend(spend), o.minedAtBlock, own, "");
    } else {
      assert after == holds;
      forall h, k | h in w'.txs && IsSettled(w'.gate, w'.txs[h].slot)
                    && Unshown(w'.txs[h].fate, w'.gate.ledger.snapshotBlock, k)
        ensures Takes(w', h, k) <= Owes(after, h, k)
      {
        assert Takes(w', h, k) == Takes(w, h, k);
      }
    }
  }

  lemma SettleKeeps(w: World, cfg: Config, bal: Balances, own: Key, i: nat, o: Outcome)
    requires Inv(w, bal, own) && IsOpen(w.gate, i) && Truthful(w, i, o)
    ensures Inv(w.(gate := Settle(w.gate, cfg, i, o)), bal, own)
  {
    SettleKeepsReserved(w.gate, cfg, i, o);
    SettleKeepsHolds(w, cfg, bal, own, i, o);
    forall k
      ensures 0 <= At(Settle(w.gate, cfg, i, o).ledger.spentSinceRefresh, k)
    {
      ChargeAt(w.gate.ledger.spentSinceRefresh, GateSpend(w.gate.slots[i].spend), k);
    }
  }

  lemma RefreshKeeps(l: Ledger, bal: Balances, own: Key, k: Key, amount: int, block: Option<nat>)
    requires SnapshotsTrue(l, bal, own)
    requires k == own ==> block.Some? && amount == bal(own, block.value)
    ensures var p := SetAvailable(l, k, amount, block);
            && SnapshotsTrue(p, bal, own) && Newer(l.snapshotBlock, p.snapshotBlock)
            && (block.Some? ==> k in p.snapshotBlock && block.value <= p.snapshotBlock[k])
  {
    var p := SetAvailable(l, k, amount, block);
    forall x
      ensures 0 <= At(p.spentSinceRefresh, x)
    {
      assert 0 <= At(l.spentSinceRefresh, x);
    }
  }

  predicate Newer(before: map<Key, nat>, after: map<Key, nat>) {
    forall k :: k in before ==> k in after && before[k] <= after[k]
  }

  predicate AtLeast(blocks: map<Key, nat>, keys: set<Key>, block: nat) {
    forall k :: k in keys ==> k in blocks && block <= blocks[k]
  }

  lemma RefreshedSnoc(balances: seq<Balance>)
    requires balances != []
    ensures Refreshed(balances) == Refreshed(balances[..|balances| - 1]) + {KeyOf(balances[|balances| - 1].account)}
  {
    var n := |balances| - 1;
    forall k | k in Refreshed(balances) && k != KeyOf(balances[n].account)
      ensures k in Refreshed(balances[..n])
    {
      var i :| 0 <= i < |balances| && k == KeyOf(balances[i].account);
      assert balances[..n][i] == balances[i];
    }
    forall k | k in Refreshed(balances[..n])
      ensures k in Refreshed(balances)
    {
      var i :| 0 <= i < n && k == KeyOf(balances[..n][i].account);
      assert balances[..n][i] == balances[i];
    }
    assert KeyOf(balances[n].account) in Refreshed(balances);
  }

  lemma {:induction false} PublishAt(l: Ledger, bal: Balances, own: Key, balances: seq<Balance>, block: nat)
    requires SnapshotsTrue(l, bal, own) && TrueReads(bal, own, balances, block)
    ensures var p := Publish(l, balances, block);
            SnapshotsTrue(p, bal, own) && Newer(l.snapshotBlock, p.snapshotBlock)
            && AtLeast(p.snapshotBlock, Refreshed(balances), block)
    decreases |balances|
  {
    if balances != [] {
      var n := |balances| - 1;
      PublishAt(l, bal, own, balances[..n], block);
      RefreshedSnoc(balances);
      RefreshKeeps(Publish(l, balances[..n], block), bal, own, KeyOf(balances[n].account), balances[n].amount,
                   Some(block));
    }
  }

  predicate Thinned(after: map<Hash, Hold>, before: map<Hash, Hold>) {
    forall h :: h in after ==> h in before && after[h].minedAtBlock == before[h].minedAtBlock
  }

  lemma RetireOwes(holds: map<Hash, Hold>, r: Hash, keys: set<Key>, h: Hash, k: Key)
    ensures Owes(Retire(holds, r, keys), h, k) == if h == r && k in keys then 0 else Owes(holds, h, k)
    ensures Thinned(Retire(holds, r, keys), holds)
  {
    if r in holds {
      WithoutOn(holds[r].entries, keys, k);
    }
  }

  lemma {:induction false} RetireAllOwes(holds: map<Hash, Hold>, retired: seq<Hash>, keys: set<Key>, h: Hash, k: Key)
    ensures Owes(RetireAll(holds, retired, keys), h, k) == if h in retired && k in keys then 0 else Owes(holds, h, k)
    ensures Thinned(RetireAll(holds, retired, keys), holds)
    decreases |retired|
  {
    if retired != [] {
      var n := |retired| - 1;
      RetireAllOwes(holds, retired[..n], keys, h, k);
      RetireOwes(RetireAll(holds, retired[..n], keys), retired[n], keys, h, k);
      assert retired == retired[..n] + [retired[n]];
    }
  }

  lemma SnapshotKeeps(w: World, bal: Balances, own: Key, balances: seq<Balance>, block: nat, retired: seq<Hash>)
    requires Inv(w, bal, own) && TrueReads(bal, own, balances, block) && Justified(w, retired, block)
    ensures Inv(w.(gate := w.gate.(ledger := ApplySnapshot(w.gate.ledger, balances, block, retired))), bal, own)
  {
    var l := w.gate.ledger;
    var keys := Refreshed(balances);
    var mid := l.(holds := RetireAll(l.holds, retired, keys));
    PublishAt(mid, bal, own, balances, block);
    PublishFrame(mid, balances, block);
    var w' := w.(gate := w.gate.(ledger := Publish(mid, balances, block)));
    RetireAllOwes(l.holds, retired, keys, "", "");
    forall h, k | h in w'.txs && IsSettled(w'.gate, w'.txs[h].slot)
                  && Unshown(w'.txs[h].fate, w'.gate.ledger.snapshotBlock, k)
      ensures Takes(w', h, k) <= Owes(w'.gate.ledger.holds, h, k)
    {
      RetireAllOwes(l.holds, retired, keys, h, k);
      assert Takes(w', h, k) == Takes(w, h, k);
    }
  }

  lemma FateKeepsTxs(w: World, h: Hash, fate: Fate)
    requires TxsSound(w) && HoldsSound(w) && h in w.txs && w.txs[h].fate.Pending?
    ensures TxsSound(Fated(w, h, fate)) && HoldsSound(Fated(w, h, fate))
  {
  }

  lemma FateKeepsHolds(w: World, h: Hash, fate: Fate)
    requires HeldInFull(w) && h in w.txs && w.txs[h].fate.Pending?
    ensures HeldInFull(Fated(w, h, fate))
  {
    var w' := Fated(w, h, fate);
    forall x, k | x in w'.txs && IsSettled(w'.gate, w'.txs[x].slot)
                  && Unshown(w'.txs[x].fate, w'.gate.ledger.snapshotBlock, k)
      ensures Takes(w', x, k) <= Owes(w'.gate.ledger.holds, x, k)
    {
      assert Takes(w', x, k) == Takes(w, x, k);
    }
  }

  lemma FateKeeps(w: World, bal: Balances, own: Key, h: Hash, fate: Fate)
    requires Inv(w, bal, own) && h in w.txs && w.txs[h].fate.Pending?
    ensures Inv(Fated(w, h, fate), bal, own)
  {
    FateKeepsTxs(w, h, fate);
    FateKeepsHolds(w, h, fate);
  }

  lemma BroadcastKeeps(w: World, bal: Balances, own: Key, i: nat, h: Hash)
    requires Inv(w, bal, own) && Enabled(w, bal, own, Broadcast(i, h))
    ensures Inv(w.(txs := w.txs[h := Tx(i, Pending)]), bal, own)
  {
    var w' := w.(txs := w.txs[h := Tx(i, Pending)]);
    forall x, k | x in w'.txs && IsSettled(w'.gate, w'.txs[x].slot)
                  && Unshown(w'.txs[x].fate, w'.gate.ledger.snapshotBlock, k)
      ensures Takes(w', x, k) <= Owes(w'.gate.ledger.holds, x, k)
    {
      assert Takes(w', x, k) == Takes(w, x, k);
    }
  }

  lemma SafetyKeeps(w: World, bal: Balances, own: Key, s: Safety)
    requires Inv(w, bal, own)
    ensures Inv(w.(gate := w.gate.(safety := s)), bal, own) && Inv(w.(head := w.head + 1), bal, own)
  {
  }

  /** A publication for one account, true or not, leaves every hold standing and only ever shows more. */
  lemma AvailableKeeps(w: World, bal: Balances, own: Key, account: TokenAccount, amount: int, block: Option<nat>)
    requires Inv(w, bal, own) && TruePublication(w, bal, own, account, amount, block)
    ensures Inv(w.(gate := w.gate.(ledger := SetAvailable(w.gate.ledger, KeyOf(account), amount, block))), bal, own)
  {
    var w' := w.(gate := w.gate.(ledger := SetAvailable(w.gate.ledger, KeyOf(account), amount, block)));
    RefreshKeeps(w.gate.ledger, bal, own, KeyOf(account), amount, block);
    forall h, k | h in w'.txs && IsSettled(w'.gate, w'.txs[h].slot)
                  && Unshown(w'.txs[h].fate, w'.gate.ledger.snapshotBlock, k)
      ensures Takes(w', h, k) <= Owes(w'.gate.ledger.holds, h, k)
    {
      assert Takes(w', h, k) == Takes(w, h, k);
    }
  }

  lemma JudgeKeeps(w: World, cfg: Config, bal: Balances, own: Key, g: GateEvent)
    requires Inv(w, bal, own) && Enabled(w, bal, own, Judge(g))
    ensures Inv(w.(gate := Step(w.gate, cfg, g)), bal, own)
  {
    if g.OpenE? && Evaluate(w.gate, cfg, g.now, g.action).None? {
      OpenKeeps(w, bal, own, g.action.spend);
    } else if g.AvailableE? {
      AvailableKeeps(w, bal, own, g.account, g.amount, g.block);
    } else {
      SafetyKeeps(w, bal, own, Step(w.gate, cfg, g).safety);
    }
  }

  lemma StepKeeps(w: World, cfg: Config, bal: Balances, own: Key, e: Event)
    requires Inv(w, bal, own) && Enabled(w, bal, own, e)
    ensures Inv(Apply(w, cfg, bal, own, e), bal, own)
  {
    match e
    case Judge(g) => JudgeKeeps(w, cfg, bal, own, g);
    case Broadcast(i, h) => BroadcastKeeps(w, bal, own, i, h);
    case Settled(i, o) =>
      if IsOpen(w.gate, i) {
        SettleKeeps(w, cfg, bal, own, i, o);
      }
    case Mine(h, ok) => FateKeeps(w, bal, own, h, Mined(w.head + 1, ok));
    case Drop(h) => FateKeeps(w, bal, own, h, Gone);
    case NextBlock => SafetyKeeps(w, bal, own, w.gate.safety);
    case Snapshot(balances, block, retired) => SnapshotKeeps(w, bal, own, balances, block, retired);
  }

  lemma {:induction false} RunKeeps(w: World, cfg: Config, bal: Balances, own: Key, run: seq<Event>)
    requires Inv(w, bal, own) && Run(w, cfg, bal, own, run)
    ensures Inv(Final(w, cfg, bal, own, run), bal, own)
    decreases |run|
  {
    if run != [] {
      StepKeeps(w, cfg, bal, own, run[0]);
      RunKeeps(Apply(w, cfg, bal, own, run[0]), cfg, bal, own, run[1..]);
    }
  }

  // ---- The gate never over-reports -------------------------------------------------------------------

  /** The part of `OwedTx` that settled slots account for, and the part that open slots do. */
  function OwedPart(w: World, h: Hash, k: Key, settled: bool): nat {
    if h in w.txs && IsSettled(w.gate, w.txs[h].slot) == settled then OwedTx(w, h, k) else 0
  }

  function OwedSettled(w: World, k: Key, settled: bool): Hash -> int {
    (h: Hash) => OwedPart(w, h, k, settled)
  }

  lemma HoldsCover(w: World, k: Key)
    requires HeldInFull(w) && HoldsSound(w)
    ensures Sum(w.txs.Keys, OwedSettled(w, k, true)) <= HeldFor(w.gate.ledger.holds, k)
  {
    var holds := w.gate.ledger.holds;
    forall h | h in w.txs && 0 < OwedPart(w, h, k, true)
      ensures h in holds && OwedPart(w, h, k, true) <= HoldOn(holds, k)(h)
    {
      assert Takes(w, h, k) <= Owes(holds, h, k);
    }
    SumPaired(w.txs.Keys, OwedSettled(w, k, true), holds.Keys, HoldOn(holds, k), (h: Hash) => h);
  }

  lemma ReservationsCover(w: World, k: Key)
    requires TxsSound(w)
    ensures Sum(w.txs.Keys, OwedSettled(w, k, false)) <= OpenSpend(w.gate.slots, k)
  {
    var slots := w.gate.slots;
    var slotOf: Hash -> int := h => if h in w.txs then w.txs[h].slot as int else -1;
    forall h | h in w.txs && 0 < OwedPart(w, h, k, false)
      ensures slotOf(h) in Indices(|slots|) && OwedPart(w, h, k, false) <= OpenOn(slots, k)(slotOf(h))
    {
      GateSpendAtMost(slots[w.txs[h].slot].spend, k);
    }
    SumPaired(w.txs.Keys, OwedSettled(w, k, false), Indices(|slots|), OpenOn(slots, k), slotOf);
  }

  lemma CapacityCovers(w: World, bal: Balances, own: Key)
    requires Inv(w, bal, own) && own in w.gate.ledger.snapshotBlock
    ensures Capacity(w.gate.ledger, own) <= bal(own, w.gate.ledger.snapshotBlock[own]) - Owed(w, own)
  {
    SumAdd(w.txs.Keys, OwedSettled(w, own, true), OwedSettled(w, own, false), h => OwedTx(w, h, own));
    HoldsCover(w, own);
    ReservationsCover(w, own);
  }

  /**
   * Over every run in which an account is only ever told its own balance at a height: its capacity is at
   * most the accepted balance less everything that balance does not show. Other accounts may be told
   * anything.
   */
  lemma NeverOverReports(cfg: Config, bal: Balances, own: Key, run: seq<Event>)
    requires Run(Start(cfg), cfg, bal, own, run)
    requires own in Final(Start(cfg), cfg, bal, own, run).gate.ledger.snapshotBlock
    ensures var w := Final(Start(cfg), cfg, bal, own, run);
            Capacity(w.gate.ledger, own) <= bal(own, w.gate.ledger.snapshotBlock[own]) - Owed(w, own)
  {
    RunKeeps(Start(cfg), cfg, bal, own, run);
    CapacityCovers(Final(Start(cfg), cfg, bal, own, run), bal, own);
  }
}
