/**
 * The treasury over whole runs of the gate, the router ledger and the chain: money a signed batch can
 * still take is never also offered to another acquisition.
 *
 * A vault never returns to escrow, block timestamps never fall, and refreshes never go back in height.
 */
module Treasury {
  import opened Common
  import opened RiskGate
  import opened GateLedger
  import opened RouterFunding

  /** What was signed: immutable, and identified by its digest. */
  datatype Batch = Batch(vaultId: Vault, deadline: nat, maxWbtcIn: nat)

  /** How a vault left escrow: in which block, and by which of our batches if it was one of ours. */
  datatype Taking = Taking(block: nat, ours: Option<Digest>)

  /** `signed` names the batch each slot was opened for; `times` are the block timestamps by height. */
  datatype World = World(gate: Gate, router: Router, signed: map<nat, Digest>, batches: map<Digest, Batch>,
                         taken: map<Vault, Taking>, times: seq<nat>)

  datatype Event =
    | Judge(e: GateEvent)
    | Sign(slot: nat, digest: Digest, batch: Batch, height: nat)
    | SettleSigned(slot: nat, outcome: Outcome)
    | Refresh(balance: nat, allowance: nat, height: nat, acquired: set<Vault>)
    | Block(time: nat, leaving: map<Vault, Option<Digest>>)

  /** Gate steps that leave the treasury's own entry and the signed slots alone. */
  predicate Elsewhere(w: World, k: Key, e: GateEvent) {
    match e
    case SettleE(i, _) => i !in w.signed
    case AvailableE(account, _, _) => KeyOf(account) != k
    case SnapshotE(balances, _, _) => k !in Refreshed(balances)
    case _ => true
  }

  /** A confirmed acquisition is one our batch made, in the block its receipt names. */
  predicate Confirmed(w: World, d: Digest, o: Outcome) {
    o.ok && o.minedAtBlock.Some? && d in w.batches ==>
      w.batches[d].vaultId in w.taken && w.taken[w.batches[d].vaultId] == Taking(o.minedAtBlock.value, Some(d))
  }

  /** Every vault the log scan reports was taken by a batch of ours at or below the refresh height. */
  predicate LogsTrue(w: World, acquired: set<Vault>, height: nat) {
    forall v :: v in acquired ==> v in w.taken && w.taken[v].ours.Some? && w.taken[v].block <= height
  }

  predicate Executable(w: World, v: Vault, ours: Option<Digest>, time: nat) {
    ours.Some? ==>
      ours.value in w.batches && w.batches[ours.value].vaultId == v && time <= w.batches[ours.value].deadline
  }

  predicate Enabled(w: World, k: Key, e: Event) {
    && w.times != []
    && match e
       case Judge(g) => Elsewhere(w, k, g)
       case Sign(i, d, batch, height) =>
         && IsOpen(w.gate, i) && i !in w.signed && batch.maxWbtcIn <= SpendOn(w.gate.slots[i].spend, k)
         && height < |w.times| && (d in w.batches ==> w.batches[d] == batch)
       case SettleSigned(i, o) => i in w.signed && Confirmed(w, w.signed[i], o)
       case Refresh(_, _, height, acquired) =>
         && height < |w.times| && LogsTrue(w, acquired, height)
         && (w.router.inventory.Some? ==> w.router.inventory.value.block <= height)
       case Block(time, leaving) =>
         && w.times[|w.times| - 1] <= time
         && forall v :: v in leaving ==> v !in w.taken && Executable(w, v, leaving[v], time)
  }

  function Retired(auths: Auths, height: nat, time: nat, acquired: set<Vault>): Auths {
    WithoutVaults(WithoutLapsed(auths, height, time), acquired)
  }

  ghost function Republish(w: World, k: Key): World {
    w.(gate := w.gate.(ledger := Published(w.router, w.gate.ledger, k)))
  }

  function DoSign(w: World, i: nat, d: Digest, batch: Batch, height: nat): World {
    w.(router := Record(w.router, d, batch.vaultId, height, batch.deadline, batch.maxWbtcIn),
       signed := w.signed[i := d], batches := w.batches[d := batch])
  }

  /** The engine settles the slot and hands the batch over in one step. */
  ghost function DoSettle(w: World, cfg: Config, k: Key, i: nat, o: Outcome): World
    requires i in w.signed
  {
    var settled := w.(gate := Settle(w.gate, cfg, i, o));
    if w.signed[i] !in w.router.authorizations then settled
    else Republish(settled.(router := HandOver(w.router, w.signed[i], o.ok, o.minedAtBlock)), k)
  }

  ghost function DoRefresh(w: World, k: Key, balance: nat, allowance: nat, height: nat, acquired: set<Vault>): World
    requires height < |w.times|
  {
    Republish(w.(router := Router(Retired(w.router.authorizations, height, w.times[height], acquired),
                                Some(Inventory(balance, allowance, height)))), k)
  }

  function DoBlock(w: World, time: nat, leaving: map<Vault, Option<Digest>>): World {
    w.(times := w.times + [time], taken := w.taken + map v | v in leaving :: Taking(|w.times|, leaving[v]))
  }

  ghost function Apply(w: World, cfg: Config, k: Key, e: Event): World
    requires Enabled(w, k, e)
  {
    match e
    case Judge(g) => w.(gate := Step(w.gate, cfg, g))
    case Sign(i, d, batch, height) => DoSign(w, i, d, batch, height)
    case SettleSigned(i, o) => DoSettle(w, cfg, k, i, o)
    case Refresh(balance, allowance, height, acquired) => DoRefresh(w, k, balance, allowance, height, acquired)
    case Block(time, leaving) => DoBlock(w, time, leaving)
  }

  function Start(cfg: Config, genesis: nat): World {
    World(Opened(cfg), Router(map[], None), map[], map[], map[], [genesis])
  }

  ghost predicate Run(w: World, cfg: Config, k: Key, run: seq<Event>)
    decreases |run|
  {
    run == [] || (Enabled(w, k, run[0]) && Run(Apply(w, cfg, k, run[0]), cfg, k, run[1..]))
  }

  ghost function Final(w: World, cfg: Config, k: Key, run: seq<Event>): World
    requires Run(w, cfg, k, run)
    decreases |run|
  {
    if run == [] then w else Final(Apply(w, cfg, k, run[0]), cfg, k, run[1..])
  }

  // ---- What a signed batch can still do ----------------------------------------------------------------

  predicate Awaiting(w: World, d: Digest)
    requires d in w.batches && w.times != []
  {
    w.batches[d].vaultId !in w.taken && w.times[|w.times| - 1] <= w.batches[d].deadline
  }

  /** The batch took its money in a block the last refresh did not read. */
  predicate TookUnread(w: World, d: Digest)
    requires d in w.batches
  {
    var v := w.batches[d].vaultId;
    && v in w.taken && w.taken[v].ours == Some(d)
    && (w.router.inventory.Some? ==> w.router.inventory.value.block < w.taken[v].block)
  }

  /** The batch may still take money the published balance contains. */
  predicate Live(w: World, d: Digest)
    requires w.times != []
  {
    d in w.batches && (Awaiting(w, d) || TookUnread(w, d))
  }

  function LiveOf(w: World, v: Vault): set<Digest>
    requires w.times != []
  {
    set d | d in w.batches && w.batches[d].vaultId == v && Live(w, d)
  }

  function BatchAmount(batches: map<Digest, Batch>): Digest -> int {
    d => if d in batches then batches[d].maxWbtcIn else 0
  }

  ghost function WorstLive(w: World): Vault -> int
    requires w.times != []
  {
    v => MaxOver(LiveOf(w, v), BatchAmount(w.batches))
  }

  function VaultsSigned(w: World): set<Vault> {
    set d | d in w.batches :: w.batches[d].vaultId
  }

  /** What every vault's largest live batch could take, together. */
  ghost function Committed(w: World): int
    requires w.times != []
  {
    Sum(VaultsSigned(w), WorstLive(w))
  }

  // ---- Invariant --------------------------------------------------------------------------------------

  predicate TimesSound(times: seq<nat>) {
    times != [] && forall i, j :: 0 <= i <= j < |times| ==> times[i] <= times[j]
  }

  predicate ChainSound(w: World) {
    && TimesSound(w.times)
    && (forall v :: v in w.taken ==> w.taken[v].block < |w.times|)
    && (forall v :: v in w.taken && w.taken[v].ours.Some? ==>
          Executable(w, v, w.taken[v].ours, w.times[w.taken[v].block]))
    && (w.router.inventory.Some? ==> w.router.inventory.value.block < |w.times|)
  }

  predicate RecordTrue(w: World, d: Digest)
    requires d in w.router.authorizations
  {
    var a := w.router.authorizations[d];
    && d in w.batches && Batch(a.vaultId, a.deadline, a.maxWbtcIn) == w.batches[d]
    && (a.executedAt.Some? ==> a.vaultId in w.taken && w.taken[a.vaultId] == Taking(a.executedAt.value, Some(d)))
  }

  /** Every live batch is on record, and every record is true. */
  ghost predicate RecordsSound(w: World)
    requires w.times != []
  {
    && (forall d :: d in w.router.authorizations ==> RecordTrue(w, d))
    && (forall d :: Live(w, d) ==> d in w.router.authorizations)
    && (forall i :: i in w.signed ==> i < |w.gate.slots| && w.signed[i] in w.batches)
  }

  /** An open slot the gate still reserves for the batch. */
  predicate Backing(w: World, k: Key, d: Digest, i: nat) {
    i in w.signed && w.signed[i] == d && IsOpen(w.gate, i)
    && d in w.router.authorizations && w.router.authorizations[d].maxWbtcIn <= SpendOn(w.gate.slots[i].spend, k)
  }

  ghost predicate Backed(w: World, k: Key) {
    forall d :: d in w.router.authorizations && w.router.authorizations[d].backed ==> exists i :: Backing(w, k, d, i)
  }

  /** What the router lets the gate offer. */
  ghost function Offered(r: Router): int
    requires r.inventory.Some?
  {
    Clamped(TreasuryCap(r.inventory.value), Held(r.authorizations))
  }

  /** The gate's figure for the treasury is at most the last read, less what the router holds. */
  ghost predicate PublishedSound(w: World, k: Key) {
    var l := w.gate.ledger;
    && (k in l.snapshotBlock ==> w.router.inventory.Some? && l.snapshotBlock[k] == w.router.inventory.value.block)
    && (k in l.available ==> k in l.snapshotBlock && w.router.inventory.Some? && l.available[k] <= Offered(w.router))
    && (forall x :: 0 <= At(l.spentSinceRefresh, x))
  }

  ghost predicate Inv(w: World, k: Key) {
    Reserved(w.gate) && ChainSound(w) && RecordsSound(w) && Backed(w, k) && PublishedSound(w, k)
  }

  // ---- Pieces -----------------------------------------------------------------------------------------

  /** Dropping a batch, or having the gate reserve for it again, never raises what is held. */
  lemma HeldShrinks(small: Auths, big: Auths)
    requires forall d :: d in small && !small[d].backed ==>
               d in big && !big[d].backed && big[d].vaultId == small[d].vaultId
               && big[d].maxWbtcIn == small[d].maxWbtcIn
    ensures Held(small) <= Held(big)
  {
    var s := WorstSelection(small, VaultsIn(small));
    SumSame(s, AmountIn(small), AmountIn(big));
    HeldBoundsEverySelection(big, s);
  }

  /** The treasury's entry is the same in both ledgers. */
  predicate SameAt(l: Ledger, l': Ledger, k: Key) {
    && (k in l.available <==> k in l'.available) && (k in l.available ==> l.available[k] == l'.available[k])
    && (k in l.snapshotBlock <==> k in l'.snapshotBlock)
    && (k in l.snapshotBlock ==> l.snapshotBlock[k] == l'.snapshotBlock[k])
  }

  ghost predicate CountsNonNegative(l: Ledger) {
    forall x :: 0 <= At(l.spentSinceRefresh, x)
  }

  lemma SetAvailableCounts(l: Ledger, k: Key, amount: int, block: Option<nat>)
    requires CountsNonNegative(l)
    ensures CountsNonNegative(SetAvailable(l, k, amount, block))
  {
    forall x
      ensures 0 <= At(SetAvailable(l, k, amount, block).spentSinceRefresh, x)
    {
      assert 0 <= At(l.spentSinceRefresh, x);
    }
  }

  lemma RefreshedPrefix(balances: seq<Balance>, n: nat)
    requires n <= |balances|
    ensures Refreshed(balances[..n]) <= Refreshed(balances)
  {
    forall k | k in Refreshed(balances[..n])
      ensures k in Refreshed(balances)
    {
      var i :| 0 <= i < n && k == KeyOf(balances[..n][i].account);
      assert balances[i] == balances[..n][i];
    }
  }

  lemma {:induction false} PublishElsewhere(l: Ledger, balances: seq<Balance>, block: nat, k: Key)
    requires k !in Refreshed(balances) && CountsNonNegative(l)
    ensures SameAt(l, Publish(l, balances, block), k) && CountsNonNegative(Publish(l, balances, block))
    decreases |balances|
  {
    if balances != [] {
      var n := |balances| - 1;
      RefreshedPrefix(balances, n);
      assert KeyOf(balances[n].account) in Refreshed(balances);
      PublishElsewhere(l, balances[..n], block, k);
      SetAvailableCounts(Publish(l, balances[..n], block), KeyOf(balances[n].account), balances[n].amount, Some(block));
    }
  }

  lemma BookCounts(l: Ledger, spend: seq<Spend>, o: Outcome)
    requires CountsNonNegative(l)
    ensures CountsNonNegative(Book(l, spend, o))
  {
    forall x
      ensures 0 <= At(Book(l, spend, o).spentSinceRefresh, x)
    {
      ChargeAt(l.spentSinceRefresh, GateSpend(spend), x);
    }
  }

  // ---- Gate steps -------------------------------------------------------------------------------------

  lemma JudgeKeepsLedger(w: World, cfg: Config, k: Key, g: GateEvent)
    requires PublishedSound(w, k) && Elsewhere(w, k, g)
    ensures PublishedSound(w.(gate := Step(w.gate, cfg, g)), k)
  {
    var l := w.gate.ledger;
    match g
    case SettleE(i, o) =>
      if IsOpen(w.gate, i) {
        BookCounts(l, w.gate.slots[i].spend, o);
      }
    case AvailableE(account, amount, block) => SetAvailableCounts(l, KeyOf(account), amount, block);
    case SnapshotE(balances, block, settled) =>
      PublishElsewhere(l.(holds := RetireAll(l.holds, settled, Refreshed(balances))), balances, block, k);
    case _ =>
  }

  lemma JudgeKeepsReserved(g: Gate, cfg: Config, e: GateEvent)
    requires Reserved(g)
    ensures Reserved(Step(g, cfg, e))
  {
    match e
    case OpenE(action, now) =>
      if Evaluate(g, cfg, now, action).None? {
        OpenKeepsReserved(g, action.spend);
      }
    case SettleE(i, o) =>
      if IsOpen(g, i) {
        SettleKeepsReserved(g, cfg, i, o);
      }
    case SnapshotE(balances, block, settled) =>
      PublishFrame(g.ledger.(holds := RetireAll(g.ledger.holds, settled, Refreshed(balances))), balances, block);
    case _ =>
  }

  lemma JudgeKeeps(w: World, cfg: Config, k: Key, g: GateEvent)
    requires Inv(w, k) && Elsewhere(w, k, g)
    ensures Inv(w.(gate := Step(w.gate, cfg, g)), k)
  {
    JudgeKeepsReserved(w.gate, cfg, g);
    JudgeKeepsLedger(w, cfg, k, g);
    StepKeepsSlots(w.gate, cfg, g);
    var w' := w.(gate := Step(w.gate, cfg, g));
    forall d | d in w'.router.authorizations && w'.router.authorizations[d].backed
      ensures exists i :: Backing(w', k, d, i)
    {
      var i :| Backing(w, k, d, i);
      assert Backing(w', k, d, i);
    }
    assert forall d :: Live(w', d) <==> Live(w, d);
    assert forall d :: d in w.router.authorizations ==> RecordTrue(w, d) ==> RecordTrue(w', d);
  }

  // ---- Signing ----------------------------------------------------------------------------------------

  lemma SignKeeps(w: World, k: Key, i: nat, d: Digest, batch: Batch, height: nat)
    requires Inv(w, k) && Enabled(w, k, Sign(i, d, batch, height))
    ensures Inv(DoSign(w, i, d, batch, height), k)
  {
    SignKeepsRecords(w, k, i, d, batch, height);
    SignKeepsBacked(w, k, i, d, batch, height);
    HeldShrinks(DoSign(w, i, d, batch, height).router.authorizations, w.router.authorizations);
  }

  lemma SignKeepsBacked(w: World, k: Key, i: nat, d: Digest, batch: Batch, height: nat)
    requires Backed(w, k) && Enabled(w, k, Sign(i, d, batch, height))
    ensures Backed(DoSign(w, i, d, batch, height), k)
  {
    var w' := DoSign(w, i, d, batch, height);
    forall x | x in w'.router.authorizations && w'.router.authorizations[x].backed
      ensures exists j :: Backing(w', k, x, j)
    {
      if x == d {
        assert Backing(w', k, x, i);
      } else {
        var j :| Backing(w, k, x, j);
        assert Backing(w', k, x, j);
      }
    }
  }

  lemma SignKeepsRecords(w: World, k: Key, i: nat, d: Digest, batch: Batch, height: nat)
    requires ChainSound(w) && RecordsSound(w) && Enabled(w, k, Sign(i, d, batch, height))
    ensures ChainSound(DoSign(w, i, d, batch, height)) && RecordsSound(DoSign(w, i, d, batch, height))
  {
    var w' := DoSign(w, i, d, batch, height);
    forall x | x in w'.router.authorizations
      ensures RecordTrue(w', x)
    {
      assert x != d ==> RecordTrue(w, x);
    }
    forall x | Live(w', x)
      ensures x in w'.router.authorizations
    {
      assert x != d ==> Live(w, x);
    }
  }

  // ---- Settling ---------------------------------------------------------------------------------------

  lemma PublishSets(w: World, k: Key)
    requires w.router.inventory.Some? && k in w.gate.ledger.snapshotBlock ==>
               w.gate.ledger.snapshotBlock[k] <= w.router.inventory.value.block
    requires w.router.inventory.None? ==> PublishedSound(w, k)
    requires CountsNonNegative(w.gate.ledger)
    ensures PublishedSound(Republish(w, k), k)
    ensures Republish(w, k).gate.ledger.reserved == w.gate.ledger.reserved
  {
    if w.router.inventory.Some? {
      var i := w.router.inventory.value;
      SetAvailableCounts(w.gate.ledger, k, Clamped(TreasuryCap(i), Held(w.router.authorizations)), Some(i.block));
    }
  }

  lemma SettleKeepsLedger(w: World, cfg: Config, k: Key, i: nat, o: Outcome)
    requires PublishedSound(w, k) && i in w.signed
    ensures PublishedSound(DoSettle(w, cfg, k, i, o), k)
    ensures DoSettle(w, cfg, k, i, o).gate.ledger.reserved == Settle(w.gate, cfg, i, o).ledger.reserved
    ensures DoSettle(w, cfg, k, i, o).gate.slots == Settle(w.gate, cfg, i, o).slots
  {
    if IsOpen(w.gate, i) {
      BookCounts(w.gate.ledger, w.gate.slots[i].spend, o);
    }
    var settled := w.(gate := Settle(w.gate, cfg, i, o));
    if w.signed[i] in w.router.authorizations {
      PublishSets(settled.(router := HandOver(w.router, w.signed[i], o.ok, o.minedAtBlock)), k);
    }
  }

  lemma HandOverKeepsRecords(w: World, d: Digest, o: Outcome)
    requires ChainSound(w) && RecordsSound(w) && Confirmed(w, d, o)
    ensures var w' := w.(router := HandOver(w.router, d, o.ok, o.minedAtBlock)); ChainSound(w') && RecordsSound(w')
  {
    var w' := w.(router := HandOver(w.router, d, o.ok, o.minedAtBlock));
    forall x | x in w'.router.authorizations
      ensures RecordTrue(w', x)
    {
      assert RecordTrue(w, x);
    }
    forall x | Live(w', x)
      ensures x in w'.router.authorizations
    {
      assert Live(w, x);
    }
  }

  lemma GateKeepsRecords(w: World, g: Gate)
    requires ChainSound(w) && RecordsSound(w) && |w.gate.slots| <= |g.slots|
    ensures var w' := w.(gate := g); ChainSound(w') && RecordsSound(w')
  {
    var w' := w.(gate := g);
    forall x | x in w'.router.authorizations
      ensures RecordTrue(w', x)
    {
      assert RecordTrue(w, x);
    }
    forall x | Live(w', x)
      ensures x in w'.router.authorizations
    {
      assert Live(w, x);
    }
  }

  lemma SettleKeepsRecords(w: World, cfg: Config, k: Key, i: nat, o: Outcome)
    requires ChainSound(w) && RecordsSound(w) && i in w.signed && Confirmed(w, w.signed[i], o)
    ensures var w' := DoSettle(w, cfg, k, i, o); ChainSound(w') && RecordsSound(w')
  {
    var w' := DoSettle(w, cfg, k, i, o);
    assert |w'.gate.slots| == |w.gate.slots|;
    if w.signed[i] in w.router.authorizations {
      HandOverKeepsRecords(w, w.signed[i], o);
      GateKeepsRecords(w.(router := w'.router), w'.gate);
    } else {
      GateKeepsRecords(w, w'.gate);
    }
  }

  lemma SameReserved(g: Gate, g': Gate)
    requires Reserved(g) && g'.ledger.reserved == g.ledger.reserved && g'.slots == g.slots
    ensures Reserved(g')
  {
  }

  lemma SettleKeepsBacked(w: World, cfg: Config, k: Key, i: nat, o: Outcome)
    requires Backed(w, k) && i in w.signed
    ensures Backed(DoSettle(w, cfg, k, i, o), k)
  {
    var w' := DoSettle(w, cfg, k, i, o);
    assert w'.gate.slots == Settle(w.gate, cfg, i, o).slots;
    forall x | x in w'.router.authorizations && w'.router.authorizations[x].backed
      ensures exists j :: Backing(w', k, x, j)
    {
      var j :| Backing(w, k, x, j);
      assert j != i;
      assert Backing(w', k, x, j);
    }
  }

  lemma SettleKeeps(w: World, cfg: Config, k: Key, i: nat, o: Outcome)
    requires Inv(w, k) && i in w.signed && Confirmed(w, w.signed[i], o)
    ensures Inv(DoSettle(w, cfg, k, i, o), k)
  {
    SettleKeepsLedger(w, cfg, k, i, o);
    SettleKeepsRecords(w, cfg, k, i, o);
    SettleKeepsBacked(w, cfg, k, i, o);
    if IsOpen(w.gate, i) {
      SettleKeepsReserved(w.gate, cfg, i, o);
    }
    SameReserved(Settle(w.gate, cfg, i, o), DoSettle(w, cfg, k, i, o).gate);
  }

  // ---- Refreshing -------------------------------------------------------------------------------------

  lemma RefreshKeepsRecords(w: World, k: Key, balance: nat, allowance: nat, height: nat, acquired: set<Vault>)
    requires ChainSound(w) && RecordsSound(w) && Enabled(w, k, Refresh(balance, allowance, height, acquired))
    ensures var w' := DoRefresh(w, k, balance, allowance, height, acquired); ChainSound(w') && RecordsSound(w')
  {
    var w' := DoRefresh(w, k, balance, allowance, height, acquired);
    forall x | x in w'.router.authorizations
      ensures RecordTrue(w', x)
    {
      assert RecordTrue(w, x);
    }
    forall x | Live(w', x)
      ensures x in w'.router.authorizations
    {
      assert Live(w, x);
      LiveIsKept(w, x, height, acquired);
    }
  }

  /** What the retirement rules drop can no longer take money that a read at this height contains. */
  lemma LiveIsKept(w: World, d: Digest, height: nat, acquired: set<Vault>)
    requires ChainSound(w) && RecordsSound(w) && height < |w.times| && LogsTrue(w, acquired, height)
    requires d in w.batches && d in w.router.authorizations
    requires Awaiting(w, d) || (w.batches[d].vaultId in w.taken && w.taken[w.batches[d].vaultId].ours == Some(d)
                                && height < w.taken[w.batches[d].vaultId].block)
    ensures d in Retired(w.router.authorizations, height, w.times[height], acquired)
  {
    var a := w.router.authorizations[d];
    assert RecordTrue(w, d);
    assert w.times[height] <= w.times[|w.times| - 1];
    if !Awaiting(w, d) {
      var t := w.taken[a.vaultId];
      assert w.times[height] <= w.times[t.block];
      assert Executable(w, a.vaultId, t.ours, w.times[t.block]);
    }
  }

  /**
   * And it drops all the rest: after a refresh a batch is on record exactly if it was, it is not known to have
   * executed at or below the read, its deadline and margin are not past, and no log reports its vault acquired.
   */
  lemma RefreshDropsTheRest(w: World, k: Key, balance: nat, allowance: nat, height: nat, acquired: set<Vault>,
                            d: Digest)
    requires height < |w.times|
    ensures d in DoRefresh(w, k, balance, allowance, height, acquired).router.authorizations <==>
              && d in w.router.authorizations
              && var a := w.router.authorizations[d];
                 && (a.executedAt.Some? ==> height < a.executedAt.value)
                 && w.times[height] <= a.deadline + 24
                 && a.vaultId !in acquired
  {
  }

  /** The money a confirmed acquisition took is held until a read contains it, and from then on no longer. */
  lemma ConfirmedIsReleased(w: World, cfg: Config, k: Key, i: nat, o: Outcome, balance: nat, allowance: nat,
                            height: nat, acquired: set<Vault>)
    requires i in w.signed && w.signed[i] in w.router.authorizations && o.ok && o.minedAtBlock.Some?
    requires o.minedAtBlock.value <= height < |w.times|
    ensures w.signed[i] !in
              DoRefresh(DoSettle(w, cfg, k, i, o), k, balance, allowance, height, acquired).router.authorizations
  {
  }

  /** A settled slot hands over its own batch and no other, and never changes what may still be taken. */
  lemma HandsOverItsOwn(w: World, cfg: Config, k: Key, i: nat, o: Outcome, d: Digest)
    requires i in w.signed
    ensures var was, now := w.router.authorizations, DoSettle(w, cfg, k, i, o).router.authorizations;
            && (d in now <==> d in was)
            && (d in was ==>
                  && now[d].vaultId == was[d].vaultId && now[d].maxWbtcIn == was[d].maxWbtcIn
                  && now[d].deadline == was[d].deadline && now[d].block == was[d].block
                  && (now[d].backed <==> was[d].backed && d != w.signed[i])
                  && now[d].executedAt ==
                       if d == w.signed[i] && o.ok && o.minedAtBlock.Some? then o.minedAtBlock else was[d].executedAt)
  {
  }

  lemma RefreshKeeps(w: World, k: Key, balance: nat, allowance: nat, height: nat, acquired: set<Vault>)
    requires Inv(w, k) && Enabled(w, k, Refresh(balance, allowance, height, acquired))
    ensures Inv(DoRefresh(w, k, balance, allowance, height, acquired), k)
  {
    var w' := DoRefresh(w, k, balance, allowance, height, acquired);
    RefreshKeepsRecords(w, k, balance, allowance, height, acquired);
    PublishSets(w.(router := w'.router), k);
    forall x | x in w'.router.authorizations && w'.router.authorizations[x].backed
      ensures exists j :: Backing(w', k, x, j)
    {
      var j :| Backing(w, k, x, j);
      assert Backing(w', k, x, j);
    }
  }

  // ---- The chain --------------------------------------------------------------------------------------

  lemma BlockKeepsChain(w: World, k: Key, time: nat, leaving: map<Vault, Option<Digest>>)
    requires ChainSound(w) && Enabled(w, k, Block(time, leaving))
    ensures ChainSound(DoBlock(w, time, leaving))
  {
    var w' := DoBlock(w, time, leaving);
    forall v | v in w'.taken && w'.taken[v].ours.Some?
      ensures Executable(w', v, w'.taken[v].ours, w'.times[w'.taken[v].block])
    {
      if v in w.taken && v !in leaving {
        assert Executable(w, v, w.taken[v].ours, w.times[w.taken[v].block]);
      }
    }
  }

  lemma BlockKeeps(w: World, k: Key, time: nat, leaving: map<Vault, Option<Digest>>)
    requires Inv(w, k) && Enabled(w, k, Block(time, leaving))
    ensures Inv(DoBlock(w, time, leaving), k)
  {
    var w' := DoBlock(w, time, leaving);
    BlockKeepsChain(w, k, time, leaving);
    forall x | x in w'.router.authorizations
      ensures RecordTrue(w', x)
    {
      assert RecordTrue(w, x);
    }
    forall x | Live(w', x)
      ensures x in w'.router.authorizations
    {
      assert Live(w, x);
    }
    forall x | x in w'.router.authorizations && w'.router.authorizations[x].backed
      ensures exists j :: Backing(w', k, x, j)
    {
      var j :| Backing(w, k, x, j);
      assert Backing(w', k, x, j);
    }
  }

  lemma StepKeeps(w: World, cfg: Config, k: Key, e: Event)
    requires Inv(w, k) && Enabled(w, k, e)
    ensures Inv(Apply(w, cfg, k, e), k)
  {
    match e
    case Judge(g) => JudgeKeeps(w, cfg, k, g);
    case Sign(i, d, batch, height) => SignKeeps(w, k, i, d, batch, height);
    case SettleSigned(i, o) => SettleKeeps(w, cfg, k, i, o);
    case Refresh(balance, allowance, height, acquired) => RefreshKeeps(w, k, balance, allowance, height, acquired);
    case Block(time, leaving) => BlockKeeps(w, k, time, leaving);
  }

  lemma {:induction false} RunKeeps(w: World, cfg: Config, k: Key, run: seq<Event>)
    requires Inv(w, k) && Run(w, cfg, k, run)
    ensures Inv(Final(w, cfg, k, run), k)
    decreases |run|
  {
    if run != [] {
      StepKeeps(w, cfg, k, run[0]);
      RunKeeps(Apply(w, cfg, k, run[0]), cfg, k, run[1..]);
    }
  }

  // ---- No money is committed twice ----------------------------------------------------------------------

  /** The largest live batch of a vault is either held by the router or reserved by the gate. */
  lemma LiveIsHeldOrBacked(w: World, k: Key, v: Vault)
    requires Inv(w, k)
    ensures WorstLive(w)(v) <= WorstOf(w.router.authorizations)(v) || exists d, i: nat :: BackedAt(w, k, v, d, i)
  {
    var auths := w.router.authorizations;
    MaxAttained(LiveOf(w, v), BatchAmount(w.batches));
    MaxAttained(UnbackedOf(auths, v), AmountIn(auths));
    if 0 < WorstLive(w)(v) {
      var d :| d in LiveOf(w, v) && BatchAmount(w.batches)(d) == WorstLive(w)(v);
      assert RecordTrue(w, d);
      if auths[d].backed {
        var i :| Backing(w, k, d, i);
        assert BackedAt(w, k, v, d, i);
      } else {
        MaxAtLeast(UnbackedOf(auths, v), AmountIn(auths), d);
      }
    }
  }

  /** Slot `i` is open and reserves at least the vault's largest live batch, which it signed. */
  ghost predicate BackedAt(w: World, k: Key, v: Vault, d: Digest, i: nat)
    requires w.times != []
  {
    Backing(w, k, d, i) && d in w.batches && w.batches[d].vaultId == v
    && WorstLive(w)(v) <= SpendOn(w.gate.slots[i].spend, k)
  }

  /** The gate's reservation is what covers the vault's largest live batch. */
  ghost predicate CoveredByGate(w: World, k: Key, v: Vault)
    requires w.times != []
  {
    WorstLive(w)(v) > WorstOf(w.router.authorizations)(v) && exists d, i: nat :: BackedAt(w, k, v, d, i)
  }

  ghost function SlotFor(w: World, k: Key, v: Vault): int
    requires w.times != []
  {
    if CoveredByGate(w, k, v) then var d, i: nat :| BackedAt(w, k, v, d, i); i else -1
  }

  ghost function ByGateAt(w: World, k: Key, v: Vault): int
    requires w.times != []
  {
    if CoveredByGate(w, k, v) then WorstLive(w)(v) else 0
  }

  ghost function ByGate(w: World, k: Key): Vault -> int
    requires w.times != []
  {
    (v: Vault) => ByGateAt(w, k, v)
  }

  lemma SlotForBacks(w: World, k: Key, v: Vault)
    requires Inv(w, k) && CoveredByGate(w, k, v)
    ensures var i := SlotFor(w, k, v);
            && 0 <= i < |w.gate.slots| && IsOpen(w.gate, i) && i in w.signed && w.signed[i] in w.batches
            && w.batches[w.signed[i]].vaultId == v && ByGateAt(w, k, v) <= SpendOn(w.gate.slots[i].spend, k)
  {
    var i := SlotFor(w, k, v);
    var d :| BackedAt(w, k, v, d, i);
  }

  lemma GateCovers(w: World, k: Key)
    requires Inv(w, k)
    ensures Sum(VaultsSigned(w), ByGate(w, k)) <= At(w.gate.ledger.reserved, k)
  {
    var slots := w.gate.slots;
    var slotFor: Vault -> int := (v: Vault) => SlotFor(w, k, v);
    forall v | v in VaultsSigned(w) && 0 < ByGateAt(w, k, v)
      ensures slotFor(v) in Indices(|slots|) && ByGateAt(w, k, v) <= OpenOn(slots, k)(slotFor(v))
    {
      SlotForBacks(w, k, v);
    }
    forall u, v | u in VaultsSigned(w) && v in VaultsSigned(w) && 0 < ByGateAt(w, k, u) && 0 < ByGateAt(w, k, v)
                  && slotFor(u) == slotFor(v)
      ensures u == v
    {
      SlotForBacks(w, k, u);
      SlotForBacks(w, k, v);
    }
    SumPaired(VaultsSigned(w), ByGate(w, k), Indices(|slots|), OpenOn(slots, k), slotFor);
  }

  lemma RouterCovers(w: World)
    requires RecordsTrue(w)
    ensures Sum(VaultsSigned(w), WorstOf(w.router.authorizations)) == Held(w.router.authorizations)
  {
    var auths := w.router.authorizations;
    forall v | v in VaultsIn(auths)
      ensures v in VaultsSigned(w)
    {
      var d :| d in auths && auths[d].vaultId == v;
      assert RecordTrue(w, d);
      assert w.batches[d].vaultId == v;
    }
    forall v | v in VaultsSigned(w)
      ensures 0 <= WorstOf(auths)(v) && (v !in VaultsIn(auths) ==> WorstOf(auths)(v) == 0)
    {
      MaxAttained(UnbackedOf(auths, v), AmountIn(auths));
      if v !in VaultsIn(auths) {
        NoneOf(auths, v);
      }
    }
    SumDropZeros(VaultsIn(auths), VaultsSigned(w), WorstOf(auths));
  }

  predicate RecordsTrue(w: World) {
    forall d :: d in w.router.authorizations ==> RecordTrue(w, d)
  }

  lemma NoneOf(auths: Auths, v: Vault)
    requires v !in VaultsIn(auths)
    ensures UnbackedOf(auths, v) == {}
  {
    assert forall d :: d in auths ==> auths[d].vaultId in VaultsIn(auths);
  }

  /** Everything live is held by the router or reserved by the gate. */
  lemma CommittedIsCovered(w: World, k: Key)
    requires Inv(w, k)
    ensures Committed(w) <= Held(w.router.authorizations) + At(w.gate.ledger.reserved, k)
  {
    var both: Vault -> int := v => WorstOf(w.router.authorizations)(v) + ByGate(w, k)(v);
    forall v | v in VaultsSigned(w)
      ensures WorstLive(w)(v) <= both(v)
    {
      LiveIsHeldOrBacked(w, k, v);
      MaxAttained(UnbackedOf(w.router.authorizations, v), AmountIn(w.router.authorizations));
    }
    SumLeq(VaultsSigned(w), WorstLive(w), both);
    SumAdd(VaultsSigned(w), WorstOf(w.router.authorizations), ByGate(w, k), both);
    RouterCovers(w);
    GateCovers(w, k);
  }

  /**
   * The treasury is never committed twice: whatever positive amount the gate would admit on it, together
   * with the largest live batch of every vault, backed or not, fits in the balance and allowance last read.
   */
  lemma NeverCommittedTwice(cfg: Config, genesis: nat, k: Key, run: seq<Event>, amount: nat)
    requires Run(Start(cfg, genesis), cfg, k, run)
    requires var w := Final(Start(cfg, genesis), cfg, k, run);
             k in w.gate.ledger.available && 0 < amount <= Capacity(w.gate.ledger, k)
    ensures var w := Final(Start(cfg, genesis), cfg, k, run);
            w.times != [] && w.router.inventory.Some? && amount + Committed(w) <= TreasuryCap(w.router.inventory.value)
  {
    StartHolds(cfg, genesis, k);
    RunKeeps(Start(cfg, genesis), cfg, k, run);
    AdmittedFits(Final(Start(cfg, genesis), cfg, k, run), k, amount);
  }

  lemma StartHolds(cfg: Config, genesis: nat, k: Key)
    ensures Inv(Start(cfg, genesis), k)
  {
    assert Indices(0) == {};
  }

  lemma AdmittedFits(w: World, k: Key, amount: nat)
    requires Inv(w, k) && k in w.gate.ledger.available && 0 < amount <= Capacity(w.gate.ledger, k)
    ensures amount + Committed(w) <= TreasuryCap(w.router.inventory.value)
  {
    CommittedIsCovered(w, k);
    HeldNonNegative(w.gate.ledger.holds, k);
    SumNonNegative(Indices(|w.gate.slots|), OpenOn(w.gate.slots, k));
  }

  /**
   * The bare inequality between what is published and what is committed holds whenever the clamp does not
   * bind, that is while the last read covers what is held.
   */
  lemma PublishedLessReservedCoversCommitted(w: World, k: Key)
    requires Inv(w, k) && k in w.gate.ledger.available
    requires Held(w.router.authorizations) <= TreasuryCap(w.router.inventory.value)
    ensures Bare(w, k)
  {
    CommittedIsCovered(w, k);
  }

  // ---- When the bare inequality holds -------------------------------------------------------------------

  /** Published availability less reservations is at most the last read less the largest live batch of every vault. */
  ghost predicate Bare(w: World, k: Key)
    requires w.times != [] && w.router.inventory.Some?
  {
    At(w.gate.ledger.available, k) - At(w.gate.ledger.reserved, k)
      <= TreasuryCap(w.router.inventory.value) - Committed(w)
  }

  /** An open slot that draws on the treasury has signed for exactly what it reserved. */
  predicate SignedInFull(w: World, k: Key, i: nat) {
    IsOpen(w.gate, i) && 0 < SpendOn(w.gate.slots[i].spend, k) ==>
      && i in w.signed && w.signed[i] in w.router.authorizations
      && w.router.authorizations[w.signed[i]].backed
      && w.router.authorizations[w.signed[i]].maxWbtcIn == SpendOn(w.gate.slots[i].spend, k)
  }

  /** Every record can still take its money, no vault has two, and every reservation stands behind its own. */
  ghost predicate FullyLive(w: World, k: Key)
    requires w.times != []
  {
    var auths := w.router.authorizations;
    && (forall d :: d in auths ==> Live(w, d))
    && (forall d, e :: d in auths && e in auths && auths[d].vaultId == auths[e].vaultId ==> d == e)
    && (forall i :: 0 <= i < |w.gate.slots| ==> SignedInFull(w, k, i))
    && (forall i, j |
          i in w.signed && j in w.signed && IsOpen(w.gate, i) && IsOpen(w.gate, j) && w.signed[i] == w.signed[j]
          :: i == j)
  }

  function BackedOf(auths: Auths, v: Vault): set<Digest> {
    set d | d in auths && auths[d].backed && auths[d].vaultId == v
  }

  ghost function BackedAmount(auths: Auths): Vault -> int {
    v => MaxOver(BackedOf(auths, v), AmountIn(auths))
  }

  /** A vault has one record, so what it holds and what it backs are not both more than nothing. */
  lemma OneRecordPays(w: World, k: Key, v: Vault)
    requires Inv(w, k) && FullyLive(w, k)
    ensures WorstOf(w.router.authorizations)(v) + BackedAmount(w.router.authorizations)(v) <= WorstLive(w)(v)
  {
    var auths := w.router.authorizations;
    MaxAttained(UnbackedOf(auths, v), AmountIn(auths));
    MaxAttained(BackedOf(auths, v), AmountIn(auths));
    MaxAttained(LiveOf(w, v), BatchAmount(w.batches));
    if 0 < WorstOf(auths)(v) {
      var d :| d in UnbackedOf(auths, v) && AmountIn(auths)(d) == WorstOf(auths)(v);
      assert RecordTrue(w, d) && d in LiveOf(w, v);
      MaxAtLeast(LiveOf(w, v), BatchAmount(w.batches), d);
    }
    if 0 < BackedAmount(auths)(v) {
      var e :| e in BackedOf(auths, v) && AmountIn(auths)(e) == BackedAmount(auths)(v);
      assert RecordTrue(w, e) && e in LiveOf(w, v);
      MaxAtLeast(LiveOf(w, v), BatchAmount(w.batches), e);
    }
  }

  function VaultOfSlot(w: World): int -> Vault {
    (i: int) => if 0 <= i && i in w.signed && w.signed[i] in w.batches then w.batches[w.signed[i]].vaultId else ""
  }

  lemma SlotStandsBehindItsVault(w: World, k: Key, i: nat)
    requires Inv(w, k) && FullyLive(w, k) && i < |w.gate.slots| && 0 < OpenOn(w.gate.slots, k)(i)
    ensures i in w.signed && IsOpen(w.gate, i)
    ensures VaultOfSlot(w)(i) in VaultsSigned(w)
    ensures OpenOn(w.gate.slots, k)(i) <= BackedAmount(w.router.authorizations)(VaultOfSlot(w)(i))
    ensures w.signed[i] in w.router.authorizations && w.router.authorizations[w.signed[i]].vaultId == VaultOfSlot(w)(i)
  {
    var auths := w.router.authorizations;
    assert SignedInFull(w, k, i);
    var d := w.signed[i];
    assert RecordTrue(w, d);
    MaxAtLeast(BackedOf(auths, auths[d].vaultId), AmountIn(auths), d);
  }

  /** Slots that draw on the treasury stand behind vaults of their own. */
  ghost predicate SlotsPaired(w: World, k: Key) {
    var slots, auths := w.gate.slots, w.router.authorizations;
    && (forall i :: i in Indices(|slots|) && 0 < OpenOn(slots, k)(i) ==>
          VaultOfSlot(w)(i) in VaultsSigned(w) && OpenOn(slots, k)(i) <= BackedAmount(auths)(VaultOfSlot(w)(i)))
    && (forall i, j | i in Indices(|slots|) && j in Indices(|slots|)
                      && 0 < OpenOn(slots, k)(i) && 0 < OpenOn(slots, k)(j)
                      && VaultOfSlot(w)(i) == VaultOfSlot(w)(j) :: i == j)
  }

  lemma TwoSlotsTwoVaults(w: World, k: Key, i: nat, j: nat)
    requires Inv(w, k) && FullyLive(w, k) && i < |w.gate.slots| && j < |w.gate.slots|
    requires 0 < OpenOn(w.gate.slots, k)(i) && 0 < OpenOn(w.gate.slots, k)(j) && VaultOfSlot(w)(i) == VaultOfSlot(w)(j)
    ensures i == j
  {
    SlotStandsBehindItsVault(w, k, i);
    SlotStandsBehindItsVault(w, k, j);
  }

  lemma FullyLivePairs(w: World, k: Key)
    requires Inv(w, k) && FullyLive(w, k)
    ensures SlotsPaired(w, k)
  {
    var slots := w.gate.slots;
    forall i | i in Indices(|slots|) && 0 < OpenOn(slots, k)(i)
      ensures VaultOfSlot(w)(i) in VaultsSigned(w)
      ensures OpenOn(slots, k)(i) <= BackedAmount(w.router.authorizations)(VaultOfSlot(w)(i))
    {
      SlotStandsBehindItsVault(w, k, i);
    }
    forall i, j | i in Indices(|slots|) && j in Indices(|slots|) && 0 < OpenOn(slots, k)(i) && 0 < OpenOn(slots, k)(j)
                  && VaultOfSlot(w)(i) == VaultOfSlot(w)(j)
      ensures i == j
    {
      TwoSlotsTwoVaults(w, k, i, j);
    }
  }

  lemma ReservationsAreBacked(w: World, k: Key)
    requires SlotsPaired(w, k) && Reserved(w.gate)
    ensures At(w.gate.ledger.reserved, k) <= Sum(VaultsSigned(w), BackedAmount(w.router.authorizations))
  {
    var slots, auths := w.gate.slots, w.router.authorizations;
    forall v | v in VaultsSigned(w)
      ensures 0 <= BackedAmount(auths)(v)
    {
      MaxAttained(BackedOf(auths, v), AmountIn(auths));
    }
    SumPaired(Indices(|slots|), OpenOn(slots, k), VaultsSigned(w), BackedAmount(auths), VaultOfSlot(w));
  }

  /** Then nothing held or reserved is without a live batch behind it. */
  lemma CommittedIsEverything(w: World, k: Key)
    requires Inv(w, k) && FullyLive(w, k)
    ensures Committed(w) == Held(w.router.authorizations) + At(w.gate.ledger.reserved, k)
  {
    var auths := w.router.authorizations;
    var both: Vault -> int := v => WorstOf(auths)(v) + BackedAmount(auths)(v);
    forall v | v in VaultsSigned(w)
      ensures both(v) <= WorstLive(w)(v)
    {
      OneRecordPays(w, k, v);
    }
    SumLeq(VaultsSigned(w), both, WorstLive(w));
    SumAdd(VaultsSigned(w), WorstOf(auths), BackedAmount(auths), both);
    RouterCovers(w);
    FullyLivePairs(w, k);
    ReservationsAreBacked(w, k);
    CommittedIsCovered(w, k);
  }

  lemma RefreshPublishes(w: World, k: Key, balance: nat, allowance: nat, height: nat, acquired: set<Vault>)
    requires Inv(w, k) && Enabled(w, k, Refresh(balance, allowance, height, acquired))
    ensures var w' := DoRefresh(w, k, balance, allowance, height, acquired);
            k in w'.gate.ledger.available && w'.gate.ledger.available[k] == Offered(w'.router)
  {
  }

  /**
   * After any run that ends in a refresh and leaves everything on record live, the bare inequality holds if
   * and only if the read covers what the router holds: a treasury drained below that publishes zero, not the
   * shortfall.
   */
  lemma BareInequalityHoldsExactly(cfg: Config, genesis: nat, k: Key, run: seq<Event>, e: Event)
    requires Run(Start(cfg, genesis), cfg, k, run) && e.Refresh?
    requires Enabled(Final(Start(cfg, genesis), cfg, k, run), k, e)
    requires var w := Apply(Final(Start(cfg, genesis), cfg, k, run), cfg, k, e); w.times != [] && FullyLive(w, k)
    ensures var w := Apply(Final(Start(cfg, genesis), cfg, k, run), cfg, k, e);
            w.router.inventory.Some?
            && (Bare(w, k) <==> Held(w.router.authorizations) <= TreasuryCap(w.router.inventory.value))
  {
    StartHolds(cfg, genesis, k);
    RunKeeps(Start(cfg, genesis), cfg, k, run);
    var w := Final(Start(cfg, genesis), cfg, k, run);
    StepKeeps(w, cfg, k, e);
    RefreshPublishes(w, k, e.balance, e.allowance, e.height, e.acquired);
    CommittedIsEverything(Apply(w, cfg, k, e), k);
  }

  // ---- A run that breaks it -------------------------------------------------------------------------------

  const TREASURY := TokenAccount("treasury", "wbtc")
  const PLAIN := Config(0, None, None, None, false)
  const ACQUIRE := Action(None, Missing, [Spend(TREASURY, 10, true)])
  const BATCH := Batch("v", 100, 10)
  const UNKNOWN_FATE := Outcome(false, false, false, true, false, false, Some("tx"), None)

  /**
   * Read ten, reserve ten, sign for ten, and lose sight of the transaction. In the next block the treasury is
   * down to four, which the next refresh reads.
   */
  const DRAINED: seq<Event> := [
    Refresh(10, 10, 0, {}), Judge(OpenE(ACQUIRE, 0)), Sign(0, "d", BATCH, 0), SettleSigned(0, UNKNOWN_FATE),
    Block(1, map[]), Refresh(4, 4, 1, {})]

  /** What the treasury holds, and has allowed, is a matter of the height. */
  predicate ReadsByHeight(run: seq<Event>, balance: nat -> nat, allowance: nat -> nat) {
    forall i :: 0 <= i < |run| && run[i].Refresh? ==>
      run[i].balance == balance(run[i].height) && run[i].allowance == allowance(run[i].height)
  }

  /** Ten at genesis, four ever after. */
  function DrainedTo4(height: nat): nat {
    if height == 0 then 10 else 4
  }

  function Wbtc(): Key { KeyOf(TREASURY) }

  /** One record holds its amount once the gate has stopped reserving for it. */
  lemma HeldOfOne(a: Auth)
    ensures Held(map["d" := a]) == if a.backed then 0 else a.maxWbtcIn
  {
    var auths: Auths := map["d" := a];
    assert VaultsIn(auths) == {a.vaultId} by {
      assert auths["d"].vaultId in VaultsIn(auths);
    }
    SumTake(VaultsIn(auths), WorstOf(auths), a.vaultId);
    if a.backed {
      assert UnbackedOf(auths, a.vaultId) == {};
    } else {
      assert UnbackedOf(auths, a.vaultId) == {"d"};
      MaxTake(UnbackedOf(auths, a.vaultId), AmountIn(auths), "d");
    }
  }

  /** The ledger after publishing `amount` at `height` with `reserved` outstanding. */
  function Told(amount: int, height: nat, reserved: map<Key, int>): Ledger {
    Ledger(map[Wbtc() := amount], map[Wbtc() := 0], reserved, map[Wbtc() := height], map[])
  }

  function Slots1(settled: Option<Outcome>): seq<Slot> {
    [Slot(ACQUIRE.spend, settled)]
  }

  function Afterwards(g: Gate, auths: Auths, read: nat, signed: map<nat, Digest>, batches: map<Digest, Batch>): World {
    World(g, Router(auths, Some(Inventory(read, read, 0))), signed, batches, map[], [0])
  }

  const RUNNING := Safety(true, "", 0, false, 0, false)

  function W1(): World { Afterwards(Gate(RUNNING, Told(10, 0, map[]), 0, []), map[], 10, map[], map[]) }
  function W2(): World {
    Afterwards(Gate(RUNNING, Told(10, 0, map[Wbtc() := 10]), 1, Slots1(None)), map[], 10, map[], map[])
  }
  function Signed1(backed: bool): Auths { map["d" := Auth("v", 0, 100, 10, backed, None)] }

  function W3(): World {
    Afterwards(Gate(RUNNING, Told(10, 0, map[Wbtc() := 10]), 1, Slots1(None)), Signed1(true), 10, map[0 := "d"],
               map["d" := BATCH])
  }

  /** The slot is settled, and the gate was last told what `read` at `height` leaves beside the batch. */
  function Settled1(read: nat, height: nat): World {
    World(Gate(RUNNING, Told(0, height, map[Wbtc() := 0]), 0, Slots1(Some(UNKNOWN_FATE))),
          Router(Signed1(false), Some(Inventory(read, read, height))), map[0 := "d"], map["d" := BATCH], map[], [0])
  }

  function W4(): World { Settled1(10, 0) }
  function W5(): World { Settled1(10, 0).(times := [0, 1]) }
  function W6(): World { Settled1(4, 1).(times := [0, 1]) }

  lemma FirstRead()
    ensures Enabled(Start(PLAIN, 0), Wbtc(), DRAINED[0]) && Apply(Start(PLAIN, 0), PLAIN, Wbtc(), DRAINED[0]) == W1()
  {
    var none: Auths := map[];
    assert Retired(none, 0, 0, {}) == none;
    assert VaultsIn(none) == {};
  }

  lemma Admitted()
    ensures Enabled(W1(), Wbtc(), DRAINED[1]) && Apply(W1(), PLAIN, Wbtc(), DRAINED[1]) == W2()
  {
    var l, spend := W1().gate.ledger, ACQUIRE.spend;
    assert Capacity(l, Wbtc()) == 10;
    assert spend[..0] == [];
    assert SpendBlock(l, spend).None?;
    assert Reserve(map[], spend) == map[Wbtc() := 10];
  }

  lemma BatchSigned()
    ensures Enabled(W2(), Wbtc(), DRAINED[2]) && Apply(W2(), PLAIN, Wbtc(), DRAINED[2]) == W3()
  {
    assert ACQUIRE.spend[..0] == [];
    assert SpendOn(ACQUIRE.spend, Wbtc()) == 10;
  }

  lemma PublishTold(auths: Auths, read: nat, height: nat, was: int, at: nat, reserved: map<Key, int>, held: int)
    requires Held(auths) == held && at <= height
    ensures Published(Router(auths, Some(Inventory(read, read, height))), Told(was, at, reserved), Wbtc())
         == Told(Clamped(read, held), height, reserved)
  {
  }

  lemma FateLost()
    ensures Enabled(W3(), Wbtc(), DRAINED[3]) && Apply(W3(), PLAIN, Wbtc(), DRAINED[3]) == W4()
  {
    var spend := ACQUIRE.spend;
    assert spend[..0] == [];
    assert GateSpend(spend) == [];
    assert Unreserve(map[Wbtc() := 10], spend) == map[Wbtc() := 0];
    HeldOfOne(Signed1(false)["d"]);
    assert HandOver(W3().router, "d", false, None).authorizations == Signed1(false);
    PublishTold(Signed1(false), 10, 0, 10, 0, map[Wbtc() := 0], 10);
  }

  lemma BlockPasses()
    ensures Enabled(W4(), Wbtc(), DRAINED[4]) && Apply(W4(), PLAIN, Wbtc(), DRAINED[4]) == W5()
  {
    assert W4().times + [1] == W5().times;
  }

  lemma ReadAgain()
    ensures Enabled(W5(), Wbtc(), DRAINED[5]) && Apply(W5(), PLAIN, Wbtc(), DRAINED[5]) == W6()
  {
    KeptAgain();
    HeldOfOne(Signed1(false)["d"]);
    PublishTold(Signed1(false), 4, 1, 0, 0, map[Wbtc() := 0], 10);
  }

  lemma KeptAgain()
    ensures Retired(Signed1(false), 1, 1, {}) == Signed1(false)
  {
  }

  lemma RunOn(w: World, next: World, run: seq<Event>)
    requires run != [] && Enabled(w, Wbtc(), run[0]) && Apply(w, PLAIN, Wbtc(), run[0]) == next
    ensures Run(w, PLAIN, Wbtc(), run) <==> Run(next, PLAIN, Wbtc(), run[1..])
    ensures Run(w, PLAIN, Wbtc(), run) ==> Final(w, PLAIN, Wbtc(), run) == Final(next, PLAIN, Wbtc(), run[1..])
  {
  }

  lemma LastTwo()
    ensures Run(W4(), PLAIN, Wbtc(), DRAINED[4..]) && Final(W4(), PLAIN, Wbtc(), DRAINED[4..]) == W6()
  {
    BlockPasses();
    ReadAgain();
    assert DRAINED[4..][1..] == DRAINED[5..] && DRAINED[5..][1..] == [];
    RunOn(W5(), W6(), DRAINED[5..]);
    RunOn(W4(), W5(), DRAINED[4..]);
  }

  lemma LastFour()
    ensures Run(W2(), PLAIN, Wbtc(), DRAINED[2..]) && Final(W2(), PLAIN, Wbtc(), DRAINED[2..]) == W6()
  {
    LastTwo();
    FateLost();
    BatchSigned();
    assert DRAINED[3..][1..] == DRAINED[4..] && DRAINED[2..][1..] == DRAINED[3..];
    RunOn(W3(), W4(), DRAINED[3..]);
    RunOn(W2(), W3(), DRAINED[2..]);
  }

  lemma DrainedRun()
    ensures Run(Start(PLAIN, 0), PLAIN, Wbtc(), DRAINED) && Final(Start(PLAIN, 0), PLAIN, Wbtc(), DRAINED) == W6()
  {
    LastFour();
    FirstRead();
    Admitted();
    assert DRAINED[1..][1..] == DRAINED[2..];
    RunOn(W1(), W2(), DRAINED[1..]);
    RunOn(Start(PLAIN, 0), W1(), DRAINED);
  }

  lemma DrainedCommitsTen()
    ensures Committed(W6()) == 10
  {
    var w := W6();
    assert Live(w, "d");
    assert LiveOf(w, "v") == {"d"};
    MaxTake(LiveOf(w, "v"), BatchAmount(w.batches), "d");
    assert VaultsSigned(w) == {"v"} by {
      assert w.batches["d"].vaultId in VaultsSigned(w);
    }
    SumTake(VaultsSigned(w), WorstLive(w), "v");
  }

  lemma DrainedIsFullyLive()
    ensures FullyLive(W6(), Wbtc())
  {
    assert Live(W6(), "d");
  }

  lemma DrainedReadsByHeight()
    ensures ReadsByHeight(DRAINED, DrainedTo4, DrainedTo4)
  {
  }

  /** Where the run ends, nothing is reserved or published, and the bare bound is six below zero. */
  lemma DrainedIsBeyondBare()
    ensures var w := W6();
            w.times != [] && w.router.inventory.Some? && FullyLive(w, Wbtc()) && !Bare(w, Wbtc())
            && Committed(w) == 10 && TreasuryCap(w.router.inventory.value) == 4
  {
    DrainedCommitsTen();
    DrainedIsFullyLive();
  }

  /**
   * A treasury drained, in a later block, below what a settled batch can still take: the run ends with
   * nothing published and nothing reserved against a read of four and a live batch of ten, six above the bare
   * bound. Every read is the chain's one answer at its height, and everything on record is live, so this is
   * the failing side of the condition above.
   */
  lemma DrainedTreasuryBreaksTheBareInequality()
    ensures Run(Start(PLAIN, 0), PLAIN, Wbtc(), DRAINED) && ReadsByHeight(DRAINED, DrainedTo4, DrainedTo4)
    ensures var w := Final(Start(PLAIN, 0), PLAIN, Wbtc(), DRAINED);
            && w.times != [] && w.router.inventory.Some? && FullyLive(w, Wbtc()) && !Bare(w, Wbtc())
            && Committed(w) == 10 && TreasuryCap(w.router.inventory.value) == 4
  {
    DrainedRun();
    DrainedReadsByHeight();
    DrainedIsBeyondBare();
  }

  /** A capacity published below the height the gate has accepted is ignored, and its hold with it. */
  lemma OlderPublishIsIgnored(r: Router, l: Ledger, k: Key)
    requires r.inventory.Some? && k in l.snapshotBlock && r.inventory.value.block < l.snapshotBlock[k]
    ensures Published(r, l, k) == l
  {
  }
}
