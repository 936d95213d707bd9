/**
 * Capacity, exactly: what each operation of the gate does to it on every account, so that no amount is counted
 * twice, kept longer than its evidence allows, or charged to somebody else.
 */
module GateCapacity {
  import opened Common
  import opened RiskGate
  import opened GateLedger
  import opened ExposureSafety

  // ---- Accounts and declared amounts --------------------------------------------------------------------

  lemma SplitAtBar(a: string, x: string, b: string, y: string)
    requires '|' !in a && '|' !in b && a + ("|" + x) == b + ("|" + y)
    ensures a == b && x == y
  {
    var s, t := a + ("|" + x), b + ("|" + y);
    assert s[|a|] == '|' && t[|b|] == '|';
    assert forall i :: 0 <= i < |a| ==> s[i] == a[i];
    assert forall i :: 0 <= i < |b| ==> t[i] == b[i];
    assert |a| == |b|;
    assert s[..|a|] == a && t[..|b|] == b;
    assert s[|a| + 1..] == x && t[|b| + 1..] == y;
  }

  /** Two accounts share a ledger entry exactly if owner and token are the same up to letter case. */
  lemma KeysNameAccounts(a: TokenAccount, b: TokenAccount)
    requires '|' !in Lower(a.owner) && '|' !in Lower(b.owner)
    ensures KeyOf(a) == KeyOf(b) <==> Lower(a.owner) == Lower(b.owner) && Lower(a.token) == Lower(b.token)
  {
    if KeyOf(a) == KeyOf(b) {
      assert KeyOf(a) == Lower(a.owner) + ("|" + Lower(a.token)) && KeyOf(b) == Lower(b.owner) + ("|" + Lower(b.token));
      SplitAtBar(Lower(a.owner), Lower(a.token), Lower(b.owner), Lower(b.token));
    }
  }

  /** The part of a declared spend its funding mode keeps counting once the slot settles. */
  function CallerSpend(spend: seq<Spend>): seq<Spend> {
    if spend == [] then []
    else
      var last := spend[|spend| - 1];
      CallerSpend(spend[..|spend| - 1]) + if last.callerAccounts then [last] else []
  }

  /** What was declared is counted by the gate or by its caller, all of it and once. */
  lemma {:induction false} SpendIsConserved(spend: seq<Spend>, k: Key)
    ensures EntriesOn(GateSpend(spend), k) + SpendOn(CallerSpend(spend), k) == SpendOn(spend, k)
    decreases |spend|
  {
    if spend != [] {
      var n := |spend| - 1;
      SpendIsConserved(spend[..n], k);
      var rest, mine, last := GateSpend(spend[..n]), CallerSpend(spend[..n]), spend[n];
      if last.callerAccounts {
        assert (mine + [last])[..|mine|] == mine;
        assert GateSpend(spend) == rest + [] == rest;
      } else {
        assert (rest + [Entry(KeyOf(last.account), last.amount)])[..|rest|] == rest;
        assert CallerSpend(spend) == mine + [] == mine;
      }
    }
  }

  lemma {:induction false} NothingOfOurs(spend: seq<Spend>)
    ensures GateSpend(spend) == [] <==> forall j :: 0 <= j < |spend| ==> spend[j].callerAccounts
    decreases |spend|
  {
    if spend != [] {
      var n := |spend| - 1;
      NothingOfOurs(spend[..n]);
      assert forall j :: 0 <= j < n ==> spend[..n][j] == spend[j];
    }
  }

  // ---- Opening and settling -----------------------------------------------------------------------------

  /** An admitted action takes exactly what it declared, on every account. */
  lemma OpeningTakes(g: Gate, cfg: Config, now: int, action: Action, k: Key)
    ensures Capacity(OpenSlot(g, cfg, now, action).ledger, k)
         == Capacity(g.ledger, k) - if Evaluate(g, cfg, now, action).None? then SpendOn(action.spend, k) else 0
  {
    AdmitCapacity(g, action.spend, k);
  }

  /**
   * A settled slot gives all of it back, less what the gate goes on counting: the gate's own part, if the outcome
   * succeeded, is unresolved, or left our money spent or possibly spent, and its hash is not held already.
   */
  lemma SettlingReturns(g: Gate, cfg: Config, i: nat, o: Outcome, k: Key)
    requires IsOpen(g, i)
    ensures var counted := o.ok || o.unresolved || o.spent || o.spendUnknown;
            var held := o.txHash.Some? && o.txHash.value in g.ledger.holds;
            var spend := g.slots[i].spend;
            Capacity(Settle(g, cfg, i, o).ledger, k) == Capacity(g.ledger, k) + SpendOn(spend, k)
              - if counted && !held then SpendOn(spend, k) - SpendOn(CallerSpend(spend), k) else 0
  {
    BookCapacity(g.ledger, g.slots[i].spend, o, k);
    SpendIsConserved(g.slots[i].spend, k);
  }

  /**
   * With a hash the gate's part is held under that hash, at the height it is known to have mined at; without one it
   * is counted until the next read. A spend its caller accounts for in full is not held at all.
   */
  lemma SettlingHolds(g: Gate, cfg: Config, i: nat, o: Outcome, k: Key)
    requires IsOpen(g, i) && (o.ok || o.unresolved || o.spent || o.spendUnknown)
    ensures var spend, l, l' := g.slots[i].spend, g.ledger, Settle(g, cfg, i, o).ledger;
            var amount := SpendOn(spend, k) - SpendOn(CallerSpend(spend), k);
            if o.txHash.None?
            then l'.holds == l.holds && At(l'.spentSinceRefresh, k) == At(l.spentSinceRefresh, k) + amount
            else if forall j :: 0 <= j < |spend| ==> spend[j].callerAccounts then l' == l.(reserved := l'.reserved)
            else
              && At(l'.spentSinceRefresh, k) == At(l.spentSinceRefresh, k)
              && (o.txHash.value !in l.holds ==> Owes(l'.holds, o.txHash.value, k) == amount)
              && (o.txHash.value in l'.holds && o.minedAtBlock.Some? ==>
                    if o.txHash.value in l.holds && l.holds[o.txHash.value].minedAtBlock.Some?
                    then l'.holds[o.txHash.value].minedAtBlock == l.holds[o.txHash.value].minedAtBlock
                    else l'.holds[o.txHash.value].minedAtBlock == o.minedAtBlock)
  {
    SpendIsConserved(g.slots[i].spend, k);
    NothingOfOurs(g.slots[i].spend);
    if o.txHash.None? {
      ChargeAt(g.ledger.spentSinceRefresh, GateSpend(g.slots[i].spend), k);
    }
  }

  // ---- Balance reads ----------------------------------------------------------------------------------

  /** A publication older than the accepted one changes nothing; any other sets its account and no other. */
  lemma PublicationTells(l: Ledger, account: Key, amount: int, block: Option<nat>, k: Key)
    ensures var l' := SetAvailable(l, account, amount, block);
            var older := block.Some? && account in l.snapshotBlock && block.value < l.snapshotBlock[account];
            if older then l' == l
            else
              && Capacity(l', k) == (if k == account then amount - HeldFor(l.holds, k) - At(l.reserved, k)
                                     else Capacity(l, k))
              && l'.available.Keys == l.available.Keys + {account}
              && (block.Some? ==> l'.snapshotBlock == l.snapshotBlock[account := block.value])
              && (block.None? ==> l'.snapshotBlock == l.snapshotBlock)
  {
  }

  function StillOwed(holds: map<Hash, Hold>, retired: seq<Hash>, k: Key, h: Hash): int {
    if h in retired then 0 else HoldOn(holds, k)(h)
  }

  function StillOwing(holds: map<Hash, Hold>, retired: seq<Hash>, k: Key): Hash -> int {
    (h: Hash) => StillOwed(holds, retired, k, h)
  }

  /** A snapshot lets go of exactly the retired outflows, on exactly the accounts it refreshes. */
  lemma RetiringReleases(holds: map<Hash, Hold>, retired: seq<Hash>, keys: set<Key>, k: Key)
    ensures HeldFor(RetireAll(holds, retired, keys), k)
         == if k in keys then Sum(holds.Keys, StillOwing(holds, retired, k)) else HeldFor(holds, k)
  {
    var after := RetireAll(holds, retired, keys);
    var was := if k in keys then StillOwing(holds, retired, k) else HoldOn(holds, k);
    RetireAllOwes(holds, retired, keys, "", k);
    forall h | h in holds
      ensures HoldOn(after, k)(h) == was(h) && 0 <= was(h)
    {
      RetireAllOwes(holds, retired, keys, h, k);
    }
    SumDropZeros(after.Keys, holds.Keys, HoldOn(after, k));
    SumSame(holds.Keys, HoldOn(after, k), was);
  }

  lemma {:induction false} PublishedElsewhere(l: Ledger, balances: seq<Balance>, block: nat, k: Key)
    requires forall i :: 0 <= i < |balances| ==> KeyOf(balances[i].account) != k
    ensures var p := Publish(l, balances, block);
            && At(p.available, k) == At(l.available, k) && At(p.spentSinceRefresh, k) == At(l.spentSinceRefresh, k)
            && (k in p.snapshotBlock <==> k in l.snapshotBlock)
            && (k in p.snapshotBlock ==> p.snapshotBlock[k] == l.snapshotBlock[k])
    decreases |balances|
  {
    if balances != [] {
      PublishedElsewhere(l, balances[..|balances| - 1], block, k);
    }
  }

  /** `i` is the last listing of its account in a snapshot. */
  predicate LastListed(balances: seq<Balance>, i: nat) {
    i < |balances| && forall j :: i < j < |balances| ==> KeyOf(balances[j].account) != KeyOf(balances[i].account)
  }

  lemma {:induction false} PublishedAt(l: Ledger, balances: seq<Balance>, block: nat, i: nat)
    requires LastListed(balances, i)
    requires var k := KeyOf(balances[i].account); k in l.snapshotBlock ==> l.snapshotBlock[k] <= block
    ensures var p, k := Publish(l, balances, block), KeyOf(balances[i].account);
            && k in p.available && p.available[k] == balances[i].amount && At(p.spentSinceRefresh, k) == 0
            && k in p.snapshotBlock && p.snapshotBlock[k] == block
    decreases |balances|
  {
    var n, k := |balances| - 1, KeyOf(balances[i].account);
    if i < n {
      PublishedAt(l, balances[..n], block, i);
    } else {
      NotPublishedAbove(l, balances[..n], block, k);
    }
  }

  lemma {:induction false} NotPublishedAbove(l: Ledger, balances: seq<Balance>, block: nat, k: Key)
    requires k in l.snapshotBlock ==> l.snapshotBlock[k] <= block
    ensures var p := Publish(l, balances, block); k in p.snapshotBlock ==> p.snapshotBlock[k] <= block
    decreases |balances|
  {
    if balances != [] {
      NotPublishedAbove(l, balances[..|balances| - 1], block, k);
    }
  }

  /**
   * After a snapshot at no lower height an account it refreshes has its balance, less what is still reserved and
   * every hold but the retired ones. An account it does not refresh has what it had.
   */
  lemma SnapshotTells(l: Ledger, balances: seq<Balance>, block: nat, retired: seq<Hash>, i: nat)
    requires LastListed(balances, i)
    requires var k := KeyOf(balances[i].account); k in l.snapshotBlock ==> l.snapshotBlock[k] <= block
    ensures var l', k := ApplySnapshot(l, balances, block, retired), KeyOf(balances[i].account);
            Capacity(l', k)
              == balances[i].amount - Sum(l.holds.Keys, StillOwing(l.holds, retired, k)) - At(l.reserved, k)
  {
    var k, keys := KeyOf(balances[i].account), Refreshed(balances);
    var mid := l.(holds := RetireAll(l.holds, retired, keys));
    assert k in keys;
    RetiringReleases(l.holds, retired, keys, k);
    PublishedAt(mid, balances, block, i);
    PublishFrame(mid, balances, block);
  }

  lemma SnapshotLeavesOthers(l: Ledger, balances: seq<Balance>, block: nat, retired: seq<Hash>, k: Key)
    requires k !in Refreshed(balances)
    ensures Capacity(ApplySnapshot(l, balances, block, retired), k) == Capacity(l, k)
  {
    var keys := Refreshed(balances);
    var mid := l.(holds := RetireAll(l.holds, retired, keys));
    RetiringReleases(l.holds, retired, keys, k);
    forall i | 0 <= i < |balances|
      ensures KeyOf(balances[i].account) != k
    {
    }
    PublishedElsewhere(mid, balances, block, k);
    PublishFrame(mid, balances, block);
  }
}
