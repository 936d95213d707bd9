/**
 * Router funding's own account of the treasury: every signed batch that may still take WBTC, and the
 * capacity published to the gate net of the batches the gate no longer reserves for.
 */
module RouterFunding {
  import opened Common
  import opened RiskGate

  type Digest = string
  type Vault = string

  const MAX_CHAIN_TIME_LEAD_SECONDS := 60
  const AUTHORIZATION_EXPIRY_MARGIN_SECONDS := 24
  const SCAN_REORG_MARGIN_BLOCKS := 12

  /** A signed batch. `backed` while the gate still reserves its amount. */
  datatype Auth = Auth(vaultId: Vault, block: nat, deadline: nat, maxWbtcIn: nat, backed: bool, executedAt: Option<nat>)

  type Auths = map<Digest, Auth>

  datatype Inventory = Inventory(balance: nat, allowance: nat, block: nat)

  datatype Router = Router(authorizations: Auths, inventory: Option<Inventory>)

  function TreasuryCap(i: Inventory): nat {
    Min(i.balance, i.allowance)
  }

  // ---- What the map holds -------------------------------------------------------------------------

  function AmountIn(auths: Auths): Digest -> int {
    d => if d in auths then auths[d].maxWbtcIn else 0
  }

  /** Unbacked batches of one vault: at most one of them can ever take anything. */
  function UnbackedOf(auths: Auths, v: Vault): set<Digest> {
    set d | d in auths && !auths[d].backed && auths[d].vaultId == v
  }

  ghost function WorstOf(auths: Auths): Vault -> int {
    v => MaxOver(UnbackedOf(auths, v), AmountIn(auths))
  }

  function VaultsIn(auths: Auths): set<Vault> {
    set d | d in auths :: auths[d].vaultId
  }

  /** The money held back from the gate: for each vault its largest unbacked batch. */
  ghost function Held(auths: Auths): int {
    Sum(VaultsIn(auths), WorstOf(auths))
  }

  function Clamped(cap: int, held: int): int {
    if cap > held then cap - held else 0
  }

  ghost function Published(r: Router, l: Ledger, k: Key): Ledger {
    if r.inventory.None? then l
    else
      var i := r.inventory.value;
      SetAvailable(l, k, Clamped(TreasuryCap(i), Held(r.authorizations)), Some(i.block))
  }

  // ---- Retirement -----------------------------------------------------------------------------------

  /** Our own acquisition mined at or below the read, or the deadline passed with its margin. */
  predicate Lapsed(a: Auth, head: nat, chainTime: nat) {
    (a.executedAt.Some? && a.executedAt.value <= head) || a.deadline + AUTHORIZATION_EXPIRY_MARGIN_SECONDS < chainTime
  }

  function WithoutLapsed(auths: Auths, head: nat, chainTime: nat): Auths {
    map d | d in auths && !Lapsed(auths[d], head, chainTime) :: auths[d]
  }

  function WithoutVaults(auths: Auths, acquired: set<Vault>): Auths {
    map d | d in auths && auths[d].vaultId !in acquired :: auths[d]
  }

  predicate IsEarliest(auths: Auths, block: nat) {
    && (forall d :: d in auths ==> block <= auths[d].block)
    && (exists d :: d in auths && auths[d].block == block)
  }

  /** First block of the log scan, given the earliest height a live batch was recorded at. */
  function ScanFrom(earliest: nat, head: nat): nat {
    var anchor := if earliest > head then head else earliest;
    if anchor > SCAN_REORG_MARGIN_BLOCKS then anchor - SCAN_REORG_MARGIN_BLOCKS else 0
  }

  /**
   * The scan reaches back beyond every live batch, by the margin as far as there are blocks, and starts at no
   * block past the head. It goes back no further than the earliest batch and the head ask for.
   */
  lemma ScanCoversEveryRecord(auths: Auths, earliest: nat, head: nat)
    requires IsEarliest(auths, earliest)
    ensures ScanFrom(earliest, head) <= head
    ensures forall d :: d in auths ==> ScanFrom(earliest, head) == 0 || ScanFrom(earliest, head) + 12 <= auths[d].block
    ensures 0 < ScanFrom(earliest, head) ==>
              ScanFrom(earliest, head) + 12 == head
              || exists d :: d in auths && ScanFrom(earliest, head) + 12 == auths[d].block
    ensures ScanFrom(earliest, head) == 0 ==> head <= 12 || exists d :: d in auths && auths[d].block <= 12
  {
  }

  // ---- Signing and settling -------------------------------------------------------------------------

  datatype Build = Signed(deadline: nat) | ClockLeads

  /** The deadline to sign, or a refusal when the block's timestamp runs too far ahead of this host. */
  function DeadlineFor(timestamp: nat, hostSeconds: nat, deadlineSeconds: nat): (b: Build)
    ensures b.Signed? <==> timestamp <= hostSeconds + MAX_CHAIN_TIME_LEAD_SECONDS
    ensures b.Signed? ==> b.deadline <= hostSeconds + MAX_CHAIN_TIME_LEAD_SECONDS + deadlineSeconds
  {
    if timestamp - hostSeconds > MAX_CHAIN_TIME_LEAD_SECONDS then ClockLeads else Signed(timestamp + deadlineSeconds)
  }

  /** A signed batch lives exactly as long as configured, counted from the block it was signed on. */
  lemma SignedForItsLifetime(timestamp: nat, hostSeconds: nat, deadlineSeconds: nat, time: nat)
    requires DeadlineFor(timestamp, hostSeconds, deadlineSeconds).Signed?
    ensures time <= DeadlineFor(timestamp, hostSeconds, deadlineSeconds).deadline <==>
              time - timestamp <= deadlineSeconds
  {
  }

  function Record(r: Router, d: Digest, v: Vault, block: nat, deadline: nat, maxWbtcIn: nat): Router {
    r.(authorizations := r.authorizations[d := Auth(v, block, deadline, maxWbtcIn, true, None)])
  }

  /** A signed batch is on record as it was signed, at the block it was signed on, with the gate still reserving. */
  lemma RecordedAsSigned(r: Router, d: Digest, v: Vault, block: nat, deadline: nat, maxWbtcIn: nat, x: Digest)
    ensures var now := Record(r, d, v, block, deadline, maxWbtcIn).authorizations;
            && (x in now <==> x == d || x in r.authorizations)
            && (x in now && x != d ==> now[x] == r.authorizations[x])
            && now[d].vaultId == v && now[d].block == block && now[d].deadline == deadline
            && now[d].maxWbtcIn == maxWbtcIn && now[d].backed && now[d].executedAt.None?
    ensures Record(r, d, v, block, deadline, maxWbtcIn).inventory == r.inventory
  {
  }

  /** The gate stops reserving: from here on the map holds the batch, executed or not. */
  function HandOver(r: Router, d: Digest, consumed: bool, minedAt: Option<nat>): Router {
    if d !in r.authorizations then r
    else
      var a := r.authorizations[d].(backed := false);
      r.(authorizations := r.authorizations[d := if consumed && minedAt.Some? then a.(executedAt := minedAt) else a])
  }

  // ---- Held is a tight bound -------------------------------------------------------------------------

  /** Settled batches that could all execute: one for each vault at most, since a vault is acquired once. */
  predicate Selection(auths: Auths, s: set<Digest>) {
    && (forall d :: d in s ==> d in auths && !auths[d].backed)
    && (forall d, e :: d in s && e in s && auths[d].vaultId == auths[e].vaultId ==> d == e)
  }

  lemma HeldBoundsEverySelection(auths: Auths, s: set<Digest>)
    requires Selection(auths, s)
    ensures Sum(s, AmountIn(auths)) <= Held(auths)
  {
    var vaultOf: Digest -> Vault := d => if d in auths then auths[d].vaultId else "";
    forall v | v in VaultsIn(auths)
      ensures 0 <= WorstOf(auths)(v)
    {
      MaxAttained(UnbackedOf(auths, v), AmountIn(auths));
    }
    forall d | d in s
      ensures vaultOf(d) in VaultsIn(auths) && AmountIn(auths)(d) <= WorstOf(auths)(vaultOf(d))
    {
      MaxAtLeast(UnbackedOf(auths, vaultOf(d)), AmountIn(auths), d);
    }
    SumPaired(s, AmountIn(auths), VaultsIn(auths), WorstOf(auths), vaultOf);
  }

  /** A selection that pays, among these vaults, the worst of each. */
  ghost predicate PaysWorst(auths: Auths, s: set<Digest>, vaults: set<Vault>) {
    && Selection(auths, s)
    && (forall d :: d in s ==> auths[d].vaultId in vaults)
    && Sum(s, AmountIn(auths)) == Sum(vaults, WorstOf(auths))
  }

  lemma PickWorst(auths: Auths, v: Vault) returns (d: Digest)
    requires WorstOf(auths)(v) != 0
    ensures d in auths && !auths[d].backed && auths[d].vaultId == v && auths[d].maxWbtcIn == WorstOf(auths)(v)
  {
    MaxAttained(UnbackedOf(auths, v), AmountIn(auths));
    d :| d in UnbackedOf(auths, v) && AmountIn(auths)(d) == MaxOver(UnbackedOf(auths, v), AmountIn(auths));
  }

  lemma SelectionGrows(auths: Auths, s: set<Digest>, vaults: set<Vault>, d: Digest)
    requires PaysWorst(auths, s, vaults)
    requires d in auths && !auths[d].backed && auths[d].vaultId !in vaults
    ensures Selection(auths, s + {d}) && Sum(s + {d}, AmountIn(auths)) == Sum(s, AmountIn(auths)) + auths[d].maxWbtcIn
  {
    SumTake(s + {d}, AmountIn(auths), d);
    assert s + {d} - {d} == s;
  }

  lemma OneMoreVault(auths: Auths, s: set<Digest>, vaults: set<Vault>, v: Vault) returns (t: set<Digest>)
    requires PaysWorst(auths, s, vaults) && v !in vaults
    ensures PaysWorst(auths, t, vaults + {v})
  {
    SumTake(vaults + {v}, WorstOf(auths), v);
    assert vaults + {v} - {v} == vaults;
    if WorstOf(auths)(v) == 0 {
      t := s;
    } else {
      var d := PickWorst(auths, v);
      SelectionGrows(auths, s, vaults, d);
      t := s + {d};
    }
  }

  lemma {:induction false} WorstSelection(auths: Auths, vaults: set<Vault>) returns (s: set<Digest>)
    ensures PaysWorst(auths, s, vaults)
    decreases vaults
  {
    if vaults == {} {
      s := {};
    } else {
      var v :| v in vaults;
      var rest := WorstSelection(auths, vaults - {v});
      s := OneMoreVault(auths, rest, vaults - {v}, v);
      assert vaults - {v} + {v} == vaults;
    }
  }

  /** Some selection of settled batches takes exactly what is held, so nothing smaller would do. */
  lemma SomeSelectionAttainsHeld(auths: Auths)
    ensures exists s :: Selection(auths, s) && Sum(s, AmountIn(auths)) == Held(auths)
  {
    var s := WorstSelection(auths, VaultsIn(auths));
  }

  /** With `x` handed to the gate, the treasury can still pay whatever settled batches manage to execute. */
  ghost predicate Spares(auths: Auths, balance: nat, allowance: nat, x: int) {
    0 <= x && forall s :: Selection(auths, s) ==> x + Sum(s, AmountIn(auths)) <= Min(balance, allowance)
  }

  /** `x` is the most the gate may be told: the largest amount that can be spared, or nothing if none can. */
  ghost predicate MostSpared(auths: Auths, balance: nat, allowance: nat, x: int) {
    && (forall y :: Spares(auths, balance, allowance, y) ==> y <= x)
    && (Spares(auths, balance, allowance, x) || (x == 0 && forall y :: !Spares(auths, balance, allowance, y)))
  }

  lemma ClampedIsMostSpared(auths: Auths, balance: nat, allowance: nat)
    ensures MostSpared(auths, balance, allowance, Clamped(Min(balance, allowance), Held(auths)))
  {
    var cap := Min(balance, allowance);
    forall s | Selection(auths, s)
      ensures Sum(s, AmountIn(auths)) <= Held(auths)
    {
      HeldBoundsEverySelection(auths, s);
    }
    SomeSelectionAttainsHeld(auths);
    var worst :| Selection(auths, worst) && Sum(worst, AmountIn(auths)) == Held(auths);
    forall y | Spares(auths, balance, allowance, y)
      ensures y + Held(auths) <= cap
    {
    }
    if Held(auths) <= cap {
      assert Spares(auths, balance, allowance, cap - Held(auths));
    }
  }

  /** A publication at no lower height tells the gate exactly that, at its own height, and touches nothing else. */
  lemma PublicationIsMostSpared(r: Router, l: Ledger, k: Key)
    requires r.inventory.Some? && (k in l.snapshotBlock ==> l.snapshotBlock[k] <= r.inventory.value.block)
    ensures var l', i := Published(r, l, k), r.inventory.value;
            && k in l'.available && MostSpared(r.authorizations, i.balance, i.allowance, l'.available[k])
            && l'.snapshotBlock == l.snapshotBlock[k := i.block] && At(l'.spentSinceRefresh, k) == 0
            && l'.reserved == l.reserved && l'.holds == l.holds
            && forall x :: x != k ==> At(l'.available, x) == At(l.available, x)
                                      && At(l'.spentSinceRefresh, x) == At(l.spentSinceRefresh, x)
  {
    ClampedIsMostSpared(r.authorizations, r.inventory.value.balance, r.inventory.value.allowance);
  }

  /** Signing a vault again under a smaller amount holds nothing more, however often it is done. */
  lemma ResigningDoesNotStack(auths: Auths, d: Digest, e: Digest, a: Auth)
    requires d in auths && !auths[d].backed && e !in auths
    requires !a.backed && a.vaultId == auths[d].vaultId && a.maxWbtcIn <= auths[d].maxWbtcIn
    ensures Held(auths[e := a]) == Held(auths)
  {
    var after := auths[e := a];
    assert VaultsIn(after) == VaultsIn(auths) by {
      forall v | v in VaultsIn(after)
        ensures v in VaultsIn(auths)
      {
        var x :| x in after && after[x].vaultId == v;
        assert auths[if x == e then d else x].vaultId == v;
      }
      forall v | v in VaultsIn(auths)
        ensures v in VaultsIn(after)
      {
        var x :| x in auths && auths[x].vaultId == v;
        assert after[x].vaultId == v;
      }
    }
    forall v | v in VaultsIn(auths)
      ensures WorstOf(after)(v) == WorstOf(auths)(v)
    {
      if v == a.vaultId {
        MaxTake(UnbackedOf(after, v), AmountIn(after), e);
        assert UnbackedOf(after, v) - {e} == UnbackedOf(auths, v);
        MaxSame(UnbackedOf(auths, v), AmountIn(after), AmountIn(auths));
        MaxAtLeast(UnbackedOf(auths, v), AmountIn(auths), d);
      } else {
        assert UnbackedOf(after, v) == UnbackedOf(auths, v);
        MaxSame(UnbackedOf(auths, v), AmountIn(after), AmountIn(auths));
      }
    }
    SumSame(VaultsIn(auths), WorstOf(after), WorstOf(auths));
  }

  lemma {:induction false} MaxSame<T>(s: set<T>, f: T -> int, g: T -> int)
    requires forall x :: x in s ==> f(x) == g(x)
    ensures MaxOver(s, f) == MaxOver(s, g)
    decreases s
  {
    if s != {} {
      var x :| x in s;
      MaxTake(s, f, x);
      MaxTake(s, g, x);
      MaxSame(s - {x}, f, g);
    }
  }

  // ---- Summing what is held ------------------------------------------------------------------------------

  lemma SeenOneMore(auths: Auths, v: Vault, seen: set<Digest>, d: Digest)
    requires d in auths && d !in seen
    ensures MaxOver(UnbackedOf(auths, v) * (seen + {d}), AmountIn(auths))
         == if d in UnbackedOf(auths, v)
            then Max(auths[d].maxWbtcIn, MaxOver(UnbackedOf(auths, v) * seen, AmountIn(auths)))
            else MaxOver(UnbackedOf(auths, v) * seen, AmountIn(auths))
  {
    var now := UnbackedOf(auths, v) * (seen + {d});
    if d in UnbackedOf(auths, v) {
      MaxTake(now, AmountIn(auths), d);
      assert now - {d} == UnbackedOf(auths, v) * seen;
    } else {
      assert now == UnbackedOf(auths, v) * seen;
    }
    MaxAttained(UnbackedOf(auths, v) * seen, AmountIn(auths));
  }

  /** `worst` is right for the batches seen so far. */
  ghost predicate WorstSoFar(auths: Auths, worst: map<Vault, nat>, seen: set<Digest>) {
    && worst.Keys <= VaultsIn(auths)
    && forall v :: At(worst, v) == MaxOver(UnbackedOf(auths, v) * seen, AmountIn(auths))
  }

  function Raised(worst: map<Vault, nat>, a: Auth): map<Vault, nat> {
    if !a.backed && a.maxWbtcIn > (if a.vaultId in worst then worst[a.vaultId] else 0)
    then worst[a.vaultId := a.maxWbtcIn] else worst
  }

  method Raise(worst: map<Vault, nat>, a: Auth) returns (r: map<Vault, nat>)
    ensures r == Raised(worst, a)
  {
    r := worst;
    if !a.backed {
      var current := if a.vaultId in worst then worst[a.vaultId] else 0;
      if a.maxWbtcIn > current {
        r := worst[a.vaultId := a.maxWbtcIn];
      }
    }
  }

  lemma WorstAtStart(auths: Auths)
    ensures WorstSoFar(auths, map[], {})
  {
    forall v
      ensures At<Vault>(map[], v) == MaxOver(UnbackedOf(auths, v) * {}, AmountIn(auths))
    {
      assert UnbackedOf(auths, v) * {} == {};
    }
  }

  lemma WorstStep(auths: Auths, worst: map<Vault, nat>, seen: set<Digest>, d: Digest)
    requires WorstSoFar(auths, worst, seen) && d in auths && d !in seen
    ensures WorstSoFar(auths, Raised(worst, auths[d]), seen + {d})
  {
    assert auths[d].vaultId in VaultsIn(auths);
    var after := Raised(worst, auths[d]);
    forall v
      ensures At(after, v) == MaxOver(UnbackedOf(auths, v) * (seen + {d}), AmountIn(auths))
    {
      SeenOneMore(auths, v, seen, d);
      assert At(worst, v) == MaxOver(UnbackedOf(auths, v) * seen, AmountIn(auths));
    }
  }

  lemma WorstWhenAllSeen(auths: Auths, worst: map<Vault, nat>)
    requires WorstSoFar(auths, worst, auths.Keys)
    ensures forall v :: At(worst, v) == WorstOf(auths)(v)
  {
    forall v
      ensures At(worst, v) == WorstOf(auths)(v)
    {
      assert UnbackedOf(auths, v) * auths.Keys == UnbackedOf(auths, v);
    }
  }

  /** The largest unbacked amount of each vault. */
  method WorstPerVault(auths: Auths) returns (worst: map<Vault, nat>)
    ensures worst.Keys <= VaultsIn(auths)
    ensures forall v :: At(worst, v) == WorstOf(auths)(v)
  {
    worst := map[];
    var seen: set<Digest>, todo := {}, auths.Keys;
    WorstAtStart(auths);
    while todo != {}
      invariant seen + todo == auths.Keys && seen !! todo
      invariant WorstSoFar(auths, worst, seen)
      decreases |todo|
    {
      var d :| d in todo;
      WorstStep(auths, worst, seen, d);
      worst := Raise(worst, auths[d]);
      seen, todo := seen + {d}, todo - {d};
    }
    assert seen == auths.Keys;
    WorstWhenAllSeen(auths, worst);
  }

  method TotalHeld(auths: Auths, worst: map<Vault, nat>) returns (held: int)
    requires worst.Keys <= VaultsIn(auths)
    requires forall v :: At(worst, v) == WorstOf(auths)(v)
    ensures held == Held(auths)
  {
    held := 0;
    var todo := worst.Keys;
    while todo != {}
      invariant todo <= worst.Keys
      invariant held + Sum(todo, WorstOf(auths)) == Sum(worst.Keys, WorstOf(auths))
      decreases |todo|
    {
      var v :| v in todo;
      SumTake(todo, WorstOf(auths), v);
      assert At(worst, v) == worst[v];
      held := held + worst[v];
      todo := todo - {v};
    }
    WorstCoversHeld(auths, worst);
  }

  lemma WorstCoversHeld(auths: Auths, worst: map<Vault, nat>)
    requires worst.Keys <= VaultsIn(auths)
    requires forall v :: At(worst, v) == WorstOf(auths)(v)
    ensures Sum(worst.Keys, WorstOf(auths)) == Held(auths)
  {
    forall v | v in VaultsIn(auths)
      ensures 0 <= WorstOf(auths)(v) && (v !in worst ==> WorstOf(auths)(v) == 0)
    {
      assert At(worst, v) == WorstOf(auths)(v);
    }
    SumDropZeros(worst.Keys, VaultsIn(auths), WorstOf(auths));
  }

  // ---- The funding mode itself -------------------------------------------------------------------------

  class Funding {
    const risk: RiskGate
    const treasury: TokenAccount
    var authorizations: Auths
    var inventory: Option<Inventory>

    function View(): Router
      reads this
    {
      Router(authorizations, inventory)
    }

    constructor (risk: RiskGate, treasury: TokenAccount)
      ensures this.risk == risk && this.treasury == treasury && View() == Router(map[], None)
    {
      this.risk, this.treasury := risk, treasury;
      authorizations, inventory := map[], None;
    }

    /** The gate has accepted nothing for the treasury above this height. */
    predicate NotAbove(l: Ledger, block: nat)
      reads this
    {
      KeyOf(treasury) in l.snapshotBlock ==> l.snapshotBlock[KeyOf(treasury)] <= block
    }

    /** The gate has been told, for the height of the read, the most the read can spare beside settled batches. */
    ghost predicate TellsTheMost(l: Ledger)
      reads this
      requires inventory.Some?
    {
      && KeyOf(treasury) in l.available && KeyOf(treasury) in l.snapshotBlock
      && l.snapshotBlock[KeyOf(treasury)] == inventory.value.block
      && MostSpared(authorizations, inventory.value.balance, inventory.value.allowance, l.available[KeyOf(treasury)])
    }

    method PublishCapacity()
      modifies risk`available, risk`spentSinceRefresh, risk`snapshotBlock
      ensures risk.Tokens() == Published(View(), old(risk.Tokens()), KeyOf(treasury))
      ensures inventory.Some? && NotAbove(old(risk.Tokens()), inventory.value.block) ==> TellsTheMost(risk.Tokens())
    {
      if inventory.None? {
        return;
      }
      var worst := WorstPerVault(authorizations);
      var held := TotalHeld(authorizations, worst);
      var Inventory(balance, allowance, block) := inventory.value;
      var capacity := if balance < allowance then balance else allowance;
      risk.Refresh(treasury, if capacity > held then capacity - held else 0, Some(block));
      ClampedIsMostSpared(authorizations, balance, allowance);
    }

    /** Drop what can no longer take anything: lapsed first, then every batch of a vault seen acquired. */
    method RetireAuthorizations(head: nat, chainTime: nat, acquiredSince: nat -> set<Vault>)
      modifies this`authorizations
      ensures var kept := WithoutLapsed(old(authorizations), head, chainTime);
              if kept == map[] then authorizations == kept
              else exists earliest :: IsEarliest(kept, earliest)
                     && authorizations == WithoutVaults(kept, acquiredSince(ScanFrom(earliest, head)))
    {
      authorizations := map d | d in authorizations && !Lapsed(authorizations[d], head, chainTime) :: authorizations[d];
      if authorizations == map[] {
        return;
      }
      var earliest := Earliest();
      var acquired := acquiredSince(ScanFrom(earliest, head));
      authorizations := map d | d in authorizations && authorizations[d].vaultId !in acquired :: authorizations[d];
    }

    method Earliest() returns (low: nat)
      requires authorizations != map[]
      ensures IsEarliest(authorizations, low)
    {
      var first :| first in authorizations;
      low := authorizations[first].block;
      ghost var at := first;
      var todo := authorizations.Keys;
      while todo != {}
        invariant todo <= authorizations.Keys
        invariant at in authorizations && authorizations[at].block == low
        invariant forall d :: d in authorizations && d !in todo ==> low <= authorizations[d].block
        decreases |todo|
      {
        var d :| d in todo;
        if authorizations[d].block < low {
          low := authorizations[d].block;
          at := d;
        }
        todo := todo - {d};
      }
    }

    method RefreshInventory(balance: nat, allowance: nat, head: nat, chainTime: nat, acquiredSince: nat -> set<Vault>)
      modifies this`authorizations, this`inventory, risk`available, risk`spentSinceRefresh, risk`snapshotBlock
      ensures inventory == Some(Inventory(balance, allowance, head))
      ensures var kept := WithoutLapsed(old(authorizations), head, chainTime);
              if kept == map[] then authorizations == kept
              else exists earliest :: IsEarliest(kept, earliest)
                     && authorizations == WithoutVaults(kept, acquiredSince(ScanFrom(earliest, head)))
      ensures risk.Tokens() == Published(View(), old(risk.Tokens()), KeyOf(treasury))
      ensures NotAbove(old(risk.Tokens()), head) ==> TellsTheMost(risk.Tokens())
    {
      RetireAuthorizations(head, chainTime, acquiredSince);
      inventory := Some(Inventory(balance, allowance, head));
      PublishCapacity();
    }

    /** Recorded only once the signature exists. */
    method RecordSigned(d: Digest, v: Vault, block: nat, timestamp: nat, hostSeconds: nat, deadlineSeconds: nat,
                        maxWbtcIn: nat)
      returns (built: Build)
      modifies this`authorizations
      ensures built == DeadlineFor(timestamp, hostSeconds, deadlineSeconds)
      ensures View() ==
                if built.ClockLeads? then old(View()) else Record(old(View()), d, v, block, built.deadline, maxWbtcIn)
    {
      built := DeadlineFor(timestamp, hostSeconds, deadlineSeconds);
      if built.Signed? {
        authorizations := authorizations[d := Auth(v, block, built.deadline, maxWbtcIn, true, None)];
      }
    }

    method SettleAuthorization(id: Option<Digest>, consumed: bool, minedAt: Option<nat>)
      modifies this`authorizations, risk`available, risk`spentSinceRefresh, risk`snapshotBlock
      ensures View() == if id.None? then old(View()) else HandOver(old(View()), id.value, consumed, minedAt)
      ensures risk.Tokens() == if id.None? || id.value !in old(authorizations) then old(risk.Tokens())
                               else Published(View(), old(risk.Tokens()), KeyOf(treasury))
      ensures id.Some? && id.value in old(authorizations) ==>
                inventory.Some? && NotAbove(old(risk.Tokens()), inventory.value.block) ==> TellsTheMost(risk.Tokens())
    {
      if id.None? || id.value !in authorizations {
        return;
      }
      authorizations := authorizations[id.value := authorizations[id.value].(backed := false)];
      if consumed && minedAt.Some? {
        authorizations := authorizations[id.value := authorizations[id.value].(executedAt := minedAt)];
      }
      PublishCapacity();
    }
  }
}
