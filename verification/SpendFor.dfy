/** What one inventory-funded liquidation declares to the gate: one summed entry for each token. */
module SpendFor {
  import opened Common
  import opened RiskGate
  import opened GateLedger

  /** `debtReserveId` indexes the Spoke's full reserve list. */
  datatype Candidate = Candidate(debtReserveId: nat, debtToCover: nat, wbtcPayment: nat, fairnessPayment: nat)

  datatype Declaration = Declared(spend: seq<Spend>) | NeverRefreshed | UnknownReserve

  /** The WBTC that must already be held: the payout received in the same transaction funds the rest. */
  function Payment(c: Candidate, isDirectRedemption: bool): nat {
    if isDirectRedemption then c.wbtcPayment else c.fairnessPayment
  }

  /** What the call can take from one balance: the debt if it is that token's, and the payment if it is WBTC's. */
  function Pulls(owner: string, debtToken: string, wbtc: string, c: Candidate, isDirectRedemption: bool, k: Key): nat {
    (if KeyOf(TokenAccount(owner, debtToken)) == k then c.debtToCover else 0)
    + if KeyOf(TokenAccount(owner, wbtc)) == k then Payment(c, isDirectRedemption) else 0
  }

  predicate NoZeroes(spend: seq<Spend>) {
    forall i :: 0 <= i < |spend| ==> 0 < spend[i].amount && !spend[i].callerAccounts
  }

  lemma {:induction false} RaisedAt(spend: seq<Spend>, i: nat, amount: nat, k: Key)
    requires i < |spend|
    ensures SpendOn(spend[i := spend[i].(amount := spend[i].amount + amount)], k)
         == SpendOn(spend, k) + if KeyOf(spend[i].account) == k then amount else 0
    decreases |spend|
  {
    var n := |spend| - 1;
    var raised := spend[i := spend[i].(amount := spend[i].amount + amount)];
    if i < n {
      RaisedAt(spend[..n], i, amount, k);
      assert raised[..n] == spend[..n][i := spend[..n][i].(amount := spend[..n][i].amount + amount)];
    } else {
      assert raised[..n] == spend[..n];
    }
  }

  /** Sum an amount into its token's entry; a zero amount declares nothing. */
  method Add(spend: seq<Spend>, owner: string, token: string, amount: nat) returns (r: seq<Spend>)
    requires DistinctKeys(spend) && NoZeroes(spend)
    ensures DistinctKeys(r) && NoZeroes(r)
    ensures forall k ::
              SpendOn(r, k) == SpendOn(spend, k) + if KeyOf(TokenAccount(owner, token)) == k then amount else 0
  {
    if amount == 0 {
      return spend;
    }
    var account := TokenAccount(owner, token);
    for i := 0 to |spend|
      invariant forall j :: 0 <= j < i ==> KeyOf(spend[j].account) != KeyOf(account)
    {
      if KeyOf(spend[i].account) == KeyOf(account) {
        r := spend[i := spend[i].(amount := spend[i].amount + amount)];
        forall k
          ensures SpendOn(r, k) == SpendOn(spend, k) + if KeyOf(account) == k then amount else 0
        {
          RaisedAt(spend, i, amount, k);
        }
        return;
      }
    }
    r := spend + [Spend(account, amount, false)];
    assert r[..|spend|] == spend;
  }

  /** One entry per token, summing exactly what the call can take; anything that would be a guess is refused. */
  method SpendFor(topology: Option<seq<string>>, owner: string, wbtc: string, c: Candidate, isDirectRedemption: bool)
    returns (r: Declaration)
    ensures r.NeverRefreshed? <==> topology.None?
    ensures r.UnknownReserve? <==> topology.Some? && |topology.value| <= c.debtReserveId
    ensures r.Declared? ==>
              && DistinctKeys(r.spend) && NoZeroes(r.spend)
              && (forall k :: SpendOn(r.spend, k) ==
                    Pulls(owner, topology.value[c.debtReserveId], wbtc, c, isDirectRedemption, k))
              && (forall k :: SpendOn(r.spend, k) ==
                    (if KeyOf(TokenAccount(owner, topology.value[c.debtReserveId])) == k then c.debtToCover else 0)
                    + (if KeyOf(TokenAccount(owner, wbtc)) != k then 0
                       else if isDirectRedemption then c.wbtcPayment else c.fairnessPayment))
  {
    if topology.None? {
      return NeverRefreshed;
    }
    if c.debtReserveId >= |topology.value| {
      return UnknownReserve;
    }
    var spend := Add([], owner, topology.value[c.debtReserveId], c.debtToCover);
    spend := Add(spend, owner, wbtc, Payment(c, isDirectRedemption));
    return Declared(spend);
  }

  /**
   * A declaration like that is admitted only if the account can pay for everything the call can take,
   * and admitting it keeps every balance solvent.
   */
  lemma DeclarationIsAffordable(g: Gate, cfg: Config, now: int, action: Action, owner: string, debtToken: string,
                                wbtc: string, c: Candidate, isDirectRedemption: bool)
    requires Solvent(g.ledger) && DistinctKeys(action.spend)
    requires forall k :: SpendOn(action.spend, k) == Pulls(owner, debtToken, wbtc, c, isDirectRedemption, k)
    requires Evaluate(g, cfg, now, action).None?
    ensures forall k :: Pulls(owner, debtToken, wbtc, c, isDirectRedemption, k) <= Capacity(g.ledger, k)
    ensures Solvent(OpenSlot(g, cfg, now, action).ledger)
  {
    forall k
      ensures SpendOn(action.spend, k) <= Capacity(g.ledger, k)
    {
      DistinctSpendsFit(g.ledger, action.spend, k);
    }
    AdmissionKeepsSolvencyExactly(g, action.spend);
  }
}
