/**
 * The two loops one process may run, both funded from inventory: arbitrage, which approves the vault swap
 * contract, and liquidation, which approves the adapter. Their own actions never meet; their allowances meet
 * exactly when the two contracts are one. Other funding modes approve nothing, so they claim less.
 */
module EngineLoops {
  import opened Common
  import opened Persistence
  import opened SendSafety
  import opened SendDeployment
  import SendSharedKey

  const ARBITRAGE := 0
  const LIQUIDATION := 1

  /** The configured addresses; subjects and targets are addresses and hashes, so none holds a colon. */
  datatype Contracts = Contracts(chainId: nat, wbtc: string, vaultSwap: string, adapter: string)

  predicate WellFormed(c: Contracts) {
    ':' !in c.wbtc && ':' !in c.vaultSwap && ':' !in c.adapter
  }

  /** A grant or a revocation for `spender`, on a token of this loop's. */
  predicate Allowance(i: IntentInput, spender: string) {
    i.action in {"approval", "revoke"} && i.subject == spender
  }

  /** What each loop claims. The liquidation loop approves every debt token and WBTC. */
  predicate Claims(c: Contracts, t: nat, i: IntentInput) {
    && ColonFree(i) && i.chainId == c.chainId
    && if t == ARBITRAGE then i.action == "vault-acquisition" || (Allowance(i, c.vaultSwap) && i.target == c.wbtc)
       else t == LIQUIDATION && (i.action == "liquidation" || Allowance(i, c.adapter))
  }

  function Loops(c: Contracts): Deployment {
    (t: nat, i: IntentInput) => Claims(c, t, i)
  }

  lemma SharedSpenderMeets(c: Contracts)
    requires WellFormed(c) && Lower(c.vaultSwap) == Lower(c.adapter)
    ensures !ActionsApart(Loops(c))
  {
    var i := IntentInput(c.chainId, c.wbtc, "approval", c.vaultSwap);
    var j := IntentInput(c.chainId, c.wbtc, "approval", c.adapter);
    assert Loops(c)(ARBITRAGE, i) && Loops(c)(LIQUIDATION, j) && SameAction(i, j);
  }

  /** An action of the one loop is never an action of the other, unless both approve one contract. */
  lemma ClaimsDiffer(c: Contracts, t: nat, u: nat, i: IntentInput, j: IntentInput)
    requires Lower(c.vaultSwap) != Lower(c.adapter) && Claims(c, t, i) && Claims(c, u, j) && t != u
    ensures !SameAction(i, j)
  {
  }

  /** The loops keep their keys apart if and only if they approve different contracts. */
  lemma LoopsApartExactly(c: Contracts)
    requires WellFormed(c)
    ensures KeysApart(Loops(c)) <==> Lower(c.vaultSwap) != Lower(c.adapter)
  {
    ActionsApartExactly(Loops(c));
    if Lower(c.vaultSwap) == Lower(c.adapter) {
      SharedSpenderMeets(c);
    } else {
      forall t, u, i, j | Loops(c)(t, i) && Loops(c)(u, j) && t != u
        ensures !SameAction(i, j)
      {
        ClaimsDiffer(c, t, u, i, j);
      }
    }
  }

  /** Everything the send protocol promises holds of the bot's own loops if and only if they do. */
  lemma LoopsAreSafeExactly(c: Contracts)
    requires WellFormed(c)
    ensures (forall s :: Reaches(Loops(c), s) ==> Safe(s)) <==> Lower(c.vaultSwap) != Lower(c.adapter)
  {
    LoopsApartExactly(c);
    if Lower(c.vaultSwap) != Lower(c.adapter) {
      forall s | Reaches(Loops(c), s) ensures Safe(s) { ReachedIsSafe(Loops(c), s); }
    } else {
      SendSharedKey.NeverSignsOver(Loops(c));
    }
  }
}
