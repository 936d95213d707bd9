/**
 * The work list behind the exposure evidence is the store of the send protocol. With loops that keep their
 * keys apart it never misses a transaction the chain may still mine, so the gate never over-reports.
 */
module StoreEvidence {
  import opened Common
  import opened RiskGate
  import opened ExposureSafety
  import opened Outflows
  import opened ExposureRuns
  import SendProtocol
  import SendSafety
  import SendDeployment

  /** Both models speak of one chain: what may still mine in the one may still mine in the other. */
  ghost predicate Agrees(w: World, s: SendProtocol.State) {
    forall h :: h in w.txs && w.txs[h].fate.Pending? ==> SendProtocol.Possible(s, h)
  }

  /**
   * Where the work list's truth comes from: in whatever state a deployment with keys apart reaches, a
   * transaction the chain may still mine is among the hashes of the live records.
   */
  lemma StoreKeepsPendingInFlight(d: SendDeployment.Deployment, s: SendProtocol.State, w: World)
    requires SendDeployment.KeysApart(d) && SendDeployment.Reaches(d, s) && Agrees(w, s)
    ensures InFlightTrue(w, Some(SendSafety.InFlightHashes(s.rows)))
  {
    SendDeployment.ReachedIsSafe(d, s);
  }

  /** The work list of a snapshot's evidence is that of a state the deployment reaches; none without a store. */
  ghost predicate ReadFromStore(d: SendDeployment.Deployment, w: World, inFlight: Option<set<Hash>>,
                                store: Option<SendProtocol.State>) {
    if store.None? then inFlight.None?
    else
      && SendDeployment.Reaches(d, store.value) && Agrees(w, store.value)
      && inFlight == Some(SendSafety.InFlightHashes(store.value.rows))
  }

  ghost predicate StoreAt(d: SendDeployment.Deployment, t: Trace, stores: seq<Option<SendProtocol.State>>, n: nat)
    requires n < |t.events| == |t.evidence| == |stores|
  {
    t.events[n].Snapshot? ==>
      && t.evidence[n].workListAt < |t.states|
      && ReadFromStore(d, t.states[t.evidence[n].workListAt], t.evidence[n].inFlight, stores[n])
  }

  ghost predicate FromStores(d: SendDeployment.Deployment, t: Trace, stores: seq<Option<SendProtocol.State>>) {
    |t.events| == |t.evidence| == |stores| && forall n :: 0 <= n < |t.events| ==> StoreAt(d, t, stores, n)
  }

  lemma StoresAreTrue(d: SendDeployment.Deployment, t: Trace, stores: seq<Option<SendProtocol.State>>)
    requires SendDeployment.KeysApart(d) && FromStores(d, t, stores)
    ensures WorkListsTrue(t)
  {
    forall n | 0 <= n < |t.events|
      ensures WorkListTrueAt(t, n)
    {
      assert StoreAt(d, t, stores, n);
      if t.events[n].Snapshot? && stores[n].Some? {
        StoreKeepsPendingInFlight(d, stores[n].value, t.states[t.evidence[n].workListAt]);
      }
    }
  }

  /**
   * Gate, evidence gatherer and send protocol together: at every point of every run, with nothing assumed of
   * what a snapshot retires, the gate does not over-report the account.
   */
  lemma GateNeverOverReports(d: SendDeployment.Deployment, cfg: Config, bal: Balances, own: Key, t: Trace,
                             stores: seq<Option<SendProtocol.State>>, n: nat)
    requires SendDeployment.KeysApart(d) && Evidenced(cfg, bal, own, t) && FromStores(d, t, stores)
    requires n <= |t.events| && own in t.states[n].gate.ledger.snapshotBlock
    ensures var w := t.states[n];
            Capacity(w.gate.ledger, own) <= bal(own, w.gate.ledger.snapshotBlock[own]) - Owed(w, own)
  {
    StoresAreTrue(d, t, stores);
    NeverOverReportsOnEvidence(cfg, bal, own, t, n);
  }
}
