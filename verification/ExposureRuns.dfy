/**
 * Exposure with its own evidence: every snapshot of the run retires exactly what the gatherer lists from
 * reads taken earlier in that same run. Nothing about a retired outflow is assumed.
 */
module ExposureRuns {
  import opened Common
  import opened RiskGate
  import opened ExposureSafety
  import opened Outflows

  /**
   * How one snapshot's list came about, by positions in the run: when the gate's holds and the work list were
   * read, when each receipt and node view was, and what they said.
   */
  datatype Evidence = Evidence(
    listedAt: nat, workListAt: nat, inFlight: Option<set<Hash>>, outflows: seq<Outflow>, answers: seq<Answer>,
    receiptAt: seq<nat>, viewAt: seq<nat>)

  /** `states` has one more entry than `events`; `evidence` is looked at for snapshots only. */
  datatype Trace = Trace(states: seq<World>, events: seq<Event>, evidence: seq<Evidence>)

  /** One outflow was on the gate's list, and its receipt and view were read in order and were true. */
  predicate AnsweredAt(states: seq<World>, n: nat, ev: Evidence, i: nat)
    requires i < |ev.outflows| == |ev.answers| == |ev.receiptAt| == |ev.viewAt| && n < |states|
  {
    && ev.listedAt <= ev.workListAt <= ev.receiptAt[i] <= ev.viewAt[i] <= n
    && Listed(states[ev.listedAt], ev.outflows[i])
    && AnswerTrue(ev.outflows[i], ev.answers[i], Moment(states[ev.receiptAt[i]], states[ev.viewAt[i]]))
  }

  /** The snapshot at `n` retires exactly what the gatherer lists. */
  predicate Gathered(states: seq<World>, n: nat, block: nat, retired: seq<Hash>, ev: Evidence)
    requires n < |states|
  {
    && ev.listedAt <= ev.workListAt <= n
    && |ev.outflows| == |ev.answers| == |ev.receiptAt| == |ev.viewAt|
    && (forall i :: 0 <= i < |ev.outflows| ==> AnsweredAt(states, n, ev, i))
    && retired == SettledOutflows(ev.outflows, block, ev.inFlight, ev.answers)
  }

  /** Step `n` is one the world admits, and a snapshot there has its evidence. */
  ghost predicate StepAt(cfg: Config, bal: Balances, own: Key, t: Trace, n: nat)
    requires n < |t.events| == |t.evidence| && |t.states| == |t.events| + 1
  {
    && Admissible(t.states[n], bal, own, t.events[n])
    && t.states[n + 1] == Apply(t.states[n], cfg, bal, own, t.events[n])
    && (t.events[n].Snapshot? ==> Gathered(t.states, n, t.events[n].block, t.events[n].retired, t.evidence[n]))
  }

  ghost predicate Evidenced(cfg: Config, bal: Balances, own: Key, t: Trace) {
    && |t.states| == |t.events| + 1 && |t.evidence| == |t.events|
    && t.states[0] == Start(cfg)
    && forall n {:trigger StepAt(cfg, bal, own, t, n)} :: 0 <= n < |t.events| ==> StepAt(cfg, bal, own, t, n)
  }

  /** When the work list was read for the snapshot at `n`, it had every transaction that could still mine. */
  predicate WorkListTrueAt(t: Trace, n: nat)
    requires n < |t.events| == |t.evidence|
  {
    t.events[n].Snapshot? ==>
      t.evidence[n].workListAt < |t.states| && InFlightTrue(t.states[t.evidence[n].workListAt], t.evidence[n].inFlight)
  }

  ghost predicate WorkListsTrue(t: Trace) {
    |t.events| == |t.evidence| && forall n :: 0 <= n < |t.events| ==> WorkListTrueAt(t, n)
  }

  lemma StepIsLater(w: World, cfg: Config, bal: Balances, own: Key, e: Event)
    requires Admissible(w, bal, own, e)
    ensures Later(w, Apply(w, cfg, bal, own, e))
  {
  }

  lemma {:induction false} TraceIsLater(cfg: Config, bal: Balances, own: Key, t: Trace, i: nat, j: nat)
    requires Evidenced(cfg, bal, own, t) && i <= j <= |t.events|
    ensures Later(t.states[i], t.states[j])
    decreases j
  {
    if i < j {
      TraceIsLater(cfg, bal, own, t, i, j - 1);
      assert StepAt(cfg, bal, own, t, j - 1);
      StepIsLater(t.states[j - 1], cfg, bal, own, t.events[j - 1]);
    }
  }

  /** The reads of one outflow happened in the order the gatherer makes them. */
  lemma ReadsWereInOrder(cfg: Config, bal: Balances, own: Key, t: Trace, n: nat, ev: Evidence, i: nat)
    requires Evidenced(cfg, bal, own, t) && n <= |t.events|
    requires i < |ev.outflows| == |ev.answers| == |ev.receiptAt| == |ev.viewAt| && AnsweredAt(t.states, n, ev, i)
    ensures var m := Moment(t.states[ev.receiptAt[i]], t.states[ev.viewAt[i]]);
            ReadInOrder(t.states[ev.listedAt], t.states[ev.workListAt], t.states[n], m)
  {
    TraceIsLater(cfg, bal, own, t, ev.listedAt, ev.workListAt);
    TraceIsLater(cfg, bal, own, t, ev.workListAt, ev.receiptAt[i]);
    TraceIsLater(cfg, bal, own, t, ev.receiptAt[i], ev.viewAt[i]);
    TraceIsLater(cfg, bal, own, t, ev.viewAt[i], n);
  }

  function MomentsOf(states: seq<World>, n: nat, ev: Evidence): (moments: seq<Moment>)
    requires n < |states| && |ev.outflows| == |ev.answers| == |ev.receiptAt| == |ev.viewAt|
    requires forall i :: 0 <= i < |ev.outflows| ==> AnsweredAt(states, n, ev, i)
    ensures |moments| == |ev.outflows|
  {
    seq(|ev.outflows|, i requires 0 <= i < |ev.outflows| =>
          assert AnsweredAt(states, n, ev, i); Moment(states[ev.receiptAt[i]], states[ev.viewAt[i]]))
  }

  /** The evidence of a snapshot justifies what it retires. */
  lemma EvidenceJustifies(cfg: Config, bal: Balances, own: Key, t: Trace, n: nat)
    requires Evidenced(cfg, bal, own, t) && WorkListsTrue(t) && n < |t.events| && t.events[n].Snapshot?
    requires t.evidence[n].listedAt <= n && HoldsSound(t.states[t.evidence[n].listedAt])
    ensures Justified(t.states[n], t.events[n].retired, t.events[n].block)
  {
    assert StepAt(cfg, bal, own, t, n) && WorkListTrueAt(t, n);
    var ev := t.evidence[n];
    var moments := MomentsOf(t.states, n, ev);
    forall i | 0 <= i < |ev.outflows|
      ensures Listed(t.states[ev.listedAt], ev.outflows[i])
      ensures AnswerTrue(ev.outflows[i], ev.answers[i], moments[i])
      ensures ReadInOrder(t.states[ev.listedAt], t.states[ev.workListAt], t.states[n], moments[i])
    {
      assert AnsweredAt(t.states, n, ev, i);
      ReadsWereInOrder(cfg, bal, own, t, n, ev, i);
    }
    RetiredListIsJustified(t.states[ev.listedAt], t.states[ev.workListAt], t.states[n], moments, ev.outflows,
                           t.events[n].block, ev.inFlight, ev.answers);
  }

  ghost predicate KeptUpTo(t: Trace, bal: Balances, own: Key, n: nat) {
    n <= |t.states| && forall i {:trigger t.states[i]} :: 0 <= i < n ==> Inv(t.states[i], bal, own)
  }

  lemma OneMoreKept(cfg: Config, bal: Balances, own: Key, t: Trace, n: nat)
    requires Evidenced(cfg, bal, own, t) && WorkListsTrue(t) && n < |t.events| && KeptUpTo(t, bal, own, n + 1)
    ensures Inv(t.states[n + 1], bal, own)
  {
    assert StepAt(cfg, bal, own, t, n);
    if t.events[n].Snapshot? {
      EvidenceJustifies(cfg, bal, own, t, n);
    }
    StepKeeps(t.states[n], cfg, bal, own, t.events[n]);
  }

  lemma StartHolds(cfg: Config, bal: Balances, own: Key)
    ensures Inv(Start(cfg), bal, own)
  {
  }

  /** Evidence is enough to keep the exposure invariant at every point of the run. */
  lemma TraceKeeps(cfg: Config, bal: Balances, own: Key, t: Trace)
    requires Evidenced(cfg, bal, own, t) && WorkListsTrue(t)
    ensures KeptUpTo(t, bal, own, |t.states|)
  {
    StartHolds(cfg, bal, own);
    for n := 0 to |t.events|
      invariant KeptUpTo(t, bal, own, n + 1)
    {
      OneMoreKept(cfg, bal, own, t, n);
    }
  }

  /**
   * At every point of every run whose snapshots bring their evidence, the capacity reported on an account is at
   * most its balance at the accepted read, less everything that read does not show.
   */
  lemma NeverOverReportsOnEvidence(cfg: Config, bal: Balances, own: Key, t: Trace, n: nat)
    requires Evidenced(cfg, bal, own, t) && WorkListsTrue(t) && n <= |t.events|
    requires own in t.states[n].gate.ledger.snapshotBlock
    ensures var w := t.states[n];
            Capacity(w.gate.ledger, own) <= bal(own, w.gate.ledger.snapshotBlock[own]) - Owed(w, own)
  {
    TraceKeeps(cfg, bal, own, t);
    CapacityCovers(t.states[n], bal, own);
  }
}
