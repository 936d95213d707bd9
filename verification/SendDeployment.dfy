/**
 * Who claims what. A deployment says which actions each engine loop of the process may send; a loop awaits
 * one send before it claims the next. The protocol keeps its promises in every run of a deployment in
 * which no two loops share an idempotency key; `SendSharedKey` shows that no weaker condition will do.
 */
module SendDeployment {
  import opened Common
  import opened Persistence
  import N = NonceAllocator
  import opened SendProtocol
  import opened SendSafety

  type Deployment = (nat, IntentInput) -> bool

  /** No two loops ever act under one key. */
  ghost predicate KeysApart(d: Deployment) {
    forall t, u, i, j :: d(t, i) && d(u, j) && t != u ==> IdempotencyKey(i) != IdempotencyKey(j)
  }

  /** No two loops ever take the same action. */
  ghost predicate ActionsApart(d: Deployment) {
    forall t, u, i, j :: d(t, i) && d(u, j) && t != u ==> !SameAction(i, j)
  }

  /** As long as no field holds a colon, keys are apart exactly when actions are. */
  lemma ActionsApartExactly(d: Deployment)
    requires forall t, i :: d(t, i) ==> ColonFree(i)
    ensures KeysApart(d) <==> ActionsApart(d)
  {
    forall t, u, i, j | d(t, i) && d(u, j) && t != u
      ensures IdempotencyKey(i) == IdempotencyKey(j) <==> SameAction(i, j)
    {
      KeyIdentifiesAction(i, j);
    }
  }

  /** A loop claims only what is its own, and only once it has no send open. */
  predicate Conforms(d: Deployment, loop: nat -> nat, s: State, e: Event) {
    e.Claim? ==>
      && d(loop(e.a), e.input)
      && forall b :: b in s.attempts && MidSend(s.attempts[b].phase) ==> loop(b) != loop(e.a)
  }

  ghost predicate ConformingRun(d: Deployment, loop: nat -> nat, s: State, events: seq<Event>)
    requires Run(s, events)
    decreases |events|
  {
    events == [] || (Conforms(d, loop, s, events[0]) && ConformingRun(d, loop, Apply(s, events[0]), events[1..]))
  }

  ghost predicate MayHold(d: Deployment, t: nat, id: Id) {
    exists input :: d(t, input) && IdempotencyKey(input) == id
  }

  /** Every send is of an action of the loop it belongs to. */
  ghost predicate Assigned(d: Deployment, loop: nat -> nat, s: State) {
    forall a :: a in s.attempts ==> MayHold(d, loop(a), s.attempts[a].id)
  }

  /** The sends afterwards are sends that were there before, under the same intents. */
  ghost predicate NoneAdded(s: State, s': State) {
    forall a :: a in s'.attempts ==> a in s.attempts && s'.attempts[a].id == s.attempts[a].id
  }

  lemma OthersAddNone(s: State, e: Event)
    requires Enabled(s, e) && !ByASend(e)
    ensures NoneAdded(s, Apply(s, e))
  {
  }

  lemma EarlyStepsAddNone(s: State, e: Event)
    requires Enabled(s, e) && (e.Begin? || e.Balk? || e.Enter? || e.SignFails?)
    ensures NoneAdded(s, Apply(s, e))
  {
  }

  lemma SignAddsNone(s: State, e: Event)
    requires Enabled(s, e) && (e.Sign? || e.SignUnanswered?)
    ensures NoneAdded(s, Apply(s, e))
  {
  }

  lemma WireStepsAddNone(s: State, e: Event)
    requires Enabled(s, e) && (e.Halt? || e.Broadcast?)
    ensures NoneAdded(s, Apply(s, e))
  {
  }

  lemma DoEndAddsNone(s: State, a: nat)
    requires a in s.attempts && SectionOver(s.attempts[a].phase)
    ensures NoneAdded(s, DoEnd(s, a))
  {
  }

  lemma EndAddsNone(s: State, e: Event)
    requires Enabled(s, e) && e.End?
    ensures NoneAdded(s, Apply(s, e))
  {
    DoEndAddsNone(s, e.a);
    assert Apply(s, e) == DoEnd(s, e.a);
  }

  lemma LastStepsAddNone(s: State, e: Event)
    requires Enabled(s, e) && (e.Leave? || e.PostWrite? || e.LateWrite? || e.Outcome?)
    ensures NoneAdded(s, Apply(s, e))
  {
  }

  /** Only a claim adds a send, and no send ever changes its intent. */
  lemma OnlyClaimsAdd(s: State, e: Event)
    requires Enabled(s, e) && !e.Claim?
    ensures NoneAdded(s, Apply(s, e))
  {
    if !ByASend(e) {
      OthersAddNone(s, e);
    } else if e.Begin? || e.Balk? || e.Enter? || e.SignFails? {
      EarlyStepsAddNone(s, e);
    } else if e.Sign? || e.SignUnanswered? {
      SignAddsNone(s, e);
    } else if e.Halt? || e.Broadcast? {
      WireStepsAddNone(s, e);
    } else if e.End? {
      EndAddsNone(s, e);
    } else {
      LastStepsAddNone(s, e);
    }
  }

  lemma ClaimStaysAssigned(d: Deployment, loop: nat -> nat, s: State, e: Event)
    requires Enabled(s, e) && e.Claim? && Conforms(d, loop, s, e) && Assigned(d, loop, s)
    ensures Assigned(d, loop, DoClaim(s, e.a, e.input, e.t))
  {
  }

  lemma StepStaysAssigned(d: Deployment, loop: nat -> nat, s: State, e: Event)
    requires Enabled(s, e) && Conforms(d, loop, s, e) && Assigned(d, loop, s)
    ensures Assigned(d, loop, Apply(s, e))
  {
    if e.Claim? {
      ClaimStaysAssigned(d, loop, s, e);
    } else {
      OnlyClaimsAdd(s, e);
    }
  }

  lemma ConformingIsExclusive(d: Deployment, loop: nat -> nat, s: State, e: Event)
    requires KeysApart(d) && Conforms(d, loop, s, e) && Assigned(d, loop, s)
    ensures Exclusive(s, e)
  {
  }

  lemma {:induction false} ConformingRunIsExclusive(d: Deployment, loop: nat -> nat, s: State, events: seq<Event>)
    requires KeysApart(d) && Assigned(d, loop, s) && Run(s, events) && ConformingRun(d, loop, s, events)
    ensures ExclusiveRun(s, events)
    decreases |events|
  {
    if events != [] {
      ConformingIsExclusive(d, loop, s, events[0]);
      StepStaysAssigned(d, loop, s, events[0]);
      ConformingRunIsExclusive(d, loop, Apply(s, events[0]), events[1..]);
    }
  }

  lemma KeysApartIsSafe(d: Deployment, loop: nat -> nat, s0: State, events: seq<Event>)
    requires KeysApart(d) && Init(s0) && Run(s0, events) && ConformingRun(d, loop, s0, events)
    ensures Safe(Final(s0, events))
  {
    ConformingRunIsExclusive(d, loop, s0, events);
    ExclusiveRunsAreSafe(s0, events);
  }

  // ---- What holds of a deployment in all its runs ---------------------------------------------------

  /** Every state the deployment can reach, from any store contents. */
  ghost predicate Reaches(d: Deployment, s: State) {
    exists loop: nat -> nat, s0, events ::
      Init(s0) && Run(s0, events) && ConformingRun(d, loop, s0, events) && Final(s0, events) == s
  }

  lemma ReachedIsSafe(d: Deployment, s: State)
    requires KeysApart(d) && Reaches(d, s)
    ensures Safe(s)
  {
    var loop: nat -> nat, s0, events :|
      Init(s0) && Run(s0, events) && ConformingRun(d, loop, s0, events) && Final(s0, events) == s;
    KeysApartIsSafe(d, loop, s0, events);
  }
}
