/**
 * Why keys have to be apart. `sending` is a set of intent ids, so two unfinished sends of one intent share
 * a single entry and the first to end removes it for both. Any deployment in which two loops share a key
 * has a run that breaks each of the protocol's promises, so keeping keys apart is the exact condition.
 */
module SendSharedKey {
  import opened Common
  import opened Persistence
  import opened Liveness
  import opened Reconcile
  import N = NonceAllocator
  import opened SendProtocol
  import opened SendSafety
  import opened SendDeployment

  /** Ending a send keeps the other open sends covered exactly when none of them shares its intent. */
  lemma EndKeepsCoverExactly(s: State, a: nat)
    requires Covered(s) && a in s.attempts && SectionOver(s.attempts[a].phase)
    ensures Covered(DoEnd(s, a)) <==>
              forall b :: b in s.attempts && b != a && MidSend(s.attempts[b].phase) && !s.attempts[b].phase.Fresh? ==>
                s.attempts[b].id != s.attempts[a].id
  {
    var s' := DoEnd(s, a);
    forall b | b in s.attempts && b != a
      ensures b in s'.attempts && s'.attempts[b] == s.attempts[b]
    {
    }
  }

  /** Exclusive claims are what keeps open sends on distinct intents, in every run. */
  lemma ExclusiveClaimsStayApart(s0: State, events: seq<Event>)
    requires Init(s0) && Run(s0, events) && ExclusiveRun(s0, events)
    ensures Solo(Final(s0, events)) && Covered(Final(s0, events))
  {
    InitHolds(s0);
    RunKeeps(s0, events);
  }

  // ---- Two loops that share a key -------------------------------------------------------------------

  /** Two actions of two loops, under one key. */
  datatype Clash = Clash(d: Deployment, t: nat, u: nat, first: IntentInput, second: IntentInput)

  predicate Clashes(c: Clash) {
    c.d(c.t, c.first) && c.d(c.u, c.second) && c.t != c.u && IdempotencyKey(c.first) == IdempotencyKey(c.second)
  }

  function LoopOf(c: Clash, a: nat): nat {
    if a == 1 then c.u else c.t
  }

  function Loops(c: Clash): nat -> nat {
    (a: nat) => LoopOf(c, a)
  }

  const EMPTY := State(map[], 0, {}, N.UNSEEDED, Free, map[], map[], map[], map[], {}, {}, 0)
  const SEEDED := EMPTY.(alloc := N.Alloc(Some(0), None))
  const NOTHING_KNOWN := Answers(None, Reader(h => false, None), NoReceipt, NotFoundAnywhere)
  const UNSENT := Because("not broadcast (reconciled)")
  const UNSEEN := HashError("h", "not accepted (reconciled)")

  /** A run of the two loops from the empty state to `s`. */
  ghost predicate Leads(c: Clash, run: seq<Event>, s: State) {
    Run(EMPTY, run) && ConformingRun(c.d, Loops(c), EMPTY, run) && Final(EMPTY, run) == s
  }

  lemma {:induction false} RunStep(d: Deployment, loop: nat -> nat, s0: State, events: seq<Event>, e: Event)
    requires Run(s0, events) && ConformingRun(d, loop, s0, events)
    requires Enabled(Final(s0, events), e) && Conforms(d, loop, Final(s0, events), e)
    ensures Run(s0, events + [e]) && ConformingRun(d, loop, s0, events + [e])
    ensures Final(s0, events + [e]) == Apply(Final(s0, events), e)
    decreases |events|
  {
    if events == [] {
      assert events + [e] == [e];
      assert Run(Apply(s0, e), [e][1..]);
    } else {
      assert (events + [e])[1..] == events[1..] + [e];
      RunStep(d, loop, Apply(s0, events[0]), events[1..], e);
    }
  }

  /** One more step, to the state it is said to lead to. */
  lemma On(c: Clash, run: seq<Event>, s: State, e: Event, s': State) returns (next: seq<Event>)
    requires Leads(c, run, s) && Enabled(s, e) && Conforms(c.d, Loops(c), s, e) && Apply(s, e) == s'
    ensures Leads(c, next, s')
  {
    RunStep(c.d, Loops(c), EMPTY, run, e);
    next := run + [e];
  }

  // ---- Steps of a pass and of a resync, over one row ------------------------------------------------

  function Surveying(s: State, todo: Option<Rows>): State {
    s.(lock := Resyncing(0, todo, {}))
  }

  function Reseeded(s: State): State {
    s.(alloc := N.Alloc(Some(0), None), lock := Free)
  }

  lemma NothingToSurvey(s: State)
    requires SignedRows(s.rows) == map[]
    ensures DoResyncRead(Surveying(s, None)) == Surveying(s, Some(map[]))
    ensures DoResyncSet(Surveying(s, Some(map[]))) == Reseeded(s)
  {
  }

  lemma SurveyNothing(c: Clash, run: seq<Event>, s: State) returns (next: seq<Event>)
    requires Leads(c, run, s) && s.lock == Free && s.minedNonce == 0 && SignedRows(s.rows) == map[]
    ensures Leads(c, next, Surveying(s, Some(map[])))
  {
    NothingToSurvey(s);
    next := On(c, run, s, ResyncStart(0), Surveying(s, None));
    next := On(c, next, Surveying(s, None), ResyncRead, Surveying(s, Some(map[])));
  }

  /** With nothing signed on the work list, a resync seeds the lease from the node's count. */
  lemma SeedLease(c: Clash, run: seq<Event>, s: State) returns (next: seq<Event>)
    requires Leads(c, run, s) && s.lock == Free && s.minedNonce == 0 && SignedRows(s.rows) == map[]
    ensures Leads(c, next, Reseeded(s))
  {
    next := SurveyNothing(c, run, s);
    NothingToSurvey(s);
    next := On(c, next, Surveying(s, Some(map[])), ResyncSet, Reseeded(s));
  }

  function NewPass(row: TxIntent): Pass { Pass(map[row.id := row], None, {}, map[]) }
  function CountedPass(row: TxIntent): Pass { NewPass(row).(nonces := Some(NonceCounts(0, 0))) }
  function CheckedPass(row: TxIntent): Pass { CountedPass(row).(checked := {row.id}) }

  function DonePass(row: TxIntent, error: Meta): Pass {
    CheckedPass(row).(writes := map[row.id := Some(TransitionOp(row.id, Failed, error, AsRead(row)))])
  }

  lemma PassReplaced(s: State, p: nat, pass: Pass, pass': Pass)
    ensures WithPass(WithPass(s, p, pass), p, pass') == WithPass(s, p, pass')
  {
    assert s.passes[p := pass][p := pass'] == s.passes[p := pass'];
  }

  lemma PassReads(c: Clash, run: seq<Event>, s: State, p: nat, row: TxIntent) returns (next: seq<Event>)
    requires Leads(c, run, s) && p !in s.passes && s.rows == map[row.id := row] && IsInFlight(row)
    ensures Leads(c, next, WithPass(s, p, NewPass(row)))
  {
    assert WorkList(s.rows) == map[row.id := row];
    next := On(c, run, s, PassRead(p), WithPass(s, p, NewPass(row)));
  }

  lemma PassCounts(c: Clash, run: seq<Event>, s: State, p: nat, row: TxIntent) returns (next: seq<Event>)
    requires Leads(c, run, WithPass(s, p, NewPass(row)))
    ensures Leads(c, next, WithPass(s, p, CountedPass(row)))
  {
    PassReplaced(s, p, NewPass(row), CountedPass(row));
    next := On(c, run, WithPass(s, p, NewPass(row)), PassNonces(p, NonceCounts(0, 0)),
               WithPass(s, p, CountedPass(row)));
  }

  lemma PassScreens(c: Clash, run: seq<Event>, s: State, p: nat, row: TxIntent) returns (next: seq<Event>)
    requires Leads(c, run, WithPass(s, p, CountedPass(row))) && row.id !in s.sending
    ensures Leads(c, next, WithPass(s, p, CheckedPass(row)))
  {
    assert {} + {row.id} == {row.id};
    PassReplaced(s, p, CountedPass(row), CheckedPass(row));
    next := On(c, run, WithPass(s, p, CountedPass(row)), PassCheck(p, row.id), WithPass(s, p, CheckedPass(row)));
  }

  /** The row is not one this process is sending, so the pass goes on to judge it. */
  lemma PassChecks(c: Clash, run: seq<Event>, s: State, p: nat, row: TxIntent) returns (next: seq<Event>)
    requires Leads(c, run, s) && p !in s.passes
    requires s.rows == map[row.id := row] && IsInFlight(row) && row.id !in s.sending
    ensures Leads(c, next, WithPass(s, p, CheckedPass(row)))
  {
    next := PassReads(c, run, s, p, row);
    next := PassCounts(c, next, s, p, row);
    next := PassScreens(c, next, s, p, row);
  }

  /** Judged at this time and with nothing known, the row is failed, and no transaction is buried. */
  predicate FailsNow(s: State, row: TxIntent, error: Meta) {
    && s.rows == map[row.id := row] && row.safeEnvelope.None?
    && (row.txHash.Some? ==> row.txHash.value !in s.broadcast)
    && WriteOf(NonceCounts(0, 0), row,
               Turn(false, LivenessCheck(s.clock, None, None, None), NOTHING_KNOWN, Keep, [], 0))
         == Some(TransitionOp(row.id, Failed, error, AsRead(row)))
  }

  lemma PassJudges(s: State, p: nat, row: TxIntent, error: Meta)
    requires FailsNow(s, row, error)
    ensures DoJudge(WithPass(s, p, CheckedPass(row)), p, row.id, LivenessCheck(s.clock, None, None, None),
                    NOTHING_KNOWN, Keep)
         == WithPass(s, p, DonePass(row, error))
  {
    PassReplaced(s, p, CheckedPass(row), DonePass(row, error));
  }

  lemma PassDecides(c: Clash, run: seq<Event>, s: State, p: nat, row: TxIntent, error: Meta) returns (next: seq<Event>)
    requires Leads(c, run, WithPass(s, p, CheckedPass(row))) && FailsNow(s, row, error)
    ensures Leads(c, next, WithPass(s, p, DonePass(row, error)))
  {
    PassJudges(s, p, row, error);
    var e := PassJudge(p, row.id, LivenessCheck(s.clock, None, None, None), NOTHING_KNOWN, Keep);
    next := On(c, run, WithPass(s, p, CheckedPass(row)), e, WithPass(s, p, DonePass(row, error)));
  }

  function FailedRow(row: TxIntent, error: Meta, t: nat): TxIntent { Moved(row, Failed, error, t) }

  lemma PassWrites(c: Clash, run: seq<Event>, s: State, p: nat, row: TxIntent, error: Meta, t: nat)
    returns (next: seq<Event>)
    requires Leads(c, run, WithPass(s, p, DonePass(row, error))) && s.rows == map[row.id := row] && s.clock < t
    ensures Leads(c, next, Put(WithPass(s, p, DonePass(row, error)), row.id, FailedRow(row, error, t), t))
  {
    var s1 := WithPass(s, p, DonePass(row, error));
    TransitionShape(s1, TransitionOp(row.id, Failed, error, AsRead(row)), t);
    next := On(c, run, s1, PassApply(p, row.id, t), Put(s1, row.id, FailedRow(row, error, t), t));
  }

  /** It judges the row failed, and writes that down. */
  lemma PassFails(c: Clash, run: seq<Event>, s: State, p: nat, row: TxIntent, error: Meta, t: nat)
    returns (next: seq<Event>)
    requires Leads(c, run, WithPass(s, p, CheckedPass(row))) && FailsNow(s, row, error) && s.clock < t
    ensures Leads(c, next,
                  WithPass(s, p, DonePass(row, error)).(rows := map[row.id := FailedRow(row, error, t)], clock := t))
  {
    next := PassDecides(c, run, s, p, row, error);
    next := PassWrites(c, next, s, p, row, error, t);
    assert s.rows[row.id := FailedRow(row, error, t)] == map[row.id := FailedRow(row, error, t)];
  }

  // ---- The run --------------------------------------------------------------------------------------

  function Key(c: Clash): Id { IdempotencyKey(c.first) }

  function Claimed1(c: Clash): TxIntent {
    TxIntent(Key(c), c.first, Pending, None, None, None, None, None, None, None, 1, 1)
  }

  function Claimed2(c: Clash): TxIntent {
    TxIntent(Key(c), c.second, Pending, None, None, None, None, None, None, None, 1, 40002)
  }

  function Recorded2(c: Clash): TxIntent {
    Claimed2(c).(nonce := Some(0), txHash := Some("h"), updatedAt := 40003)
  }

  function Aged1(c: Clash): State {
    SEEDED.(rows := map[Key(c) := Claimed1(c)], clock := 40000, attempts := map[0 := Attempt(Key(c), 1, Fresh)])
  }

  lemma FirstClaimAges(c: Clash) returns (run: seq<Event>)
    requires Clashes(c)
    ensures Leads(c, run, Aged1(c))
  {
    run := SeedLease(c, [], EMPTY);
    run := On(c, run, SEEDED, Claim(0, c.first, 1), Aged1(c).(clock := 1));
    run := On(c, run, Aged1(c).(clock := 1), Tick(40000), Aged1(c));
  }

  function Pass0(c: Clash): map<nat, Pass> { map[0 := DonePass(Claimed1(c), UNSENT)] }

  function Failing1(c: Clash): State {
    Aged1(c).(rows := map[Key(c) := FailedRow(Claimed1(c), UNSENT, 40001)], clock := 40001, passes := Pass0(c))
  }

  /** The first claim ages past the grace window before its send begins, and is failed. */
  lemma FirstClaimFails(c: Clash) returns (run: seq<Event>)
    requires Clashes(c)
    ensures Leads(c, run, Failing1(c))
  {
    run := FirstClaimAges(c);
    run := PassChecks(c, run, Aged1(c), 0, Claimed1(c));
    run := PassFails(c, run, Aged1(c), 0, Claimed1(c), UNSENT, 40001);
  }

  /** The first send, in the given phase, and nothing else has moved on since its row was failed. */
  function Alone(c: Clash): State {
    Failing1(c).(sending := {Key(c)}, attempts := map[0 := Attempt(Key(c), 1, Begun)])
  }

  /** Both loops have a send of the intent, in the given phases. */
  function Twice(c: Clash, first: Phase, second: Phase): State {
    Alone(c).(rows := map[Key(c) := Claimed2(c)], clock := 40002,
              attempts := map[0 := Attempt(Key(c), 1, first), 1 := Attempt(Key(c), 40002, second)])
  }

  lemma BeginFirst(c: Clash)
    requires Clashes(c)
    ensures Apply(Failing1(c), Begin(0)) == Alone(c)
  {
    assert Failing1(c).attempts[0 := Attempt(Key(c), 1, Begun)] == Alone(c).attempts;
  }

  lemma ClaimAgain(c: Clash)
    requires Clashes(c)
    ensures Enabled(Alone(c), Claim(1, c.second, 40002)) && Conforms(c.d, Loops(c), Alone(c), Claim(1, c.second, 40002))
    ensures DoClaim(Alone(c), 1, c.second, 40002) == Twice(c, Begun, Fresh)
  {
    var s := Alone(c);
    assert s.attempts[1 := Attempt(Key(c), 40002, Fresh)] == Twice(c, Begun, Fresh).attempts;
    assert FreshRow(s.rows, c.second, Pending, None, None, 40002) == Claimed2(c);
    assert s.rows[Key(c) := Claimed2(c)] == Twice(c, Begun, Fresh).rows;
  }

  lemma BeginAgain(c: Clash)
    ensures DoBegin(Twice(c, Begun, Fresh), 1) == Twice(c, Begun, Begun)
  {
    assert Twice(c, Begun, Fresh).attempts[1 := Attempt(Key(c), 40002, Begun)] == Twice(c, Begun, Begun).attempts;
  }

  lemma FirstBalks(c: Clash)
    ensures MoveTo(Twice(c, Begun, Begun), 0, Threw) == Twice(c, Threw, Begun)
  {
    assert Twice(c, Begun, Begun).attempts[0 := Attempt(Key(c), 1, Threw)] == Twice(c, Threw, Begun).attempts;
  }

  /** The first send begins late, and meanwhile the other loop claims the intent. */
  lemma ClaimedTwice(c: Clash) returns (run: seq<Event>)
    requires Clashes(c)
    ensures Leads(c, run, Twice(c, Begun, Fresh))
  {
    run := FirstClaimFails(c);
    BeginFirst(c);
    run := On(c, run, Failing1(c), Begin(0), Alone(c));
    ClaimAgain(c);
    run := On(c, run, Alone(c), Claim(1, c.second, 40002), Twice(c, Begun, Fresh));
  }

  /** Both sends are open; the first fails. */
  lemma FirstSendThrows(c: Clash) returns (run: seq<Event>)
    requires Clashes(c)
    ensures Leads(c, run, Twice(c, Threw, Begun))
  {
    run := ClaimedTwice(c);
    BeginAgain(c);
    run := On(c, run, Twice(c, Begun, Fresh), Begin(1), Twice(c, Begun, Begun));
    FirstBalks(c);
    run := On(c, run, Twice(c, Begun, Begun), Balk(0), Twice(c, Threw, Begun));
  }

  /** Only the second send is left, and it is not covered. */
  function Second(c: Clash, phase: Phase): State {
    SEEDED.(rows := map[Key(c) := Claimed2(c)], clock := 40002, passes := Pass0(c),
            attempts := map[1 := Attempt(Key(c), 40002, phase)])
  }

  lemma FirstEnds(c: Clash)
    ensures DoEnd(Twice(c, Threw, Begun), 0) == Second(c, Begun)
  {
    var s := Twice(c, Threw, Begun);
    assert s.attempts - {0} == Second(c, Begun).attempts && s.sending - {Key(c)} == {};
  }

  /** The first send ends, for both. */
  lemma SecondSendUncovered(c: Clash) returns (run: seq<Event>)
    requires Clashes(c)
    ensures Leads(c, run, Second(c, Begun))
  {
    run := FirstSendThrows(c);
    FirstEnds(c);
    run := On(c, run, Twice(c, Threw, Begun), End(0), Second(c, Begun));
  }

  function Holding2(c: Clash): State {
    Second(c, Holding(0)).(lock := SectionOf(1), alloc := N.Alloc(Some(1), None))
  }

  function Durable2(c: Clash): State {
    Holding2(c).(rows := map[Key(c) := Recorded2(c)], clock := 40003, signed := map["h" := 0],
                 attempts := map[1 := Attempt(Key(c), 40002, Durable(0, "h"))])
  }

  lemma EnterSecond(c: Clash)
    ensures DoEnter(Second(c, Begun), 1) == Holding2(c)
  {
    assert Second(c, Begun).attempts[1 := Attempt(Key(c), 40002, Holding(0))] == Holding2(c).attempts;
  }

  lemma SignSecond(c: Clash)
    ensures DoSign(Holding2(c), 1, "h", 40003) == Durable2(c)
  {
    var s := Holding2(c);
    var at := s.attempts[1];
    TransitionShape(s, RecordOp(at, 0, "h"), 40003);
    assert Moved(Claimed2(c), Pending, RecordOp(at, 0, "h").meta, 40003) == Recorded2(c);
    assert s.rows[Key(c) := Recorded2(c)] == Durable2(c).rows;
    assert s.attempts[1 := Attempt(Key(c), 40002, Durable(0, "h"))] == Durable2(c).attempts;
    assert s.signed["h" := 0] == Durable2(c).signed;
  }

  /** The second send takes nonce 0 and records itself. */
  lemma SecondSendRecorded(c: Clash) returns (run: seq<Event>)
    requires Clashes(c)
    ensures Leads(c, run, Durable2(c))
  {
    run := SecondSendUncovered(c);
    EnterSecond(c);
    run := On(c, run, Second(c, Begun), Enter(1), Holding2(c));
    SignSecond(c);
    run := On(c, run, Holding2(c), Sign(1, "h", 40003), Durable2(c));
  }

  function Waiting2(c: Clash): State { Durable2(c).(clock := 80003) }

  function Failing2(c: Clash): State {
    WithPass(Waiting2(c), 1, DonePass(Recorded2(c), UNSEEN)).(
      rows := map[Key(c) := FailedRow(Recorded2(c), UNSEEN, 80004)], clock := 80004)
  }

  /** The grace window passes while it is on its way to the broadcaster. */
  lemma SecondSendWaits(c: Clash) returns (run: seq<Event>)
    requires Clashes(c)
    ensures Leads(c, run, Waiting2(c))
  {
    run := SecondSendRecorded(c);
    run := On(c, run, Durable2(c), Tick(80003), Waiting2(c));
  }

  /** A pass fails it under its sender. */
  lemma SecondSendFailed(c: Clash) returns (run: seq<Event>)
    requires Clashes(c)
    ensures Leads(c, run, Failing2(c))
  {
    run := SecondSendWaits(c);
    run := PassChecks(c, run, Waiting2(c), 1, Recorded2(c));
    run := PassFails(c, run, Waiting2(c), 1, Recorded2(c), UNSEEN, 80004);
  }

  function Handed2(c: Clash): State {
    Failing2(c).(broadcast := map["h" := Tx(Key(c), 0)], attempts := map[1 := Attempt(Key(c), 40002, Handed(0, "h"))])
  }

  /** The transaction is out, and a resync offers its nonce again. */
  function Lost(c: Clash): State {
    Reseeded(Handed2(c))
  }

  lemma BroadcastSecond(c: Clash)
    ensures DoBroadcast(Failing2(c), 1) == Handed2(c)
  {
    var s := Failing2(c);
    assert s.attempts[1 := Attempt(Key(c), 40002, Handed(0, "h"))] == Handed2(c).attempts;
    assert s.broadcast["h" := Tx(Key(c), 0)] == Handed2(c).broadcast;
  }

  lemma SecondSendHandedOver(c: Clash) returns (run: seq<Event>)
    requires Clashes(c)
    ensures Leads(c, run, Handed2(c))
  {
    run := SecondSendFailed(c);
    BroadcastSecond(c);
    run := On(c, run, Failing2(c), Broadcast(1), Handed2(c));
  }

  lemma SectionLeft(c: Clash) returns (run: seq<Event>)
    requires Clashes(c)
    ensures Leads(c, run, Handed2(c).(lock := Free))
  {
    run := SecondSendHandedOver(c);
    run := On(c, run, Handed2(c), Leave(1), Handed2(c).(lock := Free));
  }

  /** The only row has ended, so nothing is left to survey. */
  lemma NothingSigned(c: Clash)
    ensures SignedRows(Handed2(c).rows) == map[]
    ensures Reseeded(Handed2(c).(lock := Free)) == Lost(c)
  {
  }

  lemma FenceIsLost(c: Clash) returns (run: seq<Event>)
    requires Clashes(c)
    ensures Leads(c, run, Lost(c))
  {
    run := SectionLeft(c);
    NothingSigned(c);
    run := SeedLease(c, run, Handed2(c).(lock := Free));
  }

  /** The transaction can still be mined, yet its nonce is on offer and its row is off the work list. */
  lemma LostMeans(c: Clash)
    ensures Possible(Lost(c), "h")
    ensures !OffersNothingLive(Lost(c)) && !RecordedAhead(Lost(c)) && !InFlightCovers(Lost(c))
  {
    var s := Lost(c);
    assert Possible(s, "h") && s.broadcast["h"].id !in WorkList(s.rows);
    assert "h" !in InFlightHashes(s.rows);
    assert N.Offer(s.alloc) == Some(s.broadcast["h"].nonce);
  }

  function Claimed3(c: Clash): TxIntent { Claimed1(c).(updatedAt := 80005) }

  /** The first loop sends once more. */
  function Third(c: Clash, phase: Phase): State {
    Lost(c).(rows := map[Key(c) := Claimed3(c)], clock := 80005,
             sending := if phase.Fresh? then {} else {Key(c)},
             attempts := map[1 := Attempt(Key(c), 40002, Handed(0, "h")), 2 := Attempt(Key(c), 80005, phase)])
  }

  function SignedOver(c: Clash): State {
    Third(c, Holding(0)).(lock := SectionOf(2), alloc := N.Alloc(Some(1), None))
  }

  /** The ended row gives way to a new attempt. */
  lemma Revives3(c: Clash)
    requires Clashes(c)
    ensures !Refuses(Lost(c).rows, c.first)
    ensures FreshRow(Lost(c).rows, c.first, Pending, None, None, 80005) == Claimed3(c)
  {
  }

  lemma ClaimOnceMore(c: Clash)
    requires Clashes(c)
    ensures Conforms(c.d, Loops(c), Lost(c), Claim(2, c.first, 80005))
    ensures DoClaim(Lost(c), 2, c.first, 80005) == Third(c, Fresh)
  {
    var s := Lost(c);
    assert s.attempts[2 := Attempt(Key(c), 80005, Fresh)] == Third(c, Fresh).attempts;
    Revives3(c);
    assert s.rows[Key(c) := Claimed3(c)] == Third(c, Fresh).rows;
  }

  lemma BeginThird(c: Clash)
    ensures DoBegin(Third(c, Fresh), 2) == Third(c, Begun)
  {
    assert Third(c, Fresh).attempts[2 := Attempt(Key(c), 80005, Begun)] == Third(c, Begun).attempts;
  }

  lemma EnterThird(c: Clash)
    ensures DoEnter(Third(c, Begun), 2) == SignedOver(c)
  {
    assert Third(c, Begun).attempts[2 := Attempt(Key(c), 80005, Holding(0))] == SignedOver(c).attempts;
  }

  lemma ThirdSendClaims(c: Clash) returns (run: seq<Event>)
    requires Clashes(c)
    ensures Leads(c, run, Third(c, Fresh))
  {
    run := FenceIsLost(c);
    ClaimOnceMore(c);
    run := On(c, run, Lost(c), Claim(2, c.first, 80005), Third(c, Fresh));
  }

  lemma NonceIsTakenAgain(c: Clash) returns (run: seq<Event>)
    requires Clashes(c)
    ensures Leads(c, run, SignedOver(c))
  {
    run := ThirdSendClaims(c);
    BeginThird(c);
    run := On(c, run, Third(c, Fresh), Begin(2), Third(c, Begun));
    EnterThird(c);
    run := On(c, run, Third(c, Begun), Enter(2), SignedOver(c));
  }

  lemma SignedOverMeans(c: Clash)
    ensures !SignsOverNothing(SignedOver(c))
  {
    assert Possible(SignedOver(c), "h") && SignedOver(c).attempts[2].phase == Holding(0);
  }

  /** Two loops under one key lose every promise: one reached state breaks three, another the fourth. */
  lemma SharedKeyLosesTheFence(c: Clash)
    requires Clashes(c)
    ensures Reaches(c.d, Lost(c)) && Reaches(c.d, SignedOver(c))
    ensures !OffersNothingLive(Lost(c)) && !RecordedAhead(Lost(c)) && !InFlightCovers(Lost(c))
    ensures !SignsOverNothing(SignedOver(c))
  {
    assert Init(EMPTY);
    var run := FenceIsLost(c);
    var over := NonceIsTakenAgain(c);
    LostMeans(c);
    SignedOverMeans(c);
  }

  // ---- The exact condition --------------------------------------------------------------------------

  lemma SomeClash(d: Deployment) returns (c: Clash)
    requires !KeysApart(d)
    ensures Clashes(c) && c.d == d
  {
    var t, u, i, j :| d(t, i) && d(u, j) && t != u && IdempotencyKey(i) == IdempotencyKey(j);
    c := Clash(d, t, u, i, j);
  }

  /** No nonce is ever signed over while a transaction at it can still be mined, if and only if keys are apart. */
  lemma NeverSignsOver(d: Deployment)
    ensures KeysApart(d) <==> forall s :: Reaches(d, s) ==> SignsOverNothing(s)
  {
    if KeysApart(d) {
      forall s | Reaches(d, s) ensures SignsOverNothing(s) { ReachedIsSafe(d, s); }
    } else {
      var c := SomeClash(d);
      SharedKeyLosesTheFence(c);
    }
  }

  /** The allocator never offers the nonce of a transaction that can still be mined, if and only if keys are apart. */
  lemma NeverOffersALiveNonce(d: Deployment)
    ensures KeysApart(d) <==> forall s :: Reaches(d, s) ==> OffersNothingLive(s)
  {
    if KeysApart(d) {
      forall s | Reaches(d, s) ensures OffersNothingLive(s) { ReachedIsSafe(d, s); }
    } else {
      var c := SomeClash(d);
      SharedKeyLosesTheFence(c);
    }
  }

  /** Rows are written ahead and stay on the work list while it matters, if and only if keys are apart. */
  lemma WrittenAhead(d: Deployment)
    ensures KeysApart(d) <==> forall s :: Reaches(d, s) ==> RecordedAhead(s)
  {
    if KeysApart(d) {
      forall s | Reaches(d, s) ensures RecordedAhead(s) { ReachedIsSafe(d, s); }
    } else {
      var c := SomeClash(d);
      SharedKeyLosesTheFence(c);
    }
  }

  /** The hashes of the live records cover what can still be mined, if and only if keys are apart. */
  lemma InFlightHashesCoverPossible(d: Deployment)
    ensures KeysApart(d) <==> forall s :: Reaches(d, s) ==> InFlightCovers(s)
  {
    if KeysApart(d) {
      forall s | Reaches(d, s) ensures InFlightCovers(s) { ReachedIsSafe(d, s); }
    } else {
      var c := SomeClash(d);
      SharedKeyLosesTheFence(c);
    }
  }
}
