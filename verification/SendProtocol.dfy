/**
 * The crash-safe send protocol as a state machine. Every `await` in the send path, in a reconcile pass
 * and in a nonce resync is an interleaving point here, and the process can crash between any two steps.
 *
 * The chain is constrained by four assumptions only:
 *  - a transaction mines only at the account's current nonce (`Mine`);
 *  - `pending` never reads below the mined count, and `latest` never above it;
 *  - once a broadcast transaction has been judged not to be in flight it no longer mines, unless the
 *    same bytes are broadcast again (`dead`);
 *  - every row write carries a fresh `updatedAt`, and a transaction hash commits to its nonce.
 */
module SendProtocol {
  import opened Common
  import opened Persistence
  import opened Liveness
  import opened Reconcile
  import N = NonceAllocator

  datatype Tx = Tx(id: Id, nonce: nat)

  /** Where one send stands between its claim and the last write made on its behalf. */
  datatype Phase =
    | Fresh                                // claimed, `beginSend` not reached yet
    | Begun                                // waiting for the allocator's lock
    | Holding(nonce: nat)                  // in the section, nonce reserved
    | Durable(nonce: nat, hash: TxHash)    // nonce and hash recorded, nothing on the wire
    | Handed(nonce: nat, hash: TxHash)     // bytes handed to the broadcaster
    | Stopped(nonce: nat, hash: TxHash)    // recorded, but certainly not broadcast
    | Threw                                // failed before the record landed
    | Awaiting(nonce: nat, hash: TxHash)   // the send is over, the receipt is not in

  datatype Attempt = Attempt(id: Id, claimedAt: nat, phase: Phase)

  datatype Lock =
    | Free
    | SectionOf(a: nat)
    | Resyncing(pending: nat, todo: Option<Rows>, live: set<nat>)

  /** A reconcile pass: what it read, which rows it has begun to judge, and what it decided to write. */
  datatype Pass = Pass(snapshot: Rows, nonces: Option<NonceCounts>, checked: set<Id>, writes: map<Id, Option<StoreOp>>)

  datatype State = State(
    rows: Rows,
    clock: nat,
    sending: set<Id>,
    alloc: N.Alloc,
    lock: Lock,
    attempts: map<nat, Attempt>,
    passes: map<nat, Pass>,
    signed: map<TxHash, nat>,
    broadcast: map<TxHash, Tx>,
    dead: set<TxHash>,
    mined: set<TxHash>,
    minedNonce: nat)

  datatype Event =
    | Claim(a: nat, input: IntentInput, t: nat)
    | Begin(a: nat)
    | Balk(a: nat)
    | Enter(a: nat)
    | SignFails(a: nat)
    | Sign(a: nat, hash: TxHash, t: nat)
    | SignUnanswered(a: nat, hash: TxHash, t: nat)
    | Halt(a: nat)
    | Broadcast(a: nat)
    | Leave(a: nat)
    | PostWrite(a: nat, horizon: Option<nat>, t: nat)
    | End(a: nat)
    | LateWrite(a: nat, horizon: Option<nat>, t: nat)
    | Outcome(a: nat, to: Status, t: nat)
    | PassRead(p: nat)
    | PassNonces(p: nat, counts: NonceCounts)
    | PassCheck(p: nat, id: Id)
    | PassJudge(p: nat, id: Id, check: LivenessCheck, answers: Answers, repair: Repair)
    | PassApply(p: nat, id: Id, t: nat)
    | ResyncStart(pending: nat)
    | ResyncRead
    | ResyncJudge(id: Id, check: LivenessCheck, reader: Reader)
    | ResyncSet
    | ResyncFail
    | Mine(hash: TxHash)
    | MineOther
    | Tick(t: nat)
    | Crash

  predicate Init(s: State) {
    && s.sending == {} && s.alloc == N.UNSEEDED && s.lock == Free
    && s.attempts == map[] && s.passes == map[]
    && s.signed == map[] && s.broadcast == map[] && s.dead == {} && s.mined == {}
    && forall id :: id in s.rows ==> s.rows[id].id == id && s.rows[id].updatedAt <= s.clock
  }

  /** The transaction was handed to the broadcaster and can still be mined. */
  predicate Possible(s: State, h: TxHash) {
    h in s.broadcast && h !in s.dead && s.minedNonce <= s.broadcast[h].nonce
  }

  predicate MidSend(p: Phase) { !p.Awaiting? }
  predicate HasRecord(p: Phase) { p.Durable? || p.Handed? || p.Stopped? }
  predicate SectionOver(p: Phase) { p.Handed? || p.Stopped? || p.Threw? }

  function SignedRows(rows: Rows): Rows {
    map id | id in rows && IsInFlight(rows[id]) && IsSigned(rows[id]) :: rows[id]
  }

  /** The resolver got as far as asking whether the transaction could be in flight. */
  predicate Consults(counts: NonceCounts, row: TxIntent, answers: Answers) {
    && IsSigned(row) && answers.receipt.None?
    && counts.latest <= row.nonce.value && counts.pending <= row.nonce.value
  }

  function Buried(s: State, h: TxHash): set<TxHash> {
    if h in s.broadcast then s.dead + {h} else s.dead
  }

  function MoveTo(s: State, a: nat, phase: Phase): State
    requires a in s.attempts
  {
    s.(attempts := s.attempts[a := s.attempts[a].(phase := phase)])
  }

  function Store(s: State, op: StoreOp, t: nat): State {
    s.(rows := After(s.rows, op, t), clock := t)
  }

  /** `markPending`: nonce and hash, bound to the attempt that was claimed. */
  function RecordOp(at: Attempt, nonce: nat, hash: TxHash): StoreOp {
    TransitionOp(at.id, Pending, NO_META.(nonce := Some(nonce), txHash := Some(hash)),
                 ANYTHING.(updatedAt := Some(at.claimedAt)))
  }

  /** The write after the section: bound to the claim only when no record ever landed. */
  function PostOp(at: Attempt, horizon: Option<nat>): StoreOp
    requires SectionOver(at.phase)
  {
    match at.phase
    case Handed(_, h) => TransitionOp(at.id, Submitted, NO_META.(txHash := Some(h), relayMaxBlock := horizon), ANYTHING)
    case Stopped(_, _) =>
      TransitionOp(at.id, Submitted, NO_META.(error := Some("send failed"), relayMaxBlock := horizon), ANYTHING)
    case Threw =>
      TransitionOp(at.id, Submitted, NO_META.(error := Some("send failed")), ANYTHING.(updatedAt := Some(at.claimedAt)))
  }

  /** A write about one transaction, bound to the hash it is about. */
  function HashBound(at: Attempt, to: Status, horizon: Option<nat>): StoreOp
    requires at.phase.Awaiting?
  {
    TransitionOp(at.id, to, NO_META.(txHash := Some(at.phase.hash), relayMaxBlock := horizon),
                 ANYTHING.(txHash := Some(at.phase.hash)))
  }

  /** A hash commits to its nonce, so the same bytes may be signed again but no others under that hash. */
  predicate MaySign(s: State, a: nat, h: TxHash, t: nat) {
    a in s.attempts && s.attempts[a].phase.Holding? && s.clock < t
    && (h in s.signed ==> s.signed[h] == s.attempts[a].phase.nonce)
  }

  predicate Enabled(s: State, e: Event) {
    match e
    case Claim(a, _, t) => a !in s.attempts && s.clock < t
    case Begin(a) => a in s.attempts && s.attempts[a].phase.Fresh?
    case Balk(a) => a in s.attempts && s.attempts[a].phase.Begun?
    case Enter(a) => a in s.attempts && s.attempts[a].phase.Begun? && s.lock == Free && N.Offer(s.alloc).Some?
    case SignFails(a) => a in s.attempts && s.attempts[a].phase.Holding?
    case Sign(a, h, t) => MaySign(s, a, h, t)
    case SignUnanswered(a, h, t) => MaySign(s, a, h, t)
    case Halt(a) => a in s.attempts && s.attempts[a].phase.Durable?
    case Broadcast(a) => a in s.attempts && s.attempts[a].phase.Durable?
    case Leave(a) => s.lock == SectionOf(a) && a in s.attempts && SectionOver(s.attempts[a].phase)
    case PostWrite(a, _, t) =>
      s.lock != SectionOf(a) && a in s.attempts && SectionOver(s.attempts[a].phase) && s.clock < t
    case End(a) => s.lock != SectionOf(a) && a in s.attempts && SectionOver(s.attempts[a].phase)
    case LateWrite(a, _, t) => a in s.attempts && s.attempts[a].phase.Awaiting? && s.clock < t
    case Outcome(a, to, t) =>
      && a in s.attempts && s.attempts[a].phase.Awaiting? && s.attempts[a].phase.nonce < s.minedNonce
      && to in {Confirmed, Failed} && s.clock < t
    case PassRead(p) => p !in s.passes
    case PassNonces(p, c) =>
      p in s.passes && s.passes[p].nonces.None? && c.latest <= s.minedNonce && c.latest <= c.pending
    case PassCheck(p, id) =>
      p in s.passes && id in s.passes[p].snapshot && id !in s.passes[p].checked && id !in s.sending
    case PassJudge(p, id, check, answers, _) =>
      && p in s.passes && id in s.passes[p].checked && id in s.passes[p].snapshot && id !in s.passes[p].writes
      && s.passes[p].nonces.Some? && check.now == s.clock
      && var row := s.passes[p].snapshot[id];
         !IsSafe(row) && (answers.receipt.Some? && row.txHash.Some? ==> row.txHash.value in s.mined)
    case PassApply(p, id, t) => p in s.passes && id in s.passes[p].writes && s.clock < t
    case ResyncStart(pending) => s.lock == Free && s.minedNonce <= pending
    case ResyncRead => s.lock.Resyncing? && s.lock.todo.None?
    case ResyncJudge(id, check, _) =>
      && s.lock.Resyncing? && s.lock.todo.Some? && id in s.lock.todo.value
      && IsSigned(s.lock.todo.value[id]) && check.now == s.clock
    case ResyncSet => s.lock.Resyncing? && s.lock.todo == Some(map[])
    case ResyncFail => s.lock.Resyncing?
    case Mine(h) => h in s.broadcast && h !in s.dead && s.broadcast[h].nonce == s.minedNonce
    case MineOther => true
    case Tick(t) => s.clock <= t
    case Crash => true
  }

  // ---- What each step does ---------------------------------------------------------------------

  function DoClaim(s: State, a: nat, input: IntentInput, t: nat): State {
    var s1 := Store(s, RecordIntentOp(input), t);
    if Refuses(s.rows, input) then s1
    else s1.(attempts := s.attempts[a := Attempt(IdempotencyKey(input), t, Fresh)])
  }

  function DoBegin(s: State, a: nat): State
    requires a in s.attempts
  {
    MoveTo(s, a, Begun).(sending := s.sending + {s.attempts[a].id})
  }

  function DoEnter(s: State, a: nat): State
    requires a in s.attempts && N.Offer(s.alloc).Some?
  {
    MoveTo(s, a, Holding(N.Offer(s.alloc).value)).(alloc := N.Taken(s.alloc), lock := SectionOf(a))
  }

  /** Sign, then record; a refused record leaves the row alone and ends the send. */
  function DoSign(s: State, a: nat, h: TxHash, t: nat): State
    requires a in s.attempts && s.attempts[a].phase.Holding?
  {
    var at := s.attempts[a];
    var op := RecordOp(at, at.phase.nonce, h);
    var s1 := Store(s, op, t).(signed := s.signed[h := at.phase.nonce]);
    MoveTo(s1, a, if TransitionApplies(s.rows, at.id, op.seen) then Durable(at.phase.nonce, h) else Threw)
  }

  /** The record lands, if it applies, but its answer is lost: the send ends as if it had not. */
  function DoSignUnanswered(s: State, a: nat, h: TxHash, t: nat): State
    requires a in s.attempts && s.attempts[a].phase.Holding?
  {
    var at := s.attempts[a];
    MoveTo(Store(s, RecordOp(at, at.phase.nonce, h), t).(signed := s.signed[h := at.phase.nonce]), a, Threw)
  }

  function DoHalt(s: State, a: nat): State
    requires a in s.attempts && s.attempts[a].phase.Durable?
  {
    MoveTo(s, a, Stopped(s.attempts[a].phase.nonce, s.attempts[a].phase.hash))
  }

  function DoBroadcast(s: State, a: nat): State
    requires a in s.attempts && s.attempts[a].phase.Durable?
  {
    var at := s.attempts[a];
    MoveTo(s, a, Handed(at.phase.nonce, at.phase.hash)).(
      broadcast := s.broadcast[at.phase.hash := Tx(at.id, at.phase.nonce)], dead := s.dead - {at.phase.hash})
  }

  function DoEnd(s: State, a: nat): State
    requires a in s.attempts && SectionOver(s.attempts[a].phase)
  {
    var at := s.attempts[a];
    var s1 := if at.phase.Handed? then MoveTo(s, a, Awaiting(at.phase.nonce, at.phase.hash))
              else s.(attempts := s.attempts - {a});
    s1.(sending := s.sending - {at.id})
  }

  function WithPass(s: State, p: nat, pass: Pass): State {
    s.(passes := s.passes[p := pass])
  }

  function DoJudge(s: State, p: nat, id: Id, check: LivenessCheck, answers: Answers, repair: Repair): State
    requires p in s.passes && id in s.passes[p].snapshot && s.passes[p].nonces.Some?
  {
    var pass := s.passes[p];
    var row := pass.snapshot[id];
    var op := WriteOf(pass.nonces.value, row, Turn(false, check, answers, repair, [], 0));
    WithPass(s, p, pass.(writes := pass.writes[id := op])).(
      dead := if Consults(pass.nonces.value, row, answers)
                 && !CouldBeInFlight(check, answers.reader, row.txHash.value, row.updatedAt, row.relayMaxBlock)
              then Buried(s, row.txHash.value) else s.dead)
  }

  function DoPassApply(s: State, p: nat, id: Id, t: nat): State
    requires p in s.passes && id in s.passes[p].writes
  {
    var op := s.passes[p].writes[id];
    if op.Some? then Store(s, op.value, t) else s
  }

  function DoResyncRead(s: State): State
    requires s.lock.Resyncing?
  {
    s.(lock := s.lock.(todo := Some(SignedRows(s.rows))))
  }

  function DoResyncJudge(s: State, id: Id, check: LivenessCheck, reader: Reader): State
    requires s.lock.Resyncing? && s.lock.todo.Some? && id in s.lock.todo.value && IsSigned(s.lock.todo.value[id])
  {
    var row := s.lock.todo.value[id];
    var rest := s.lock.(todo := Some(s.lock.todo.value - {id}));
    if CouldBeInFlight(check, reader, row.txHash.value, row.updatedAt, row.relayMaxBlock)
    then s.(lock := rest.(live := s.lock.live + {row.nonce.value}))
    else s.(lock := rest, dead := Buried(s, row.txHash.value))
  }

  ghost function DoResyncSet(s: State): State
    requires s.lock.Resyncing?
  {
    s.(alloc := N.Reseeded(N.FenceSeed(s.lock.pending, s.lock.live)), lock := Free)
  }

  function DoCrash(s: State): State {
    s.(attempts := map[], passes := map[], sending := {}, lock := Free, alloc := N.UNSEEDED)
  }

  ghost function Apply(s: State, e: Event): State
    requires Enabled(s, e)
  {
    match e
    case Claim(a, input, t) => DoClaim(s, a, input, t)
    case Begin(a) => DoBegin(s, a)
    case Balk(a) => MoveTo(s, a, Threw)
    case Enter(a) => DoEnter(s, a)
    case SignFails(a) => MoveTo(s, a, Threw)
    case Sign(a, h, t) => DoSign(s, a, h, t)
    case SignUnanswered(a, h, t) => DoSignUnanswered(s, a, h, t)
    case Halt(a) => DoHalt(s, a)
    case Broadcast(a) => DoBroadcast(s, a)
    case Leave(_) => s.(lock := Free)
    case PostWrite(a, horizon, t) => Store(s, PostOp(s.attempts[a], horizon), t)
    case End(a) => DoEnd(s, a)
    case LateWrite(a, horizon, t) => Store(s, HashBound(s.attempts[a], Submitted, horizon), t)
    case Outcome(a, to, t) => Store(s, HashBound(s.attempts[a], to, None), t)
    case PassRead(p) => WithPass(s, p, Pass(WorkList(s.rows), None, {}, map[]))
    case PassNonces(p, c) => WithPass(s, p, s.passes[p].(nonces := Some(c)))
    case PassCheck(p, id) => WithPass(s, p, s.passes[p].(checked := s.passes[p].checked + {id}))
    case PassJudge(p, id, check, answers, repair) => DoJudge(s, p, id, check, answers, repair)
    case PassApply(p, id, t) => DoPassApply(s, p, id, t)
    case ResyncStart(pending) => s.(lock := Resyncing(pending, None, {}))
    case ResyncRead => DoResyncRead(s)
    case ResyncJudge(id, check, reader) => DoResyncJudge(s, id, check, reader)
    case ResyncSet => DoResyncSet(s)
    case ResyncFail => s.(lock := Free)
    case Mine(h) => s.(minedNonce := s.minedNonce + 1, mined := s.mined + {h})
    case MineOther => s.(minedNonce := s.minedNonce + 1)
    case Tick(t) => s.(clock := t)
    case Crash => DoCrash(s)
  }

  // ---- Runs ------------------------------------------------------------------------------------

  ghost predicate Run(s: State, events: seq<Event>)
    decreases |events|
  {
    events == [] || (Enabled(s, events[0]) && Run(Apply(s, events[0]), events[1..]))
  }

  ghost function Final(s: State, events: seq<Event>): State
    requires Run(s, events)
    decreases |events|
  {
    if events == [] then s else Final(Apply(s, events[0]), events[1..])
  }

  /** A claim does not overlap another send of the same intent that this process has not finished. */
  predicate Exclusive(s: State, e: Event) {
    e.Claim? ==>
      forall a :: a in s.attempts && MidSend(s.attempts[a].phase) ==> s.attempts[a].id != IdempotencyKey(e.input)
  }

  ghost predicate ExclusiveRun(s: State, events: seq<Event>)
    requires Run(s, events)
    decreases |events|
  {
    events == [] || (Exclusive(s, events[0]) && ExclusiveRun(Apply(s, events[0]), events[1..]))
  }
}
