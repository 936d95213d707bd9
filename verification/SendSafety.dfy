/** Safety of the send protocol over every run: the inductive invariant, step by step. */
module SendSafety {
  import opened Common
  import opened Persistence
  import opened Liveness
  import opened Reconcile
  import N = NonceAllocator
  import opened SendProtocol

  // ---- The invariant ---------------------------------------------------------------------------

  /** The row under the transaction's key carries its nonce and hash and is on the work list. */
  predicate Carries(row: TxIntent, nonce: nat, h: TxHash) {
    row.nonce == Some(nonce) && row.txHash == Some(h)
  }

  /** Every transaction that can still be mined is on the work list, under its own nonce and hash. */
  ghost predicate Carried(s: State) {
    forall h :: Possible(s, h) ==>
      s.broadcast[h].id in s.rows && Carries(s.rows[s.broadcast[h].id], s.broadcast[h].nonce, h)
      && IsInFlight(s.rows[s.broadcast[h].id])
  }

  /** The lease is above every such transaction, and the hole is none of them. */
  ghost predicate Fenced(s: State) {
    && (s.alloc.hole.Some? ==> s.alloc.next.Some? && s.alloc.hole.value < s.alloc.next.value)
    && forall h :: Possible(s, h) && s.alloc.next.Some? ==>
         s.broadcast[h].nonce < s.alloc.next.value && s.alloc.hole != Some(s.broadcast[h].nonce)
  }

  /** Two transactions that can still be mined never share a nonce. */
  ghost predicate Apart(s: State) {
    forall g, h :: Possible(s, g) && Possible(s, h) && g != h ==> s.broadcast[g].nonce != s.broadcast[h].nonce
  }

  /** A send holding a nonce owns the lock, and nothing that can still be mined holds that nonce. */
  ghost predicate InSection(s: State) {
    forall a :: a in s.attempts && (s.attempts[a].phase.Holding? || s.attempts[a].phase.Durable?) ==>
      && s.lock == SectionOf(a)
      && s.alloc.hole.None? && s.alloc.next.Some? && s.attempts[a].phase.nonce < s.alloc.next.value
      && forall h :: Possible(s, h) ==> s.broadcast[h].nonce != s.attempts[a].phase.nonce
  }

  /** While a send is open and has recorded itself, its row is still its own. */
  ghost predicate Owned(s: State) {
    forall a :: a in s.attempts && HasRecord(s.attempts[a].phase) ==>
      var at := s.attempts[a];
      && at.id in s.rows && Carries(s.rows[at.id], at.phase.nonce, at.phase.hash)
      && (IsInFlight(s.rows[at.id]) || at.phase.nonce < s.minedNonce)
  }

  /** A send that recorded nothing claimed a row without nonce or hash, if the row is still its claim. */
  ghost predicate Untouched(s: State) {
    forall a :: a in s.attempts && !HasRecord(s.attempts[a].phase) && !s.attempts[a].phase.Awaiting? ==>
      var at := s.attempts[a];
      at.id in s.rows
      && (s.rows[at.id].updatedAt == at.claimedAt ==> s.rows[at.id].nonce.None? && s.rows[at.id].txHash.None?)
  }

  /** Every open send is in the `sending` set. */
  ghost predicate Covered(s: State) {
    forall a :: a in s.attempts && MidSend(s.attempts[a].phase) && !s.attempts[a].phase.Fresh? ==>
      s.attempts[a].id in s.sending
  }

  ghost predicate Solo(s: State) {
    forall a, b :: a in s.attempts && b in s.attempts && a != b
                   && MidSend(s.attempts[a].phase) && MidSend(s.attempts[b].phase) ==>
      s.attempts[a].id != s.attempts[b].id
  }

  /** Hashes commit to nonces, everywhere one is written down. */
  ghost predicate Committed(s: State) {
    && (forall h :: h in s.broadcast ==> h in s.signed && s.signed[h] == s.broadcast[h].nonce)
    && (forall h :: h in s.mined ==> h in s.signed && s.signed[h] < s.minedNonce)
    && (forall a :: a in s.attempts && (HasRecord(s.attempts[a].phase) || s.attempts[a].phase.Awaiting?) ==>
          s.attempts[a].phase.hash in s.signed && s.signed[s.attempts[a].phase.hash] == s.attempts[a].phase.nonce)
  }

  ghost predicate Stamps(s: State) {
    && (forall id :: id in s.rows ==> s.rows[id].id == id && s.rows[id].updatedAt <= s.clock)
    && (forall a :: a in s.attempts ==> s.attempts[a].claimedAt <= s.clock)
  }

  /** What a pass read is an earlier version of the row, or the row itself; the stamp tells which. */
  ghost predicate PassVersions(s: State, pass: Pass) {
    && pass.checked <= pass.snapshot.Keys && pass.writes.Keys <= pass.checked
    && (pass.nonces.Some? ==> pass.nonces.value.latest <= s.minedNonce)
    && (forall id :: id in pass.snapshot ==>
          && id in s.rows && pass.snapshot[id].id == id
          && pass.snapshot[id].updatedAt <= s.rows[id].updatedAt
          && (pass.snapshot[id].updatedAt == s.rows[id].updatedAt ==> pass.snapshot[id] == s.rows[id]))
  }

  ghost predicate Versions(s: State) {
    forall p :: p in s.passes ==> PassVersions(s, s.passes[p])
  }

  predicate Current(s: State, pass: Pass, id: Id) {
    id in pass.snapshot && id in s.rows && pass.snapshot[id].updatedAt == s.rows[id].updatedAt
  }

  /** No pass is judging the row of an open send as it stands now. */
  ghost predicate Screened(s: State) {
    forall p, a :: p in s.passes && a in s.attempts && HasRecord(s.attempts[a].phase)
                   && s.attempts[a].id in s.passes[p].checked ==>
      !Current(s, s.passes[p], s.attempts[a].id)
  }

  /** A pass only ever writes guarded transitions that keep nonce and hash. */
  predicate GuardedWrite(op: StoreOp, row: TxIntent) {
    && op.TransitionOp? && op.id == row.id && op.seen == AsRead(row)
    && op.meta.nonce.None? && (op.meta.txHash.None? || op.meta.txHash == row.txHash)
  }

  /** Decided writes: in place, or about a row that carries nothing that can still be mined. */
  ghost predicate WriteJustified(s: State, pass: Pass, id: Id, op: StoreOp)
    requires id in pass.snapshot
  {
    && GuardedWrite(op, pass.snapshot[id])
    && (op.to !in IN_FLIGHT_ON_CHAIN && Current(s, pass, id) ==>
          forall h :: Possible(s, h) ==> s.broadcast[h].id != id)
  }

  ghost predicate Justified(s: State) {
    forall p, id :: p in s.passes && id in s.passes[p].writes && id in s.passes[p].snapshot
                    && s.passes[p].writes[id].Some? ==>
      WriteJustified(s, s.passes[p], id, s.passes[p].writes[id].value)
  }

  /** During a resync every transaction that can still be mined is fenced already or waiting to be judged. */
  ghost predicate Surveyed(s: State) {
    s.lock.Resyncing? && s.lock.todo.Some? ==>
      && (forall id :: id in s.lock.todo.value ==> IsSigned(s.lock.todo.value[id]))
      && forall h :: Possible(s, h) ==>
           || s.broadcast[h].nonce in s.lock.live
           || (s.broadcast[h].id in s.lock.todo.value
               && Carries(s.lock.todo.value[s.broadcast[h].id], s.broadcast[h].nonce, h))
  }

  ghost predicate ChainSound(s: State) {
    Carried(s) && Fenced(s) && Apart(s) && InSection(s) && Committed(s) && Surveyed(s)
  }

  ghost predicate RecordsSound(s: State) {
    Owned(s) && Untouched(s) && Covered(s) && Solo(s) && Stamps(s)
  }

  ghost predicate PassesSound(s: State) {
    Versions(s) && Screened(s) && Justified(s)
  }

  ghost predicate Inv(s: State) {
    ChainSound(s) && RecordsSound(s) && PassesSound(s)
  }

  lemma InitHolds(s: State)
    requires Init(s)
    ensures Inv(s)
  {
  }

  // ---- Writing one row -------------------------------------------------------------------------

  /** The write disturbs neither a transaction that can still be mined nor the record of an open send. */
  ghost predicate Harmless(s: State, id: Id, row: TxIntent) {
    && (forall h :: Possible(s, h) && s.broadcast[h].id == id ==>
          Carries(row, s.broadcast[h].nonce, h) && IsInFlight(row))
    && (forall a :: a in s.attempts && HasRecord(s.attempts[a].phase) && s.attempts[a].id == id ==>
          Carries(row, s.attempts[a].phase.nonce, s.attempts[a].phase.hash)
          && (IsInFlight(row) || s.attempts[a].phase.nonce < s.minedNonce))
  }

  function Put(s: State, id: Id, row: TxIntent, t: nat): State {
    s.(rows := s.rows[id := row], clock := t)
  }

  lemma WriteKeepsChain(s: State, id: Id, row: TxIntent, t: nat)
    requires ChainSound(s) && Harmless(s, id, row)
    ensures ChainSound(Put(s, id, row, t))
  {
    assert forall h :: Possible(Put(s, id, row, t), h) <==> Possible(s, h);
  }

  lemma WriteKeepsRecords(s: State, id: Id, row: TxIntent, t: nat)
    requires RecordsSound(s) && Harmless(s, id, row)
    requires s.clock < t && row.id == id && row.updatedAt == t
    ensures RecordsSound(Put(s, id, row, t))
  {
  }

  /** Whatever a pass had read of the row is stale once the row carries a newer stamp. */
  lemma WriteKeepsPasses(s: State, id: Id, row: TxIntent, t: nat)
    requires PassesSound(s) && Stamps(s)
    requires s.clock < t && row.id == id && row.updatedAt == t
    ensures PassesSound(Put(s, id, row, t))
  {
    var s' := Put(s, id, row, t);
    forall p | p in s'.passes
      ensures PassVersions(s', s'.passes[p])
      ensures forall i :: Current(s', s'.passes[p], i) ==> i != id && Current(s, s.passes[p], i)
    {
      assert PassVersions(s, s.passes[p]);
    }
    forall p, i | p in s'.passes && i in s'.passes[p].writes && i in s'.passes[p].snapshot
                  && s'.passes[p].writes[i].Some?
      ensures WriteJustified(s', s'.passes[p], i, s'.passes[p].writes[i].value)
    {
      assert WriteJustified(s, s.passes[p], i, s.passes[p].writes[i].value);
      assert forall h :: Possible(s', h) <==> Possible(s, h);
    }
  }

  /** A freshly stamped, harmless write to one row keeps the invariant. */
  lemma WriteKeeps(s: State, id: Id, row: TxIntent, t: nat)
    requires Inv(s) && Harmless(s, id, row)
    requires s.clock < t && row.id == id && row.updatedAt == t
    ensures Inv(Put(s, id, row, t))
  {
    WriteKeepsChain(s, id, row, t);
    WriteKeepsRecords(s, id, row, t);
    WriteKeepsPasses(s, id, row, t);
  }

  /** No pass is judging the row of this intent as it stands. */
  ghost predicate Unjudged(s: State, id: Id) {
    forall p :: p in s.passes && id in s.passes[p].checked ==> !Current(s, s.passes[p], id)
  }

  /** Passes stay sound while rows and passes stand still and nothing new can be mined or is recorded. */
  lemma PassesFramed(s: State, s': State)
    requires PassesSound(s)
    requires s'.rows == s.rows && s'.passes == s.passes && s.minedNonce <= s'.minedNonce
    requires forall h :: Possible(s', h) ==>
               (Possible(s, h) && s.broadcast[h] == s'.broadcast[h]) || Unjudged(s, s'.broadcast[h].id)
    requires forall a :: a in s'.attempts && HasRecord(s'.attempts[a].phase) ==>
               a in s.attempts && HasRecord(s.attempts[a].phase) && s.attempts[a].id == s'.attempts[a].id
    ensures PassesSound(s')
  {
    forall p | p in s'.passes
      ensures PassVersions(s', s'.passes[p])
    {
      assert PassVersions(s, s.passes[p]);
    }
    forall p, i | p in s'.passes && i in s'.passes[p].writes && i in s'.passes[p].snapshot
                  && s'.passes[p].writes[i].Some?
      ensures WriteJustified(s', s'.passes[p], i, s'.passes[p].writes[i].value)
    {
      assert PassVersions(s, s.passes[p]);
      assert WriteJustified(s, s.passes[p], i, s.passes[p].writes[i].value);
    }
    forall p, a | p in s'.passes && a in s'.attempts && HasRecord(s'.attempts[a].phase)
                  && s'.attempts[a].id in s'.passes[p].checked
      ensures !Current(s', s'.passes[p], s'.attempts[a].id)
    {
      assert !Current(s, s.passes[p], s.attempts[a].id);
    }
  }

  lemma TickKeeps(s: State, t: nat)
    requires Inv(s) && s.clock <= t
    ensures Inv(s.(clock := t))
  {
    assert forall h :: Possible(s.(clock := t), h) <==> Possible(s, h);
    PassesFramed(s, s.(clock := t));
  }

  /** A guarded transition is either the write of one moved row or no change but the clock. */
  lemma TransitionShape(s: State, op: StoreOp, t: nat)
    requires op.TransitionOp?
    ensures Store(s, op, t) ==
              if TransitionApplies(s.rows, op.id, op.seen)
              then Put(s, op.id, Moved(s.rows[op.id], op.to, op.meta, t), t)
              else s.(clock := t)
  {
  }

  /** A transition that keeps nonce and hash and stays on the work list is harmless. */
  lemma InPlaceKeeps(s: State, op: StoreOp, t: nat)
    requires Inv(s) && s.clock < t && op.TransitionOp? && op.to in IN_FLIGHT_ON_CHAIN && op.meta.nonce.None?
    requires op.meta.txHash.Some? && TransitionApplies(s.rows, op.id, op.seen) ==>
              s.rows[op.id].txHash == op.meta.txHash
    ensures Inv(Store(s, op, t))
  {
    TransitionShape(s, op, t);
    if TransitionApplies(s.rows, op.id, op.seen) {
      WriteKeeps(s, op.id, Moved(s.rows[op.id], op.to, op.meta, t), t);
    } else {
      TickKeeps(s, t);
    }
  }

  // ---- One send ---------------------------------------------------------------------------------

  /** Nothing about the chain, the store or the allocator differs. */
  predicate SameWorld(s: State, s': State) {
    && s'.rows == s.rows && s'.clock == s.clock && s'.alloc == s.alloc
    && s'.broadcast == s.broadcast && s'.dead == s.dead && s'.mined == s.mined && s'.minedNonce == s.minedNonce
  }

  /** A phase one send may move on to without a record being made or a nonce being taken. */
  predicate MovesOn(from: Phase, to: Phase) {
    || (from.Fresh? && to.Begun?)
    || ((from.Begun? || from.Holding?) && to.Threw?)
    || (from.Durable? && to == Stopped(from.nonce, from.hash))
    || (from.Handed? && to == Awaiting(from.nonce, from.hash))
  }

  /** Only the sends differ: what holds of the chain, the rows and the allocator still holds. */
  lemma ChainFramed(s: State, s': State)
    requires ChainSound(s) && SameWorld(s, s') && s'.lock == s.lock && s'.signed == s.signed
    requires InSection(s') && Committed(s')
    ensures ChainSound(s')
  {
    assert forall h :: Possible(s', h) <==> Possible(s, h);
  }

  lemma MoveKeepsChain(s: State, a: nat, to: Phase, sending: set<Id>)
    requires ChainSound(s) && a in s.attempts && MovesOn(s.attempts[a].phase, to)
    ensures ChainSound(MoveTo(s, a, to).(sending := sending))
  {
    var s' := MoveTo(s, a, to).(sending := sending);
    assert InSection(s') by { assert forall h :: Possible(s', h) ==> Possible(s, h); }
    assert Committed(s');
    ChainFramed(s, s');
  }

  lemma MoveKeepsRecords(s: State, a: nat, to: Phase, sending: set<Id>)
    requires RecordsSound(s) && a in s.attempts && MovesOn(s.attempts[a].phase, to)
    requires if to.Awaiting? then sending == s.sending - {s.attempts[a].id}
             else sending == s.sending + {s.attempts[a].id}
    ensures RecordsSound(MoveTo(s, a, to).(sending := sending))
  {
  }

  lemma MoveKeeps(s: State, a: nat, to: Phase, sending: set<Id>)
    requires Inv(s) && a in s.attempts && MovesOn(s.attempts[a].phase, to)
    requires if to.Awaiting? then sending == s.sending - {s.attempts[a].id}
             else sending == s.sending + {s.attempts[a].id}
    ensures Inv(MoveTo(s, a, to).(sending := sending))
  {
    var s' := MoveTo(s, a, to).(sending := sending);
    MoveKeepsChain(s, a, to, sending);
    MoveKeepsRecords(s, a, to, sending);
    assert forall h :: Possible(s', h) <==> Possible(s, h);
    PassesFramed(s, s');
  }

  lemma MoveOnKeeps(s: State, a: nat, to: Phase)
    requires Inv(s) && a in s.attempts && MovesOn(s.attempts[a].phase, to)
    requires !s.attempts[a].phase.Fresh? && !to.Awaiting?
    ensures Inv(MoveTo(s, a, to))
  {
    assert s.sending + {s.attempts[a].id} == s.sending;
    MoveKeeps(s, a, to, s.sending);
    assert MoveTo(s, a, to).(sending := s.sending) == MoveTo(s, a, to);
  }

  function Dropped(s: State, a: nat): State
    requires a in s.attempts
  {
    s.(attempts := s.attempts - {a}, sending := s.sending - {s.attempts[a].id})
  }

  lemma DropKeepsRecords(s: State, a: nat)
    requires RecordsSound(s) && a in s.attempts && SectionOver(s.attempts[a].phase)
    ensures RecordsSound(Dropped(s, a))
  {
    assert Solo(s);
  }

  lemma DropKeeps(s: State, a: nat)
    requires Inv(s) && a in s.attempts && SectionOver(s.attempts[a].phase)
    ensures Inv(Dropped(s, a))
  {
    var s' := Dropped(s, a);
    DropKeepsRecords(s, a);
    assert forall h :: Possible(s', h) <==> Possible(s, h);
    PassesFramed(s, s');
  }

  lemma EndKeeps(s: State, a: nat)
    requires Inv(s) && a in s.attempts && SectionOver(s.attempts[a].phase)
    ensures Inv(DoEnd(s, a))
  {
    var at := s.attempts[a];
    if at.phase.Handed? {
      MoveKeeps(s, a, Awaiting(at.phase.nonce, at.phase.hash), s.sending - {at.id});
    } else {
      DropKeeps(s, a);
    }
  }

  lemma NewAttemptKeepsChain(s: State, a: nat, id: Id)
    requires ChainSound(s) && a !in s.attempts
    ensures ChainSound(s.(attempts := s.attempts[a := Attempt(id, s.clock, Fresh)]))
  {
    var s' := s.(attempts := s.attempts[a := Attempt(id, s.clock, Fresh)]);
    assert InSection(s') by { assert forall h :: Possible(s', h) ==> Possible(s, h); }
    assert Committed(s');
    ChainFramed(s, s');
  }

  lemma NewAttemptKeepsRecords(s: State, a: nat, id: Id)
    requires RecordsSound(s) && a !in s.attempts && id in s.rows && s.rows[id].nonce.None? && s.rows[id].txHash.None?
    requires forall b :: b in s.attempts && MidSend(s.attempts[b].phase) ==> s.attempts[b].id != id
    ensures RecordsSound(s.(attempts := s.attempts[a := Attempt(id, s.clock, Fresh)]))
  {
  }

  lemma NewAttemptKeeps(s: State, a: nat, id: Id)
    requires Inv(s) && a !in s.attempts && id in s.rows && s.rows[id].nonce.None? && s.rows[id].txHash.None?
    requires forall b :: b in s.attempts && MidSend(s.attempts[b].phase) ==> s.attempts[b].id != id
    ensures Inv(s.(attempts := s.attempts[a := Attempt(id, s.clock, Fresh)]))
  {
    var s' := s.(attempts := s.attempts[a := Attempt(id, s.clock, Fresh)]);
    NewAttemptKeepsChain(s, a, id);
    NewAttemptKeepsRecords(s, a, id);
    assert forall h :: Possible(s', h) <==> Possible(s, h);
    PassesFramed(s, s');
  }

  lemma ClaimKeeps(s: State, a: nat, input: IntentInput, t: nat)
    requires Inv(s) && a !in s.attempts && s.clock < t
    requires forall b :: b in s.attempts && MidSend(s.attempts[b].phase) ==> s.attempts[b].id != IdempotencyKey(input)
    ensures Inv(DoClaim(s, a, input, t))
  {
    var id := IdempotencyKey(input);
    if Refuses(s.rows, input) {
      TickKeeps(s, t);
    } else {
      var row := FreshRow(s.rows, input, Pending, None, None, t);
      WriteKeeps(s, id, row, t);
      NewAttemptKeeps(Put(s, id, row, t), a, id);
    }
  }

  lemma EnterKeepsChain(s: State, a: nat)
    requires ChainSound(s) && a in s.attempts && s.attempts[a].phase.Begun? && s.lock == Free && N.Offer(s.alloc).Some?
    ensures ChainSound(DoEnter(s, a))
  {
    var s' := DoEnter(s, a);
    assert forall h :: Possible(s', h) <==> Possible(s, h);
    assert InSection(s');
    assert Committed(s');
  }

  lemma EnterKeepsRecords(s: State, a: nat)
    requires RecordsSound(s) && a in s.attempts && s.attempts[a].phase.Begun? && N.Offer(s.alloc).Some?
    ensures RecordsSound(DoEnter(s, a))
  {
  }

  lemma EnterKeeps(s: State, a: nat)
    requires Inv(s) && a in s.attempts && s.attempts[a].phase.Begun? && s.lock == Free && N.Offer(s.alloc).Some?
    ensures Inv(DoEnter(s, a))
  {
    EnterKeepsChain(s, a);
    EnterKeepsRecords(s, a);
    assert forall h :: Possible(DoEnter(s, a), h) <==> Possible(s, h);
    PassesFramed(s, DoEnter(s, a));
  }

  /** Signing over a held nonce, whatever becomes of the record. */
  lemma SignedKeepsChain(s: State, h: TxHash, n: nat)
    requires ChainSound(s) && (h in s.signed ==> s.signed[h] == n)
    ensures ChainSound(s.(signed := s.signed[h := n]))
  {
    assert forall g :: Possible(s.(signed := s.signed[h := n]), g) <==> Possible(s, g);
  }

  lemma SignedKeeps(s: State, h: TxHash, n: nat)
    requires Inv(s) && (h in s.signed ==> s.signed[h] == n)
    ensures Inv(s.(signed := s.signed[h := n]))
  {
    var s' := s.(signed := s.signed[h := n]);
    SignedKeepsChain(s, h, n);
    assert RecordsSound(s');
    assert forall g :: Possible(s', g) <==> Possible(s, g);
    PassesFramed(s, s');
  }

  /** The record has landed on the claimed row: the send is durable and its row is its own. */
  lemma RecordedKeepsChain(s: State, a: nat, n: nat, h: TxHash)
    requires ChainSound(s) && a in s.attempts && s.attempts[a].phase == Holding(n) && h in s.signed && s.signed[h] == n
    ensures ChainSound(MoveTo(s, a, Durable(n, h)))
  {
    assert forall g :: Possible(MoveTo(s, a, Durable(n, h)), g) <==> Possible(s, g);
  }

  lemma RecordedKeepsPass(s: State, a: nat, n: nat, h: TxHash, pass: Pass)
    requires PassSound(s, pass) && a in s.attempts && s.attempts[a].phase == Holding(n)
    requires !Current(s, pass, s.attempts[a].id)
    ensures PassSound(MoveTo(s, a, Durable(n, h)), pass)
  {
    var s' := MoveTo(s, a, Durable(n, h));
    forall i | i in pass.writes && i in pass.snapshot && pass.writes[i].Some?
      ensures WriteJustified(s', pass, i, pass.writes[i].value)
    {
      assert WriteJustified(s, pass, i, pass.writes[i].value);
      assert forall g :: Possible(s', g) <==> Possible(s, g);
    }
    forall b | b in s'.attempts && HasRecord(s'.attempts[b].phase) && s'.attempts[b].id in pass.checked
      ensures !Current(s', pass, s'.attempts[b].id)
    {
      assert b != a ==> !Current(s, pass, s.attempts[b].id);
    }
  }

  lemma RecordedKeepsPasses(s: State, a: nat, n: nat, h: TxHash)
    requires PassesSound(s) && a in s.attempts && s.attempts[a].phase == Holding(n)
    requires forall p :: p in s.passes ==> !Current(s, s.passes[p], s.attempts[a].id)
    ensures PassesSound(MoveTo(s, a, Durable(n, h)))
  {
    forall p | p in s.passes
      ensures PassSound(MoveTo(s, a, Durable(n, h)), s.passes[p])
    {
      SoundPass(s, p);
      RecordedKeepsPass(s, a, n, h, s.passes[p]);
    }
    AllSound(MoveTo(s, a, Durable(n, h)));
  }

  lemma RecordedKeeps(s: State, a: nat, n: nat, h: TxHash)
    requires Inv(s) && a in s.attempts && s.attempts[a].phase == Holding(n) && h in s.signed && s.signed[h] == n
    requires s.attempts[a].id in s.rows && Carries(s.rows[s.attempts[a].id], n, h)
    requires IsInFlight(s.rows[s.attempts[a].id])
    requires forall p :: p in s.passes ==> !Current(s, s.passes[p], s.attempts[a].id)
    ensures Inv(MoveTo(s, a, Durable(n, h)))
  {
    RecordedKeepsChain(s, a, n, h);
    RecordedKeepsPasses(s, a, n, h);
    assert RecordsSound(MoveTo(s, a, Durable(n, h)));
  }

  /** `markPending` lands on the very row that was claimed, which nothing that can be mined hangs on. */
  lemma RecordWrites(s: State, a: nat, n: nat, h: TxHash, t: nat)
    requires Inv(s) && a in s.attempts && s.attempts[a].phase == Holding(n) && s.clock < t
    requires TransitionApplies(s.rows, s.attempts[a].id, RecordOp(s.attempts[a], n, h).seen)
    ensures var at := s.attempts[a];
            var row := Moved(s.rows[at.id], Pending, RecordOp(at, n, h).meta, t);
            Store(s, RecordOp(at, n, h), t) == Put(s, at.id, row, t) && Inv(Put(s, at.id, row, t))
  {
    var at := s.attempts[a];
    TransitionShape(s, RecordOp(at, n, h), t);
    assert s.rows[at.id].txHash.None?;
    WriteKeeps(s, at.id, Moved(s.rows[at.id], Pending, RecordOp(at, n, h).meta, t), t);
  }

  lemma RecordLands(s: State, a: nat, n: nat, h: TxHash, t: nat)
    requires Inv(s) && a in s.attempts && s.attempts[a].phase == Holding(n) && s.clock < t
    requires h in s.signed && s.signed[h] == n
    requires TransitionApplies(s.rows, s.attempts[a].id, RecordOp(s.attempts[a], n, h).seen)
    ensures Inv(MoveTo(Store(s, RecordOp(s.attempts[a], n, h), t), a, Durable(n, h)))
  {
    var at := s.attempts[a];
    RecordWrites(s, a, n, h, t);
    var s1 := Store(s, RecordOp(at, n, h), t);
    forall p | p in s1.passes
      ensures !Current(s1, s1.passes[p], at.id)
    {
      assert PassVersions(s, s.passes[p]);
    }
    RecordedKeeps(s1, a, n, h);
  }

  /** A record whose answer is lost leaves a row that nothing on the wire hangs on, and a send that has ended. */
  lemma UnansweredKeeps(s: State, a: nat, h: TxHash, t: nat)
    requires Inv(s) && a in s.attempts && s.attempts[a].phase.Holding? && s.clock < t
    requires h in s.signed ==> s.signed[h] == s.attempts[a].phase.nonce
    ensures Inv(DoSignUnanswered(s, a, h, t))
  {
    var at := s.attempts[a];
    var n := at.phase.nonce;
    var op := RecordOp(at, n, h);
    SignedKeeps(s, h, n);
    var s0 := s.(signed := s.signed[h := n]);
    assert Store(s0, op, t) == Store(s, op, t).(signed := s.signed[h := n]);
    if TransitionApplies(s.rows, at.id, op.seen) {
      RecordWrites(s0, a, n, h, t);
    } else {
      TransitionShape(s0, op, t);
      TickKeeps(s0, t);
    }
    MoveOnKeeps(Store(s0, op, t), a, Threw);
  }

  lemma SignKeeps(s: State, a: nat, h: TxHash, t: nat)
    requires Inv(s) && a in s.attempts && s.attempts[a].phase.Holding? && s.clock < t
    requires h in s.signed ==> s.signed[h] == s.attempts[a].phase.nonce
    ensures Inv(DoSign(s, a, h, t))
  {
    var at := s.attempts[a];
    var n := at.phase.nonce;
    var op := RecordOp(at, n, h);
    SignedKeeps(s, h, n);
    var s0 := s.(signed := s.signed[h := n]);
    assert Store(s0, op, t) == Store(s, op, t).(signed := s.signed[h := n]);
    if TransitionApplies(s.rows, at.id, op.seen) {
      RecordLands(s0, a, n, h, t);
    } else {
      TransitionShape(s0, op, t);
      TickKeeps(s0, t);
      MoveOnKeeps(Store(s0, op, t), a, Threw);
    }
  }

  /**
   * Handing the bytes over: from here on the transaction can be mined. Its row carries it already,
   * its nonce is free, and no pass is judging that row.
   */
  ghost predicate Adds(s: State, s': State, own: TxHash) {
    forall h :: Possible(s', h) ==> h == own || (Possible(s, h) && s'.broadcast[h] == s.broadcast[h])
  }

  lemma BroadcastAdds(s: State, a: nat)
    requires a in s.attempts && s.attempts[a].phase.Durable?
    ensures Adds(s, DoBroadcast(s, a), s.attempts[a].phase.hash)
  {
  }

  lemma BroadcastKeepsFence(s: State, a: nat)
    requires Carried(s) && Fenced(s) && Apart(s) && InSection(s) && Owned(s) && a in s.attempts
    requires s.attempts[a].phase.Durable?
    ensures Carried(DoBroadcast(s, a)) && Fenced(DoBroadcast(s, a)) && Apart(DoBroadcast(s, a))
  {
    BroadcastAdds(s, a);
    var s' := DoBroadcast(s, a);
    assert s'.broadcast[s.attempts[a].phase.hash] == Tx(s.attempts[a].id, s.attempts[a].phase.nonce);
  }

  lemma BroadcastKeepsRest(s: State, a: nat)
    requires ChainSound(s) && RecordsSound(s) && a in s.attempts && s.attempts[a].phase.Durable?
    ensures InSection(DoBroadcast(s, a)) && Committed(DoBroadcast(s, a)) && Surveyed(DoBroadcast(s, a))
    ensures RecordsSound(DoBroadcast(s, a))
  {
  }

  lemma BroadcastKeeps(s: State, a: nat)
    requires Inv(s) && a in s.attempts && s.attempts[a].phase.Durable?
    ensures Inv(DoBroadcast(s, a))
  {
    BroadcastAdds(s, a);
    BroadcastKeepsFence(s, a);
    BroadcastKeepsRest(s, a);
    PassesFramed(s, DoBroadcast(s, a));
  }

  lemma PostWriteKeeps(s: State, a: nat, horizon: Option<nat>, t: nat)
    requires Inv(s) && a in s.attempts && SectionOver(s.attempts[a].phase) && s.clock < t
    ensures Inv(Store(s, PostOp(s.attempts[a], horizon), t))
  {
    InPlaceKeeps(s, PostOp(s.attempts[a], horizon), t);
  }

  lemma LateWriteKeeps(s: State, a: nat, horizon: Option<nat>, t: nat)
    requires Inv(s) && a in s.attempts && s.attempts[a].phase.Awaiting? && s.clock < t
    ensures Inv(Store(s, HashBound(s.attempts[a], Submitted, horizon), t))
  {
    InPlaceKeeps(s, HashBound(s.attempts[a], Submitted, horizon), t);
  }

  /** A receipt's verdict reaches only a row about that very transaction, whose nonce is spent. */
  lemma OutcomeKeeps(s: State, a: nat, to: Status, t: nat)
    requires Inv(s) && a in s.attempts && s.attempts[a].phase.Awaiting? && s.attempts[a].phase.nonce < s.minedNonce
    requires s.clock < t
    ensures Inv(Store(s, HashBound(s.attempts[a], to, None), t))
  {
    var at := s.attempts[a];
    var op := HashBound(at, to, None);
    TransitionShape(s, op, t);
    if TransitionApplies(s.rows, at.id, op.seen) {
      var row := Moved(s.rows[at.id], to, op.meta, t);
      assert s.rows[at.id].txHash == Some(at.phase.hash);
      assert Harmless(s, at.id, row);
      WriteKeeps(s, at.id, row, t);
    } else {
      TickKeeps(s, t);
    }
  }

  // ---- A reconcile pass --------------------------------------------------------------------------

  ghost predicate PassSound(s: State, pass: Pass) {
    && PassVersions(s, pass)
    && (forall a :: a in s.attempts && HasRecord(s.attempts[a].phase) && s.attempts[a].id in pass.checked ==>
          !Current(s, pass, s.attempts[a].id))
    && (forall i :: i in pass.writes && i in pass.snapshot && pass.writes[i].Some? ==>
          WriteJustified(s, pass, i, pass.writes[i].value))
  }

  lemma SoundPass(s: State, p: nat)
    requires PassesSound(s) && p in s.passes
    ensures PassSound(s, s.passes[p])
  {
    var pass := s.passes[p];
    assert PassVersions(s, pass);
    forall i | i in pass.writes && i in pass.snapshot && pass.writes[i].Some?
      ensures WriteJustified(s, pass, i, pass.writes[i].value)
    {
    }
  }

  lemma AllSound(s: State)
    requires forall p :: p in s.passes ==> PassSound(s, s.passes[p])
    ensures PassesSound(s)
  {
    forall p, i | p in s.passes && i in s.passes[p].writes && i in s.passes[p].snapshot && s.passes[p].writes[i].Some?
      ensures WriteJustified(s, s.passes[p], i, s.passes[p].writes[i].value)
    {
      assert PassSound(s, s.passes[p]);
    }
    forall p, a | p in s.passes && a in s.attempts && HasRecord(s.attempts[a].phase)
                  && s.attempts[a].id in s.passes[p].checked
      ensures !Current(s, s.passes[p], s.attempts[a].id)
    {
      assert PassSound(s, s.passes[p]);
    }
  }

  /** What is said of one pass does not depend on the others. */
  lemma PassFramed(s: State, passes: map<nat, Pass>, pass: Pass)
    requires PassSound(s, pass)
    ensures PassSound(s.(passes := passes), pass)
  {
    var s' := s.(passes := passes);
    forall i | i in pass.writes && i in pass.snapshot && pass.writes[i].Some?
      ensures WriteJustified(s', pass, i, pass.writes[i].value)
    {
      assert WriteJustified(s, pass, i, pass.writes[i].value);
      assert forall h :: Possible(s', h) <==> Possible(s, h);
    }
  }

  lemma PassKeepsPasses(s: State, p: nat, pass: Pass)
    requires PassesSound(s) && PassSound(s, pass)
    ensures PassesSound(WithPass(s, p, pass))
  {
    var s' := WithPass(s, p, pass);
    forall q | q in s'.passes
      ensures PassSound(s', s'.passes[q])
    {
      if q != p {
        SoundPass(s, q);
      }
      PassFramed(s, s'.passes, s'.passes[q]);
    }
    AllSound(s');
  }

  lemma PassKeepsRecords(s: State, p: nat, pass: Pass)
    requires RecordsSound(s)
    ensures RecordsSound(WithPass(s, p, pass))
  {
  }

  lemma PassKeeps(s: State, p: nat, pass: Pass)
    requires Inv(s) && PassSound(s, pass)
    ensures Inv(WithPass(s, p, pass))
  {
    var s' := WithPass(s, p, pass);
    PassKeepsPasses(s, p, pass);
    PassKeepsRecords(s, p, pass);
    assert InSection(s') by { assert forall h :: Possible(s', h) ==> Possible(s, h); }
    assert Committed(s');
    ChainFramed(s, s');
  }

  lemma PassReadKeeps(s: State, p: nat)
    requires Inv(s)
    ensures Inv(WithPass(s, p, Pass(WorkList(s.rows), None, {}, map[])))
  {
    PassKeeps(s, p, Pass(WorkList(s.rows), None, {}, map[]));
  }

  lemma PassNoncesKeeps(s: State, p: nat, counts: NonceCounts)
    requires Inv(s) && p in s.passes && counts.latest <= s.minedNonce
    ensures Inv(WithPass(s, p, s.passes[p].(nonces := Some(counts))))
  {
    var pass := s.passes[p].(nonces := Some(counts));
    assert PassVersions(s, s.passes[p]);
    forall i | i in pass.writes && i in pass.snapshot && pass.writes[i].Some?
      ensures WriteJustified(s, pass, i, pass.writes[i].value)
    {
      assert WriteJustified(s, s.passes[p], i, s.passes[p].writes[i].value);
    }
    forall a | a in s.attempts && HasRecord(s.attempts[a].phase) && s.attempts[a].id in pass.checked
      ensures !Current(s, pass, s.attempts[a].id)
    {
      assert !Current(s, s.passes[p], s.attempts[a].id);
    }
    PassKeeps(s, p, pass);
  }

  /** A row this process is not sending belongs to no open send. */
  lemma PassCheckKeeps(s: State, p: nat, id: Id)
    requires Inv(s) && p in s.passes && id in s.passes[p].snapshot && id !in s.sending
    ensures Inv(WithPass(s, p, s.passes[p].(checked := s.passes[p].checked + {id})))
  {
    var pass := s.passes[p].(checked := s.passes[p].checked + {id});
    assert PassVersions(s, s.passes[p]);
    forall i | i in pass.writes && i in pass.snapshot && pass.writes[i].Some?
      ensures WriteJustified(s, pass, i, pass.writes[i].value)
    {
      assert WriteJustified(s, s.passes[p], i, s.passes[p].writes[i].value);
    }
    forall a | a in s.attempts && HasRecord(s.attempts[a].phase) && s.attempts[a].id in pass.checked
      ensures !Current(s, pass, s.attempts[a].id)
    {
      assert s.attempts[a].id != id;
      assert !Current(s, s.passes[p], s.attempts[a].id);
    }
    PassKeeps(s, p, pass);
  }

  // ---- Judging a transaction dead ---------------------------------------------------------------

  /** Fewer transactions can still be mined; everything else stands. */
  predicate Fewer(s: State, s': State) {
    && s' == s.(dead := s'.dead, mined := s'.mined, minedNonce := s'.minedNonce)
    && s.dead <= s'.dead && s.minedNonce <= s'.minedNonce
  }

  lemma FewerKeepsChain(s: State, s': State)
    requires ChainSound(s) && Fewer(s, s')
    requires forall h :: h in s'.mined ==> h in s.signed && s.signed[h] < s'.minedNonce
    ensures ChainSound(s')
  {
    assert forall h :: Possible(s', h) ==> Possible(s, h);
  }

  lemma FewerKeeps(s: State, s': State)
    requires Inv(s) && Fewer(s, s')
    requires forall h :: h in s'.mined ==> h in s.signed && s.signed[h] < s'.minedNonce
    ensures Inv(s')
  {
    FewerKeepsChain(s, s');
    assert RecordsSound(s');
    PassesFramed(s, s');
  }

  /** A pass's own writes are guarded transitions that touch neither nonce nor hash. */
  lemma WritesAreGuarded(nonces: NonceCounts, row: TxIntent, turn: Turn)
    requires !IsSafe(row)
    ensures var op := WriteOf(nonces, row, turn); op.Some? ==> GuardedWrite(op.value, row)
  {
  }

  /**
   * A resolution that takes a signed row off the work list needs a receipt, a spent nonce, or the
   * judgement that the transaction is not in flight.
   */
  lemma EndingWriteNeedsEvidence(nonces: NonceCounts, row: TxIntent, check: LivenessCheck, answers: Answers,
                                 repair: Repair)
    requires IsSigned(row) && !IsSafe(row) && IsInFlight(row)
    requires var op := WriteOf(nonces, row, Turn(false, check, answers, repair, [], 0));
             op.Some? && op.value.to !in IN_FLIGHT_ON_CHAIN
    ensures || answers.receipt.Some?
            || nonces.latest > row.nonce.value
            || (Consults(nonces, row, answers)
                && !CouldBeInFlight(check, answers.reader, row.txHash.value, row.updatedAt, row.relayMaxBlock))
  {
    SignedEndsExactly(check, nonces, row, answers);
  }

  lemma JudgementIsSound(s: State, p: nat, id: Id, check: LivenessCheck, answers: Answers, repair: Repair)
    requires Inv(s) && p in s.passes && id in s.passes[p].snapshot && s.passes[p].nonces.Some?
    requires var row := s.passes[p].snapshot[id];
             !IsSafe(row) && (answers.receipt.Some? && row.txHash.Some? ==> row.txHash.value in s.mined)
    ensures var s' := s.(dead := DoJudge(s, p, id, check, answers, repair).dead);
            var op := DoJudge(s, p, id, check, answers, repair).passes[p].writes[id];
            op.Some? ==> WriteJustified(s', s.passes[p], id, op.value)
  {
    var pass := s.passes[p];
    var row := pass.snapshot[id];
    var turn := Turn(false, check, answers, repair, [], 0);
    var s' := s.(dead := DoJudge(s, p, id, check, answers, repair).dead);
    var op := WriteOf(pass.nonces.value, row, turn);
    WritesAreGuarded(pass.nonces.value, row, turn);
    assert PassVersions(s, pass);
    if op.Some? && op.value.to !in IN_FLIGHT_ON_CHAIN && Current(s', pass, id) {
      forall h | Possible(s', h)
        ensures s'.broadcast[h].id != id
      {
        if s.broadcast[h].id == id {
          assert Possible(s, h) && Carries(row, s.broadcast[h].nonce, h) && IsInFlight(row);
          EndingWriteNeedsEvidence(pass.nonces.value, row, check, answers, repair);
          assert false;
        }
      }
    }
  }

  /** The pass as it stands once it has decided what to write about one row. */
  function Decided(s: State, p: nat, id: Id, check: LivenessCheck, answers: Answers, repair: Repair): Pass
    requires p in s.passes && id in s.passes[p].snapshot && s.passes[p].nonces.Some?
  {
    DoJudge(s, p, id, check, answers, repair).passes[p]
  }

  lemma DecidedIsJustified(s: State, pass: Pass, pass': Pass, id: Id)
    requires PassSound(s, pass) && id in pass.snapshot && id in pass'.writes
    requires pass' == pass.(writes := pass.writes[id := pass'.writes[id]])
    requires pass'.writes[id].Some? ==> WriteJustified(s, pass, id, pass'.writes[id].value)
    ensures forall i :: i in pass'.writes && i in pass'.snapshot && pass'.writes[i].Some? ==>
              WriteJustified(s, pass', i, pass'.writes[i].value)
  {
    forall i | i in pass'.writes && i in pass'.snapshot && pass'.writes[i].Some?
      ensures WriteJustified(s, pass', i, pass'.writes[i].value)
    {
      assert i != id ==> WriteJustified(s, pass, i, pass.writes[i].value);
    }
  }

  lemma DecidedIsSound(s: State, pass: Pass, pass': Pass, id: Id)
    requires PassSound(s, pass) && id in pass.checked && id in pass'.writes
    requires pass' == pass.(writes := pass.writes[id := pass'.writes[id]])
    requires id in pass.snapshot && (pass'.writes[id].Some? ==> WriteJustified(s, pass, id, pass'.writes[id].value))
    ensures PassSound(s, pass')
  {
    DecidedIsJustified(s, pass, pass', id);
    forall a | a in s.attempts && HasRecord(s.attempts[a].phase) && s.attempts[a].id in pass'.checked
      ensures !Current(s, pass', s.attempts[a].id)
    {
      assert !Current(s, pass, s.attempts[a].id);
    }
  }

  lemma JudgeKeeps(s: State, p: nat, id: Id, check: LivenessCheck, answers: Answers, repair: Repair)
    requires Inv(s) && p in s.passes && id in s.passes[p].checked && id in s.passes[p].snapshot
    requires s.passes[p].nonces.Some?
    requires var row := s.passes[p].snapshot[id];
             !IsSafe(row) && (answers.receipt.Some? && row.txHash.Some? ==> row.txHash.value in s.mined)
    ensures Inv(DoJudge(s, p, id, check, answers, repair))
  {
    var s1 := s.(dead := DoJudge(s, p, id, check, answers, repair).dead);
    var pass' := Decided(s, p, id, check, answers, repair);
    FewerKeeps(s, s1);
    SoundPass(s1, p);
    JudgementIsSound(s, p, id, check, answers, repair);
    DecidedIsSound(s1, s1.passes[p], pass', id);
    PassKeeps(s1, p, pass');
    assert WithPass(s1, p, pass') == DoJudge(s, p, id, check, answers, repair);
  }

  /** A pass's write lands only on the row version it judged, which is no open send's. */
  lemma PassApplyKeeps(s: State, p: nat, id: Id, t: nat)
    requires Inv(s) && p in s.passes && id in s.passes[p].writes && s.clock < t
    ensures Inv(DoPassApply(s, p, id, t))
  {
    var pass := s.passes[p];
    assert PassVersions(s, pass);
    if pass.writes[id].Some? {
      var op := pass.writes[id].value;
      assert WriteJustified(s, pass, id, op);
      TransitionShape(s, op, t);
      if TransitionApplies(s.rows, id, op.seen) {
        assert Current(s, pass, id);
        assert forall a :: a in s.attempts && HasRecord(s.attempts[a].phase) ==> s.attempts[a].id != id;
        var row := Moved(s.rows[id], op.to, op.meta, t);
        assert Harmless(s, id, row);
        WriteKeeps(s, id, row, t);
      } else {
        TickKeeps(s, t);
      }
    }
  }

  // ---- A nonce resync ----------------------------------------------------------------------------

  lemma LockKeeps(s: State, lock: Lock)
    requires Inv(s) && Surveyed(s.(lock := lock))
    requires forall a :: a in s.attempts && (s.attempts[a].phase.Holding? || s.attempts[a].phase.Durable?) ==>
              lock == s.lock
    ensures Inv(s.(lock := lock))
  {
    var s' := s.(lock := lock);
    assert forall h :: Possible(s', h) <==> Possible(s, h);
    assert InSection(s');
    PassesFramed(s, s');
  }

  /** No send holds a nonce while a resync has the lock. */
  lemma ResyncExcludesSends(s: State)
    requires Inv(s) && !s.lock.SectionOf?
    ensures forall a :: a in s.attempts ==> !s.attempts[a].phase.Holding? && !s.attempts[a].phase.Durable?
  {
  }

  lemma LeaveKeeps(s: State, a: nat)
    requires Inv(s) && s.lock == SectionOf(a) && a in s.attempts && SectionOver(s.attempts[a].phase)
    ensures Inv(s.(lock := Free))
  {
    LockKeeps(s, Free);
  }

  lemma ResyncStartKeeps(s: State, pending: nat)
    requires Inv(s) && s.lock == Free
    ensures Inv(s.(lock := Resyncing(pending, None, {})))
  {
    ResyncExcludesSends(s);
    LockKeeps(s, Resyncing(pending, None, {}));
  }

  lemma ResyncReadKeeps(s: State)
    requires Inv(s) && s.lock.Resyncing?
    ensures Inv(DoResyncRead(s))
  {
    ResyncExcludesSends(s);
    var s' := DoResyncRead(s);
    assert Surveyed(s') by { assert forall h :: Possible(s', h) <==> Possible(s, h); }
    LockKeeps(s, s'.lock);
  }

  /** A judged row either adds its nonce to the fence or is about a transaction that is now dead. */
  lemma ResyncJudgeSurveys(s: State, id: Id, check: LivenessCheck, reader: Reader)
    requires Surveyed(s) && s.lock.Resyncing? && s.lock.todo.Some? && id in s.lock.todo.value
    requires IsSigned(s.lock.todo.value[id])
    ensures Surveyed(DoResyncJudge(s, id, check, reader))
  {
    var s' := DoResyncJudge(s, id, check, reader);
    forall h | Possible(s', h)
      ensures s'.broadcast[h].nonce in s'.lock.live
           || (s'.broadcast[h].id in s'.lock.todo.value
               && Carries(s'.lock.todo.value[s'.broadcast[h].id], s'.broadcast[h].nonce, h))
    {
      assert Possible(s, h);
    }
  }

  lemma ResyncJudgeKeeps(s: State, id: Id, check: LivenessCheck, reader: Reader)
    requires Inv(s) && s.lock.Resyncing? && s.lock.todo.Some? && id in s.lock.todo.value
    requires IsSigned(s.lock.todo.value[id])
    ensures Inv(DoResyncJudge(s, id, check, reader))
  {
    ResyncExcludesSends(s);
    ResyncJudgeSurveys(s, id, check, reader);
    var s' := DoResyncJudge(s, id, check, reader);
    var s1 := s.(dead := s'.dead);
    FewerKeeps(s, s1);
    assert s1.(lock := s'.lock) == s';
    LockKeeps(s1, s'.lock);
  }

  lemma ResyncSetFences(s: State)
    requires Surveyed(s) && s.lock.Resyncing? && s.lock.todo == Some(map[])
    ensures Fenced(DoResyncSet(s))
  {
    var s' := DoResyncSet(s);
    forall h | Possible(s', h)
      ensures s'.broadcast[h].nonce < s'.alloc.next.value && s'.alloc.hole != Some(s'.broadcast[h].nonce)
    {
      assert Possible(s, h);
      assert s.broadcast[h].nonce in s.lock.live;
    }
  }

  lemma AllocKeeps(s: State, alloc: N.Alloc)
    requires Inv(s) && Fenced(s.(alloc := alloc))
    requires forall a :: a in s.attempts ==> !s.attempts[a].phase.Holding? && !s.attempts[a].phase.Durable?
    ensures Inv(s.(alloc := alloc))
  {
    var s' := s.(alloc := alloc);
    assert forall h :: Possible(s', h) <==> Possible(s, h);
    assert ChainSound(s');
    PassesFramed(s, s');
  }

  /** The seed a finished survey produces fences every transaction that can still be mined. */
  lemma ResyncSetKeeps(s: State)
    requires Inv(s) && s.lock.Resyncing? && s.lock.todo == Some(map[])
    ensures Inv(DoResyncSet(s))
  {
    ResyncExcludesSends(s);
    ResyncSetFences(s);
    LockKeeps(s, Free);
    AllocKeeps(s.(lock := Free), DoResyncSet(s).alloc);
  }

  // ---- Every step, every run ----------------------------------------------------------------------

  lemma MineKeeps(s: State, e: Event)
    requires Inv(s) && e.Mine? && Enabled(s, e)
    ensures Inv(Apply(s, e))
  {
    FewerKeeps(s, Apply(s, e));
  }

  lemma MineOtherKeeps(s: State, e: Event)
    requires Inv(s) && e.MineOther?
    ensures Inv(Apply(s, e))
  {
    FewerKeeps(s, Apply(s, e));
  }

  /** A crash loses everything in memory; the rows still carry every transaction that can be mined. */
  lemma CrashKeeps(s: State)
    requires Inv(s)
    ensures Inv(DoCrash(s))
  {
    assert forall h :: Possible(DoCrash(s), h) <==> Possible(s, h);
  }

  lemma ClaimStepKeeps(s: State, e: Event)
    requires Inv(s) && Enabled(s, e) && Exclusive(s, e)
    requires e.Claim? || e.Begin? || e.Balk? || e.Enter?
    ensures Inv(Apply(s, e))
  {
    match e
    case Claim(a, input, t) => ClaimKeeps(s, a, input, t);
    case Begin(a) => MoveKeeps(s, a, Begun, s.sending + {s.attempts[a].id});
    case Balk(a) => MoveOnKeeps(s, a, Threw);
    case Enter(a) => EnterKeeps(s, a);
  }

  lemma SignStepKeeps(s: State, e: Event)
    requires Inv(s) && Enabled(s, e)
    requires e.SignFails? || e.Sign? || e.Halt?
    ensures Inv(Apply(s, e))
  {
    match e
    case SignFails(a) => MoveOnKeeps(s, a, Threw);
    case Sign(a, h, t) => SignKeeps(s, a, h, t);
    case Halt(a) => MoveOnKeeps(s, a, Stopped(s.attempts[a].phase.nonce, s.attempts[a].phase.hash));
  }

  lemma UnansweredStepKeeps(s: State, e: Event)
    requires Inv(s) && Enabled(s, e) && e.SignUnanswered?
    ensures Inv(Apply(s, e))
  {
    UnansweredKeeps(s, e.a, e.hash, e.t);
  }

  lemma WireStepKeeps(s: State, e: Event)
    requires Inv(s) && Enabled(s, e)
    requires e.Broadcast? || e.Leave? || e.End?
    ensures Inv(Apply(s, e))
  {
    match e
    case Broadcast(a) => BroadcastKeeps(s, a);
    case Leave(a) => LeaveKeeps(s, a);
    case End(a) => EndKeeps(s, a);
  }

  lemma PostStepKeeps(s: State, e: Event)
    requires Inv(s) && Enabled(s, e) && e.PostWrite?
    ensures Inv(Apply(s, e))
  {
    PostWriteKeeps(s, e.a, e.horizon, e.t);
  }

  lemma LateStepKeeps(s: State, e: Event)
    requires Inv(s) && Enabled(s, e) && e.LateWrite?
    ensures Inv(Apply(s, e))
  {
    LateWriteKeeps(s, e.a, e.horizon, e.t);
  }

  lemma OutcomeStepKeeps(s: State, e: Event)
    requires Inv(s) && Enabled(s, e) && e.Outcome?
    ensures Inv(Apply(s, e))
  {
    OutcomeKeeps(s, e.a, e.to, e.t);
  }

  lemma PassReadStepKeeps(s: State, e: Event)
    requires Inv(s) && Enabled(s, e)
    requires e.PassRead? || e.PassNonces?
    ensures Inv(Apply(s, e))
  {
    match e
    case PassRead(p) => PassReadKeeps(s, p);
    case PassNonces(p, c) => PassNoncesKeeps(s, p, c);
  }

  lemma PassCheckStepKeeps(s: State, e: Event)
    requires Inv(s) && Enabled(s, e) && e.PassCheck?
    ensures Inv(Apply(s, e))
  {
    PassCheckKeeps(s, e.p, e.id);
  }

  lemma PassWriteStepKeeps(s: State, e: Event)
    requires Inv(s) && Enabled(s, e)
    requires e.PassJudge? || e.PassApply?
    ensures Inv(Apply(s, e))
  {
    match e
    case PassJudge(p, id, check, answers, repair) => JudgeKeeps(s, p, id, check, answers, repair);
    case PassApply(p, id, t) => PassApplyKeeps(s, p, id, t);
  }

  lemma ResyncLockStepKeeps(s: State, e: Event)
    requires Inv(s) && Enabled(s, e)
    requires e.ResyncStart? || e.ResyncFail?
    ensures Inv(Apply(s, e))
  {
    match e
    case ResyncStart(pending) => ResyncStartKeeps(s, pending);
    case ResyncFail => ResyncExcludesSends(s); LockKeeps(s, Free);
  }

  lemma ResyncReadStepKeeps(s: State, e: Event)
    requires Inv(s) && Enabled(s, e)
    requires e.ResyncRead? || e.ResyncJudge?
    ensures Inv(Apply(s, e))
  {
    match e
    case ResyncRead => ResyncReadKeeps(s);
    case ResyncJudge(id, check, reader) => ResyncJudgeKeeps(s, id, check, reader);
  }

  lemma WorldStepKeeps(s: State, e: Event)
    requires Inv(s) && Enabled(s, e)
    requires e.Tick? || e.Crash?
    ensures Inv(Apply(s, e))
  {
    match e
    case Tick(t) => TickKeeps(s, t);
    case Crash => CrashKeeps(s);
  }

  predicate ByASend(e: Event) {
    || e.Claim? || e.Begin? || e.Balk? || e.Enter? || e.SignFails? || e.Sign? || e.SignUnanswered? || e.Halt?
    || e.Broadcast? || e.Leave? || e.End? || e.PostWrite? || e.LateWrite? || e.Outcome?
  }

  lemma SendStepKeeps(s: State, e: Event)
    requires Inv(s) && Enabled(s, e) && Exclusive(s, e) && ByASend(e)
    ensures Inv(Apply(s, e))
  {
    if e.Claim? || e.Begin? || e.Balk? || e.Enter? {
      ClaimStepKeeps(s, e);
    } else if e.SignFails? || e.Sign? || e.Halt? {
      SignStepKeeps(s, e);
    } else if e.SignUnanswered? {
      UnansweredStepKeeps(s, e);
    } else if e.Broadcast? || e.Leave? || e.End? {
      WireStepKeeps(s, e);
    } else if e.PostWrite? {
      PostStepKeeps(s, e);
    } else if e.LateWrite? {
      LateStepKeeps(s, e);
    } else {
      OutcomeStepKeeps(s, e);
    }
  }

  lemma OtherStepKeeps(s: State, e: Event)
    requires Inv(s) && Enabled(s, e) && !ByASend(e)
    ensures Inv(Apply(s, e))
  {
    if e.PassRead? || e.PassNonces? {
      PassReadStepKeeps(s, e);
    } else if e.PassCheck? {
      PassCheckStepKeeps(s, e);
    } else if e.PassJudge? || e.PassApply? {
      PassWriteStepKeeps(s, e);
    } else if e.ResyncStart? || e.ResyncFail? {
      ResyncLockStepKeeps(s, e);
    } else if e.ResyncSet? {
      ResyncSetKeeps(s);
    } else if e.ResyncRead? || e.ResyncJudge? {
      ResyncReadStepKeeps(s, e);
    } else if e.Mine? {
      MineKeeps(s, e);
    } else if e.MineOther? {
      MineOtherKeeps(s, e);
    } else {
      WorldStepKeeps(s, e);
    }
  }

  /** One step of anything at all keeps the invariant, as long as claims stay exclusive. */
  lemma StepKeeps(s: State, e: Event)
    requires Inv(s) && Enabled(s, e) && Exclusive(s, e)
    ensures Inv(Apply(s, e))
  {
    if ByASend(e) {
      SendStepKeeps(s, e);
    } else {
      OtherStepKeeps(s, e);
    }
  }

  lemma {:induction false} RunKeeps(s: State, events: seq<Event>)
    requires Inv(s) && Run(s, events) && ExclusiveRun(s, events)
    ensures Inv(Final(s, events))
    decreases |events|
  {
    if events != [] {
      StepKeeps(s, events[0]);
      RunKeeps(Apply(s, events[0]), events[1..]);
    }
  }

  /**
   * Whenever a nonce is about to be signed or broadcast, no earlier transaction at that nonce can still
   * be mined, and no two such transactions exist.
   */
  ghost predicate SignsOverNothing(s: State) {
    && (forall a, h ::
          a in s.attempts && (s.attempts[a].phase.Holding? || s.attempts[a].phase.Durable?) && Possible(s, h) ==>
            s.broadcast[h].nonce != s.attempts[a].phase.nonce)
    && (forall g, h :: Possible(s, g) && Possible(s, h) && s.broadcast[g].nonce == s.broadcast[h].nonce ==> g == h)
  }

  /** What the allocator will hand out next is never the nonce of a transaction that can still be mined. */
  ghost predicate OffersNothingLive(s: State) {
    forall h :: Possible(s, h) ==> N.Offer(s.alloc) != Some(s.broadcast[h].nonce)
  }

  /**
   * Before the bytes leave, the row under the action's key already carries their nonce and hash. And every
   * transaction that can still be mined stays on the work list, so across crashes and revivals one key has
   * at most one.
   */
  ghost predicate RecordedAhead(s: State) {
    && (forall a :: a in s.attempts && s.attempts[a].phase.Durable? ==>
          && s.attempts[a].id in s.rows
          && Carries(s.rows[s.attempts[a].id], s.attempts[a].phase.nonce, s.attempts[a].phase.hash))
    && (forall h :: Possible(s, h) ==>
          && s.broadcast[h].id in WorkList(s.rows)
          && Carries(s.rows[s.broadcast[h].id], s.broadcast[h].nonce, h))
    && (forall g, h :: Possible(s, g) && Possible(s, h) && s.broadcast[g].id == s.broadcast[h].id ==> g == h)
  }

  /** The hashes of every live record: what the exposure ledger asks the executor for. */
  function InFlightHashes(rows: Rows): set<TxHash> {
    set id | id in WorkList(rows) && rows[id].txHash.Some? :: rows[id].txHash.value
  }

  /** A transaction that can still be mined is never missing from that set. */
  ghost predicate InFlightCovers(s: State) {
    forall h :: Possible(s, h) ==> h in InFlightHashes(s.rows)
  }

  /** All that the protocol promises of a state. */
  ghost predicate Safe(s: State) {
    SignsOverNothing(s) && OffersNothingLive(s) && RecordedAhead(s) && InFlightCovers(s)
  }

  lemma InvIsSafe(s: State)
    requires Inv(s)
    ensures Safe(s)
  {
    assert SignsOverNothing(s) && OffersNothingLive(s) && RecordedAhead(s);
    forall h | Possible(s, h)
      ensures h in InFlightHashes(s.rows)
    {
      var id := s.broadcast[h].id;
      assert id in WorkList(s.rows) && s.rows[id].txHash == Some(h);
    }
  }

  /** Over every run whose claims are exclusive, from any store contents, the protocol keeps its promises. */
  lemma ExclusiveRunsAreSafe(s0: State, events: seq<Event>)
    requires Init(s0) && Run(s0, events) && ExclusiveRun(s0, events)
    ensures Safe(Final(s0, events))
  {
    InitHolds(s0);
    RunKeeps(s0, events);
    InvIsSafe(Final(s0, events));
  }
}
