/**
 * The crash-safety layer around a send: the fence of nonces that may still be on the wire, the claim,
 * the pre-broadcast record and the set of sends this process has open.
 */
module CrashSafety {
  import opened Common
  import opened Persistence
  import opened Liveness
  import N = NonceAllocator

  /** The nonces held by signed intents whose transaction could still be on the wire. */
  function LiveNonces(rows: Rows, check: LivenessCheck, reader: Reader): set<nat> {
    set id | id in rows && IsInFlight(rows[id]) && IsSigned(rows[id])
          && CouldBeInFlight(check, reader, rows[id].txHash.value, rows[id].updatedAt, rows[id].relayMaxBlock)
      :: rows[id].nonce.value
  }

  /** A nonce is reserved exactly for a pending or submitted row that was signed with it and may be on the wire. */
  lemma ReservedExactly(rows: Rows, check: LivenessCheck, reader: Reader, n: nat)
    ensures n in LiveNonces(rows, check, reader) <==>
              exists id :: id in rows && rows[id].status in {Pending, Submitted} && rows[id].nonce == Some(n)
                           && rows[id].txHash.Some?
                           && CouldBeInFlight(check, reader, rows[id].txHash.value, rows[id].updatedAt,
                                              rows[id].relayMaxBlock)
  {
  }

  datatype Claimed = Ours(intentId: Id, attemptAt: nat) | Duplicate(existing: TxIntent)

  class CrashSafety {
    const store: MemoryStateStore
    const nonces: N.NonceAllocator
    var sending: set<Id>

    constructor (store: MemoryStateStore, nonces: N.NonceAllocator)
      ensures this.store == store && this.nonces == nonces && sending == {}
    {
      this.store, this.nonces := store, nonces;
      sending := {};
    }

    method BeginSend(id: Id)
      modifies this`sending
      ensures sending == old(sending) + {id}
    {
      sending := sending + {id};
    }

    method EndSend(id: Id)
      modifies this`sending
      ensures sending == old(sending) - {id}
    {
      sending := sending - {id};
    }

    method ReadLiveNonces(check: LivenessCheck, reader: Reader) returns (live: set<nat>)
      ensures live == LiveNonces(store.rows, check, reader)
    {
      var work := store.Reconcile();
      var candidates := map id | id in work && IsSigned(work[id]) :: work[id];
      live := set id | id in candidates
                    && CouldBeInFlight(check, reader, candidates[id].txHash.value, candidates[id].updatedAt,
                                       candidates[id].relayMaxBlock)
                :: candidates[id].nonce.value;
      forall n | n in LiveNonces(store.rows, check, reader)
        ensures n in live
      {
        var id :| id in store.rows && IsInFlight(store.rows[id]) && IsSigned(store.rows[id])
          && store.rows[id].nonce == Some(n)
          && CouldBeInFlight(check, reader, store.rows[id].txHash.value, store.rows[id].updatedAt,
                             store.rows[id].relayMaxBlock);
        assert id in candidates && candidates[id].nonce.value == n;
      }
    }

    method FloorOf(live: set<nat>) returns (floor: nat)
      ensures floor == N.Floor(live)
    {
      floor := 0;
      var todo := live;
      while todo != {}
        invariant todo <= live
        invariant forall n :: n in live && n !in todo ==> n < floor
        invariant floor == 0 || floor - 1 in live
        invariant live != {} && todo != live ==> floor > 0
        decreases |todo|
      {
        var n :| n in todo;
        if n + 1 > floor {
          floor := n + 1;
        }
        todo := todo - {n};
      }
    }

    /** Re-seed the lease above every live nonce, and reissue a dead hole at the chain's next one. */
    method ResyncNonces(chainPending: nat, check: LivenessCheck, reader: Reader)
      requires nonces.Valid()
      modifies nonces, nonces.lease
      ensures nonces.Valid() && nonces.handed == []
      ensures nonces.View() == N.Reseeded(N.FenceSeed(chainPending, LiveNonces(store.rows, check, reader)))
      ensures nonces.seeded == nonces.View()
    {
      var live := ReadLiveNonces(check, reader);
      var floor := FloorOf(live);
      var next := if chainPending < floor then floor else chainPending;
      var reclaimable := if next > chainPending && chainPending !in live then Some(chainPending) else None;
      nonces.Resync(N.WithHole(next, reclaimable));
    }

    method Claim(input: IntentInput, now: nat) returns (r: Claimed)
      modifies store`rows
      ensures store.rows == After(old(store.rows), RecordIntentOp(input), now)
      ensures r == match RecordOutcome(old(store.rows), input, now)
                   case Recorded(id, at) => Ours(id, at)
                   case Refused(existing) => Duplicate(existing)
    {
      var record := store.RecordIntent(input, now);
      match record
      case Recorded(id, at) => return Ours(id, at);
      case Refused(existing) => return Duplicate(existing);
    }

    /** Record nonce and hash on the claimed attempt; refused when the row is no longer that attempt. */
    method MarkPending(id: Id, nonce: nat, attemptAt: nat, txHash: TxHash, now: nat) returns (applied: bool)
      modifies store`rows
      ensures applied == TransitionApplies(old(store.rows), id, BoundTo(attemptAt))
      ensures store.rows ==
                After(old(store.rows), TransitionOp(id, Pending, Signature(nonce, txHash), BoundTo(attemptAt)), now)
    {
      applied := store.Transition(id, Pending, Signature(nonce, txHash), BoundTo(attemptAt), now);
    }

    /** A later write is best effort: when the store fails, nothing is written and nothing is thrown. */
    method Transition(id: Id, to: Status, meta: Meta, seen: Expectation, storeFails: bool, now: nat)
      modifies store`rows
      ensures store.rows ==
                if storeFails then old(store.rows) else After(old(store.rows), TransitionOp(id, to, meta, seen), now)
    {
      if !storeFails {
        var applied := store.Transition(id, to, meta, seen, now);
      }
    }
  }

  function BoundTo(attemptAt: nat): Expectation {
    Expectation(Some(attemptAt), None, None)
  }

  function Signature(nonce: nat, txHash: TxHash): Meta {
    Meta(Some(nonce), Some(txHash), None, None)
  }
}
