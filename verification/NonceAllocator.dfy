/** The shared nonce authority: a counter per signer, at most one hole, one critical section at a time. */
module NonceAllocator {
  import opened Common

  /** What a resync learned: the next nonce, and possibly a hole below it. */
  datatype Seed = Plain(next: nat) | WithHole(next: nat, reclaimable: Option<nat>)

  /** The allocator as a value. `next` is absent until the lease is seeded. */
  datatype Alloc = Alloc(next: Option<nat>, hole: Option<nat>)

  const UNSEEDED := Alloc(None, None)

  /** The nonce the next section is given; none if the lease was never seeded. */
  function Offer(a: Alloc): Option<nat> {
    if a.hole.Some? then a.hole else a.next
  }

  function Taken(a: Alloc): Alloc {
    if a.hole.Some? then a.(hole := None)
    else if a.next.Some? then a.(next := Some(a.next.value + 1))
    else a
  }

  function Reseeded(seed: Seed): Alloc {
    match seed
    case Plain(next) => Alloc(Some(next), None)
    case WithHole(next, hole) => Alloc(Some(next), if hole.Some? && hole.value < next then hole else None)
  }

  predicate Seeded(a: Alloc) {
    a.next.Some? && (a.hole.Some? ==> a.hole.value < a.next.value)
  }

  /** The nonces `k` sections in a row are given. */
  function Handed(a: Alloc, k: nat): (s: seq<nat>)
    requires Seeded(a)
    ensures |s| == k
    decreases k
  {
    if k == 0 then [] else [Offer(a).value] + Handed(Taken(a), k - 1)
  }

  /** A run of counting up. */
  function CountUp(from: nat, k: nat): (s: seq<nat>)
    ensures |s| == k && forall i :: 0 <= i < k ==> s[i] == from + i
  {
    seq(k, i => from + i)
  }

  /** Between two resyncs the allocator hands out the hole, if there is one, and then counts up. */
  lemma {:induction false} HandedExactly(a: Alloc, k: nat)
    requires Seeded(a)
    ensures a.hole.None? ==> Handed(a, k) == CountUp(a.next.value, k)
    ensures a.hole.Some? && k > 0 ==> Handed(a, k) == [a.hole.value] + CountUp(a.next.value, k - 1)
    decreases k
  {
    if k > 0 {
      HandedExactly(Taken(a), k - 1);
      if a.hole.None? {
        assert [a.next.value] + CountUp(a.next.value + 1, k - 1) == CountUp(a.next.value, k);
      }
    }
  }

  lemma HandedAreDistinct(a: Alloc, k: nat, i: nat, j: nat)
    requires Seeded(a) && i < j < k
    ensures Handed(a, k)[i] != Handed(a, k)[j]
  {
    HandedExactly(a, k);
  }

  lemma {:induction false} HandedExtends(a: Alloc, k: nat)
    requires Seeded(a)
    ensures Seeded(After(a, k)) && Handed(a, k + 1) == Handed(a, k) + [Offer(After(a, k)).value]
    decreases k
  {
    if k > 0 {
      HandedExtends(Taken(a), k - 1);
    }
  }

  /** The allocator after `k` sections. */
  function After(a: Alloc, k: nat): Alloc
    decreases k
  {
    if k == 0 then a else After(Taken(a), k - 1)
  }

  lemma {:induction false} AfterSteps(a: Alloc, k: nat)
    ensures After(a, k + 1) == Taken(After(a, k))
    decreases k
  {
    if k > 0 {
      AfterSteps(Taken(a), k - 1);
    }
  }

  /** Per-signer counters, keyed by the lower-cased address. */
  class NonceLease {
    var next: map<string, nat>

    constructor ()
      ensures next == map[]
    {
      next := map[];
    }

    /** Return the counter and advance it; none when the signer was never seeded. */
    method Reserve(signer: string) returns (value: Option<nat>)
      modifies this
      ensures Lower(signer) !in old(next) ==> value == None && next == old(next)
      ensures Lower(signer) in old(next) ==>
                value == Some(old(next)[Lower(signer)])
                && next == old(next)[Lower(signer) := old(next)[Lower(signer)] + 1]
    {
      var key := Lower(signer);
      if key !in next {
        return None;
      }
      value := Some(next[key]);
      next := next[key := next[key] + 1];
    }

    method Set(signer: string, value: nat)
      modifies this
      ensures next == old(next)[Lower(signer) := value]
    {
      next := next[Lower(signer) := value];
    }
  }

  /** How the body of a section ended: its result, or a throw whose outcome on the wire is unknown. */
  datatype SectionEnd<T> = Returned(value: T) | Threw(error: string)

  class NonceAllocator {
    const lease: NonceLease
    const signer: string
    var reclaimable: Option<nat>
    /** What the last resync seeded, and every nonce handed out since. */
    ghost var seeded: Alloc
    ghost var handed: seq<nat>

    ghost function View(): Alloc
      reads this, lease
    {
      Alloc(if Lower(signer) in lease.next then Some(lease.next[Lower(signer)]) else None, reclaimable)
    }

    ghost predicate Valid()
      reads this, lease
    {
      && (View().next.None? ==> View() == UNSEEDED && handed == [])
      && (View().next.Some? ==>
            Seeded(seeded) && handed == Handed(seeded, |handed|) && View() == After(seeded, |handed|))
    }

    constructor (lease: NonceLease, signer: string)
      requires Lower(signer) !in lease.next
      ensures Valid() && View() == UNSEEDED && this.lease == lease && this.signer == signer
    {
      this.lease := lease;
      this.signer := signer;
      reclaimable := None;
      seeded := UNSEEDED;
      handed := [];
    }

    /**
     * Reserve the next nonce and run one section with it. However the section ends, the nonce is
     * spent until the next resync and the allocator is ready for the section after it.
     */
    method WithNonce<T>(end: SectionEnd<T>) returns (nonce: Option<nat>, result: SectionEnd<T>)
      requires Valid()
      modifies this, lease
      ensures Valid()
      ensures nonce == old(Offer(View())) && View() == Taken(old(View()))
      ensures seeded == old(seeded) && handed == old(handed) + (if nonce.Some? then [nonce.value] else [])
      ensures nonce.Some? ==> result == end
      ensures nonce.None? ==> result.Threw?
    {
      ghost var was := View();
      var hole := reclaimable;
      if hole.Some? {
        reclaimable := None;
        nonce := hole;
      } else {
        nonce := lease.Reserve(signer);
      }
      if nonce == None {
        return None, Threw("nonce lease is not seeded (resync first)");
      }
      HandedExtends(seeded, |handed|);
      AfterSteps(seeded, |handed|);
      handed := handed + [nonce.value];
      result := end;
    }

    /** Re-align the lease, and forget or rediscover the hole, from what was read inside the lock. */
    method Resync(seed: Seed)
      requires Valid()
      modifies this, lease
      ensures Valid() && View() == Reseeded(seed) && seeded == View() && handed == []
    {
      var hole := if seed.WithHole? then seed.reclaimable else None;
      reclaimable := if hole.Some? && hole.value < seed.next then hole else None;
      lease.Set(signer, seed.next);
      seeded := View();
      handed := [];
    }
  }

  // ---- The fence around live transactions -------------------------------------------------------

  ghost function MaxOf(s: set<nat>): (m: nat)
    requires s != {}
    ensures m in s && forall x :: x in s ==> x <= m
    decreases s
  {
    var x :| x in s;
    if s == {x} then x
    else
      assert s - {x} != {} by { assert s == (s - {x}) + {x}; }
      var rest := MaxOf(s - {x});
      assert forall y :: y in s ==> y == x || y in s - {x};
      if x < rest then rest else x
  }

  /** One past the highest nonce a live transaction holds. */
  ghost function Floor(live: set<nat>): nat {
    if live == {} then 0 else MaxOf(live) + 1
  }

  ghost function FenceSeed(chainPending: nat, live: set<nat>): Seed {
    var next := if chainPending < Floor(live) then Floor(live) else chainPending;
    WithHole(next, if next > chainPending && chainPending !in live then Some(chainPending) else None)
  }

  /**
   * After a resync nothing a live transaction holds is handed out, nothing is handed out twice, a
   * dead hole at the chain's next nonce goes out first, and nothing else below the floor ever does.
   */
  lemma HandedAvoidsLive(chainPending: nat, live: set<nat>, k: nat, i: nat)
    requires i < k
    ensures var a := Reseeded(FenceSeed(chainPending, live));
            && Seeded(a)
            && Handed(a, k)[i] !in live
            && Handed(a, k)[i] >= chainPending
            && (forall j :: 0 <= j < k && j != i ==> Handed(a, k)[i] != Handed(a, k)[j])
            && (Handed(a, k)[i] < Floor(live) <==> i == 0 && chainPending < Floor(live) && chainPending !in live)
            && (i == 0 && chainPending !in live ==> Handed(a, k)[i] == chainPending)
            && (i == 0 && chainPending in live ==> Handed(a, k)[i] == Floor(live))
  {
    var a := Reseeded(FenceSeed(chainPending, live));
    HandedExactly(a, k);
  }
}
