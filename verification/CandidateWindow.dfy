/**
 * Which liquidation candidates one cycle takes from the indexer's feed, and the cursor that moves the
 * window from cycle to cycle.
 */
module CandidateWindow {
  import opened Common

  const MAX_LIQUIDATION_CANDIDATES := 500

  /** One feed entry as it arrives: a field that is not a string is absent. */
  datatype Position = Position(proxyAddress: Option<string>, borrower: Option<string>)

  predicate IsHexDigit(c: char) {
    '0' <= c <= '9' || 'a' <= c <= 'f' || 'A' <= c <= 'F'
  }

  predicate IsAddress(s: string) {
    |s| == 42 && s[0] == '0' && s[1] == 'x' && forall i :: 2 <= i < 42 ==> IsHexDigit(s[i])
  }

  predicate Usable(p: Position) {
    p.proxyAddress.Some? && IsAddress(p.proxyAddress.value) && p.borrower.Some? && IsAddress(p.borrower.value)
  }

  /** An entry is usable exactly if both its fields are strings of `0x` and forty hexadecimal digits. */
  lemma UsableExactly(p: Position)
    ensures Usable(p) <==>
              forall s :: s in [p.proxyAddress, p.borrower] ==>
                s.Some? && |s.value| == 42 && s.value[..2] == "0x"
                && forall i :: 2 <= i < 42 ==> s.value[i] in "0123456789abcdefABCDEF"
  {
    HexDigits();
    var fields := [p.proxyAddress, p.borrower];
    assert fields[0] == p.proxyAddress && fields[1] == p.borrower;
    assert forall s: string :: |s| == 42 ==> (s[..2] == "0x" <==> s[0] == '0' && s[1] == 'x');
  }

  lemma HexDigits()
    ensures forall c :: IsHexDigit(c) <==> c in "0123456789abcdefABCDEF"
  {
    var digits := "0123456789abcdefABCDEF";
    forall c | IsHexDigit(c)
      ensures c in digits
    {
      var i := if c <= '9' then c as int - '0' as int
               else if 'a' <= c then 10 + (c as int - 'a' as int) else 16 + (c as int - 'A' as int);
      assert digits[i] == c;
    }
  }

  function ProxyKey(p: Position): string
    requires Usable(p)
  {
    Lower(p.proxyAddress.value)
  }

  predicate Named(list: seq<Position>, k: string) {
    exists i :: 0 <= i < |list| && Usable(list[i]) && ProxyKey(list[i]) == k
  }

  /** The first usable entry of each proxy, in feed order. */
  function Unique(feed: seq<Position>): seq<Position> {
    if feed == [] then []
    else
      var p, earlier := feed[|feed| - 1], feed[..|feed| - 1];
      if Usable(p) && !Named(earlier, ProxyKey(p)) then Unique(earlier) + [p] else Unique(earlier)
  }

  function Malformed(feed: seq<Position>): nat {
    if feed == [] then 0 else Malformed(feed[..|feed| - 1]) + if Usable(feed[|feed| - 1]) then 0 else 1
  }

  predicate Distinct(list: seq<Position>) {
    && (forall i :: 0 <= i < |list| ==> Usable(list[i]))
    && (forall i, j :: 0 <= i < j < |list| ==> ProxyKey(list[i]) != ProxyKey(list[j]))
  }

  lemma NamedSnoc(list: seq<Position>, p: Position, k: string)
    ensures Named(list + [p], k) <==> Named(list, k) || (Usable(p) && ProxyKey(p) == k)
  {
    if Named(list, k) {
      var i :| 0 <= i < |list| && Usable(list[i]) && ProxyKey(list[i]) == k;
      assert (list + [p])[i] == list[i];
    }
    if Usable(p) && ProxyKey(p) == k {
      assert (list + [p])[|list|] == p;
    }
  }

  /** Every proxy with a usable entry is kept, exactly once, and nothing else is. */
  lemma {:induction false} UniqueKeepsEachProxyOnce(feed: seq<Position>)
    ensures Distinct(Unique(feed))
    ensures forall k :: Named(Unique(feed), k) <==> Named(feed, k)
    ensures forall p :: p in Unique(feed) ==> p in feed
    ensures |Unique(feed)| + Malformed(feed) <= |feed|
    decreases |feed|
  {
    if feed != [] {
      var p, earlier := feed[|feed| - 1], feed[..|feed| - 1];
      UniqueKeepsEachProxyOnce(earlier);
      assert feed == earlier + [p];
      forall k
        ensures Named(Unique(feed), k) <==> Named(feed, k)
      {
        NamedSnoc(earlier, p, k);
        NamedSnoc(Unique(earlier), p, k);
      }
      if Usable(p) && !Named(earlier, ProxyKey(p)) {
        assert !Named(Unique(earlier), ProxyKey(p));
      }
    }
  }

  /** The first usable entry of its proxy. */
  predicate IsFirst(feed: seq<Position>, i: nat) {
    && i < |feed| && Usable(feed[i])
    && forall j :: 0 <= j < i && Usable(feed[j]) ==> ProxyKey(feed[j]) != ProxyKey(feed[i])
  }

  lemma FirstInPrefix(feed: seq<Position>, n: nat, i: nat)
    requires i < n <= |feed| && IsFirst(feed[..n], i)
    ensures IsFirst(feed, i)
  {
    forall j | 0 <= j < i && Usable(feed[j])
      ensures ProxyKey(feed[j]) != ProxyKey(feed[i])
    {
      assert feed[..n][j] == feed[j];
    }
  }

  lemma NewNameIsFirst(feed: seq<Position>, n: nat)
    requires n < |feed| && Usable(feed[n]) && !Named(feed[..n], ProxyKey(feed[n]))
    ensures IsFirst(feed, n)
  {
    forall j | 0 <= j < n && Usable(feed[j])
      ensures ProxyKey(feed[j]) != ProxyKey(feed[n])
    {
      assert Usable(feed[..n][j]);
    }
  }

  /** `at` lists, in order, where in the feed each kept position was found: the first entry of its proxy. */
  predicate FoundAt(feed: seq<Position>, kept: seq<Position>, at: seq<nat>) {
    && |at| == |kept|
    && (forall a :: 0 <= a < |at| ==> IsFirst(feed, at[a]) && kept[a] == feed[at[a]])
    && (forall a, b :: 0 <= a < b < |at| ==> at[a] < at[b])
  }

  lemma FoundInPrefix(feed: seq<Position>, n: nat, kept: seq<Position>, at: seq<nat>)
    requires n <= |feed| && FoundAt(feed[..n], kept, at)
    ensures FoundAt(feed, kept, at) && forall a :: 0 <= a < |at| ==> at[a] < n
  {
    forall a | 0 <= a < |at|
      ensures IsFirst(feed, at[a]) && kept[a] == feed[at[a]] && at[a] < n
    {
      FirstInPrefix(feed, n, at[a]);
    }
  }

  lemma FoundOneMore(feed: seq<Position>, n: nat, kept: seq<Position>, at: seq<nat>)
    requires FoundAt(feed, kept, at) && (forall a :: 0 <= a < |at| ==> at[a] < n) && IsFirst(feed, n)
    ensures FoundAt(feed, kept + [feed[n]], at + [n])
  {
  }

  /** Each kept position is the first entry of its proxy, and they stay in feed order. */
  lemma {:induction false} UniqueKeepsFirsts(feed: seq<Position>) returns (at: seq<nat>)
    ensures FoundAt(feed, Unique(feed), at)
    decreases |feed|
  {
    at := [];
    if feed != [] {
      var n := |feed| - 1;
      at := UniqueKeepsFirsts(feed[..n]);
      FoundInPrefix(feed, n, Unique(feed[..n]), at);
      if Usable(feed[n]) && !Named(feed[..n], ProxyKey(feed[n])) {
        NewNameIsFirst(feed, n);
        FoundOneMore(feed, n, Unique(feed[..n]), at);
        at := at + [n];
      }
    }
  }

  function UnusableAt(feed: seq<Position>): set<int> {
    set i | 0 <= i < |feed| && !Usable(feed[i])
  }

  lemma {:induction false} MalformedExactly(feed: seq<Position>)
    ensures Malformed(feed) == |UnusableAt(feed)|
    decreases |feed|
  {
    if feed != [] {
      var n := |feed| - 1;
      MalformedExactly(feed[..n]);
      assert UnusableAt(feed) == UnusableAt(feed[..n]) + if Usable(feed[n]) then {} else {n};
    }
  }

  function Start(n: nat, max: nat, offset: nat): nat {
    if n > max then offset % n else 0
  }

  function Window(unique: seq<Position>, max: nat, offset: nat): seq<Position> {
    var start := Start(|unique|, max, offset);
    (unique[start..] + unique[..start])[..Min(max, |unique|)]
  }

  /** The window reads the list cyclically from its start. */
  lemma WindowAt(unique: seq<Position>, max: nat, offset: nat, j: nat)
    requires j < Min(max, |unique|)
    ensures |Window(unique, max, offset)| == Min(max, |unique|)
    ensures Window(unique, max, offset)[j] == unique[(Start(|unique|, max, offset) + j) % |unique|]
  {
    var n, start := |unique|, Start(|unique|, max, offset);
    if start + j >= n {
      ModUnique(start + j, n, 1, start + j - n);
    } else {
      ModUnique(start + j, n, 0, start + j);
    }
  }

  lemma MulGrows(a: nat, b: nat, d: nat)
    requires a < b
    ensures a * d + d <= b * d
  {
    MulBounds(b - a, d);
    assert (b - a) * d == b * d - a * d;
  }

  /** One cycle's choice: the loop of the source, over the feed as it came. */
  method SelectPositions(feed: seq<Position>, max: nat, offset: nat)
    returns (positions: seq<Position>, malformed: nat, duplicates: nat, truncated: nat)
    ensures positions == Window(Unique(feed), max, offset)
    ensures Distinct(positions) && (forall p :: p in positions ==> p in feed)
    ensures |positions| + truncated == |Unique(feed)|
    ensures malformed == |UnusableAt(feed)|
    ensures |positions| + truncated + malformed + duplicates == |feed|
  {
    var seen: set<string> := {};
    var unique: seq<Position> := [];
    malformed := 0;
    for i := 0 to |feed|
      invariant unique == Unique(feed[..i]) && malformed == Malformed(feed[..i])
      invariant forall k :: k in seen <==> Named(feed[..i], k)
    {
      assert feed[..i + 1] == feed[..i] + [feed[i]] && feed[..i + 1][..i] == feed[..i];
      forall k
        ensures Named(feed[..i + 1], k) <==> Named(feed[..i], k) || (Usable(feed[i]) && ProxyKey(feed[i]) == k)
      {
        NamedSnoc(feed[..i], feed[i], k);
      }
      if !Usable(feed[i]) {
        malformed := malformed + 1;
        continue;
      }
      var k := ProxyKey(feed[i]);
      if k in seen {
        continue;
      }
      seen := seen + {k};
      unique := unique + [feed[i]];
    }
    assert feed[..|feed|] == feed;
    MalformedExactly(feed);
    UniqueKeepsEachProxyOnce(feed);
    var start := if |unique| > max then offset % |unique| else 0;
    positions := (unique[start..] + unique[..start])[..Min(max, |unique|)];
    WindowIsDistinct(unique, max, offset);
    duplicates := |feed| - malformed - |unique|;
    truncated := Max(0, |unique| - max);
  }

  lemma WindowIsDistinct(unique: seq<Position>, max: nat, offset: nat)
    requires Distinct(unique)
    ensures Distinct(Window(unique, max, offset))
    ensures forall p :: p in Window(unique, max, offset) ==> p in unique
  {
    var start := Start(|unique|, max, offset);
    var turned := unique[start..] + unique[..start];
    forall j | 0 <= j < |turned|
      ensures turned[j] == if j < |unique| - start then unique[start + j] else unique[j - (|unique| - start)]
    {
    }
  }

  // ---- The cursor -------------------------------------------------------------------------------------

  /** Where the next cycle's window starts. */
  function NextOffset(offset: nat, selected: nat, truncated: nat): nat {
    if truncated > 0 then (offset + selected) % (selected + truncated) else 0
  }

  class Cursor {
    var candidateOffset: nat

    constructor ()
      ensures candidateOffset == 0
    {
      candidateOffset := 0;
    }

    /** Take this cycle's window and move past it. */
    method Poll(feed: seq<Position>, max: nat) returns (selected: seq<Position>)
      modifies this
      ensures selected == Window(Unique(feed), max, old(candidateOffset))
      ensures candidateOffset == OffsetAfter(|Unique(feed)|, max, old(candidateOffset), 1)
    {
      var malformed, duplicates, truncated;
      selected, malformed, duplicates, truncated := SelectPositions(feed, max, candidateOffset);
      candidateOffset := if truncated > 0 then (candidateOffset + |selected|) % (|selected| + truncated) else 0;
      assert OffsetAfter(|Unique(feed)|, max, old(candidateOffset), 0) == old(candidateOffset);
    }
  }

  /** The cursor after some cycles over a feed that keeps `n` distinct usable positions. */
  function OffsetAfter(n: nat, max: nat, offset: nat, cycles: nat): nat {
    if cycles == 0 then offset
    else NextOffset(OffsetAfter(n, max, offset, cycles - 1), Min(max, n), Max(0, n - max))
  }

  function CeilDiv(n: nat, d: nat): nat
    requires d > 0
  {
    (n + d - 1) / d
  }

  lemma ModOfSum(a: nat, b: nat, n: nat)
    requires n > 0
    ensures (a % n + b) % n == (a + b) % n
  {
    var q, r := a / n, a % n;
    var x := r + b;
    assert a == q * n + r;
    assert x == (x / n) * n + x % n;
    assert (q + x / n) * n == q * n + (x / n) * n;
    ModUnique(a + b, n, q + x / n, x % n);
  }

  /** The place in the list that a window starting at `offset` shows as its `j`-th. */
  function Place(n: nat, offset: nat, j: nat): nat
    requires n > 0
  {
    (offset + j) % n
  }

  lemma OneCycleOn(n: nat, max: nat, offset: nat, distance: nat)
    requires 0 < max < n && max <= distance
    ensures NextOffset(offset, Min(max, n), Max(0, n - max)) == (offset + max) % n
    ensures Place(n, (offset + max) % n, distance - max) == Place(n, offset, distance)
  {
    ModOfSum(offset + max, distance - max, n);
  }

  /** How many whole windows fit before a position that far ahead. */
  function Cycles(distance: nat, max: nat): nat
    requires max > 0
  {
    distance / max
  }

  lemma OneMoreCycle(x: nat, d: nat)
    requires 0 < d <= x
    ensures Cycles(x - d, d) + 1 <= Cycles(x, d)
  {
    var q := (x - d) / d;
    assert q * d <= x - d;
    assert (q + 1) * d == q * d + d;
    DivAtLeast(x, d, q + 1);
  }

  /**
   * From a window that starts `distance` before a position, the position is reached in `Cycles(distance, max)`
   * cycles.
   */
  lemma {:induction false} ReachedAfter(n: nat, max: nat, offset: nat, distance: nat, done: nat)
    returns (c: nat, j: nat)
    requires 0 < max < n && distance < n
    ensures c <= done + Cycles(distance, max) && j < max
    ensures Place(n, OffsetAfter(n, max, offset, c), j) == Place(n, OffsetAfter(n, max, offset, done), distance)
    decreases distance
  {
    if distance < max {
      c, j := done, distance;
    } else {
      OneCycleOn(n, max, OffsetAfter(n, max, offset, done), distance);
      c, j := ReachedAfter(n, max, offset, distance - max, done + 1);
      OneMoreCycle(distance, max);
    }
  }

  lemma DistanceTo(offset: nat, n: nat, p: nat) returns (distance: nat)
    requires p < n
    ensures distance < n && Place(n, offset, distance) == p
  {
    var o := offset % n;
    distance := if o <= p then p - o else p + n - o;
    ModOfSum(offset, distance, n);
    ModUnique(o + distance, n, if o <= p then 0 else 1, p);
  }

  /**
   * Coverage: while the feed stays as it is, every position is selected within `CeilDiv(n, max)`
   * consecutive cycles, wherever the cursor starts.
   */
  lemma EveryPositionIsReached(feed: seq<Position>, max: nat, offset: nat, p: Position)
    requires 0 < max < |Unique(feed)| && p in Unique(feed)
    ensures exists c :: 0 <= c < CeilDiv(|Unique(feed)|, max)
                     && p in Window(Unique(feed), max, OffsetAfter(|Unique(feed)|, max, offset, c))
  {
    var unique := Unique(feed);
    var n := |unique|;
    var i :| 0 <= i < n && unique[i] == p;
    var distance := DistanceTo(offset, n, i);
    var c, j := ReachedAfter(n, max, offset, distance, 0);
    WindowAt(unique, max, OffsetAfter(n, max, offset, c), j);
    ModOfSum(OffsetAfter(n, max, offset, c), j, n);
    assert Window(unique, max, OffsetAfter(n, max, offset, c))[j] == p;
    CyclesEnough(distance, n, max);
  }

  lemma CyclesEnough(distance: nat, n: nat, max: nat)
    requires 0 < max && distance < n
    ensures Cycles(distance, max) < CeilDiv(n, max)
  {
    var c := distance / max;
    assert c * max <= distance;
    assert (n + max - 1) / max >= c + 1 by {
      var x := n + max - 1;
      assert x >= (c + 1) * max by {
        assert (c + 1) * max == c * max + max;
      }
      DivAtLeast(x, max, c + 1);
    }
  }

  lemma DivAtLeast(x: nat, d: nat, q: nat)
    requires d > 0 && q * d <= x
    ensures q <= x / d
  {
    assert x == (x / d) * d + x % d;
    if x / d < q {
      MulGrows(x / d, q, d);
    }
  }

  /** A list that fits is taken whole, and the cursor returns to the front. */
  lemma ShortListIsTakenWhole(feed: seq<Position>, max: nat, offset: nat)
    requires |Unique(feed)| <= max
    ensures Window(Unique(feed), max, offset) == Unique(feed)
    ensures OffsetAfter(|Unique(feed)|, max, offset, 1) == 0
  {
    assert OffsetAfter(|Unique(feed)|, max, offset, 0) == offset;
  }
}
