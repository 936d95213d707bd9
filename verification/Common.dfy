/** Values and finite sums shared by every component of the model. */
module Common {

  datatype Option<+T> = None | Some(value: T) {
    function GetOr(default: T): T {
      match this
      case Some(v) => v
      case None => default
    }
  }

  function Max(a: int, b: int): int {
    if a < b then b else a
  }

  function Min(a: int, b: int): int {
    if a < b then a else b
  }

  // ---- Text ---------------------------------------------------------------------------------

  /** ASCII lower case: what `toLowerCase` does to a hex address. */
  function LowerChar(c: char): char {
    if 'A' <= c <= 'Z' then ((c as int) - ('A' as int) + ('a' as int)) as char else c
  }

  function Lower(s: string): (r: string)
    ensures |r| == |s|
    ensures forall i :: 0 <= i < |s| ==> r[i] == LowerChar(s[i])
  {
    seq(|s|, i requires 0 <= i < |s| => LowerChar(s[i]))
  }

  // ---- Division ------------------------------------------------------------------------------

  lemma ModUnique(x: int, n: int, q: int, r: int)
    requires 0 <= r < n && x == q * n + r
    ensures x % n == r
  {
    var d := x / n - q;
    assert x == (x / n) * n + x % n;
    assert d * n == r - x % n by {
      assert (x / n) * n - q * n == d * n;
    }
    MulBounds(d, n);
  }

  lemma MulBounds(d: int, n: int)
    requires 0 <= n
    ensures 1 <= d ==> n <= d * n
    ensures d <= -1 ==> d * n <= -n
  {
    if 1 <= d {
      assert d * n == n + (d - 1) * n;
    } else if d <= -1 {
      assert d * n == -n + (d + 1) * n;
    }
  }

  lemma ModStep(x: int, n: int)
    requires 0 < n
    ensures (x + n) % n == x % n
  {
    var q := x / n;
    assert (q + 1) * n == q * n + n;
    ModUnique(x + n, n, q + 1, x % n);
  }

  // ---- Maps read with a default of zero -----------------------------------------------------

  function At<K>(m: map<K, int>, k: K): int {
    if k in m then m[k] else 0
  }

  // ---- Sums over finite sets ----------------------------------------------------------------

  ghost function Sum<T>(s: set<T>, f: T -> int): int {
    if s == {} then 0 else var x :| x in s; f(x) + Sum(s - {x}, f)
  }

  /** Any member may be taken out first, so the sum does not depend on the order of iteration. */
  lemma {:induction false} SumTake<T>(s: set<T>, f: T -> int, x: T)
    requires x in s
    ensures Sum(s, f) == f(x) + Sum(s - {x}, f)
    decreases s
  {
    var y :| y in s && Sum(s, f) == f(y) + Sum(s - {y}, f);
    if y != x {
      SumTake(s - {y}, f, x);
      SumTake(s - {x}, f, y);
      assert s - {y} - {x} == s - {x} - {y};
    }
  }

  lemma {:induction false} SumLeq<T>(s: set<T>, f: T -> int, g: T -> int)
    requires forall x :: x in s ==> f(x) <= g(x)
    ensures Sum(s, f) <= Sum(s, g)
    decreases s
  {
    if s != {} {
      var x :| x in s;
      SumTake(s, f, x);
      SumTake(s, g, x);
      SumLeq(s - {x}, f, g);
    }
  }

  lemma SumSame<T>(s: set<T>, f: T -> int, g: T -> int)
    requires forall x :: x in s ==> f(x) == g(x)
    ensures Sum(s, f) == Sum(s, g)
  {
    SumLeq(s, f, g);
    SumLeq(s, g, f);
  }

  /** Two functions that differ at one member have sums that differ by as much. */
  lemma SumChange<T>(s: set<T>, f: T -> int, g: T -> int, x: T)
    requires x in s
    requires forall y :: y in s && y != x ==> f(y) == g(y)
    ensures Sum(s, g) == Sum(s, f) - f(x) + g(x)
  {
    SumTake(s, f, x);
    SumTake(s, g, x);
    SumSame(s - {x}, f, g);
  }

  lemma {:induction false} SumNonNegative<T>(s: set<T>, f: T -> int)
    requires forall x :: x in s ==> 0 <= f(x)
    ensures 0 <= Sum(s, f)
    decreases s
  {
    if s != {} {
      var x :| x in s;
      SumTake(s, f, x);
      SumNonNegative(s - {x}, f);
    }
  }

  /** A sum over a larger set of non-negative terms is no smaller. */
  lemma {:induction false} SumSubset<T>(s: set<T>, t: set<T>, f: T -> int)
    requires s <= t
    requires forall x :: x in t ==> 0 <= f(x)
    ensures Sum(s, f) <= Sum(t, f)
    decreases t
  {
    if s == {} {
      SumNonNegative(t, f);
    } else {
      var x :| x in s;
      SumTake(s, f, x);
      SumTake(t, f, x);
      SumSubset(s - {x}, t - {x}, f);
    }
  }

  lemma {:induction false} SumAdd<T>(s: set<T>, f: T -> int, g: T -> int, h: T -> int)
    requires forall x :: x in s ==> h(x) == f(x) + g(x)
    ensures Sum(s, h) == Sum(s, f) + Sum(s, g)
    decreases s
  {
    if s != {} {
      var x :| x in s;
      SumTake(s, f, x);
      SumTake(s, g, x);
      SumTake(s, h, x);
      SumAdd(s - {x}, f, g, h);
    }
  }

  /**
   * Positive terms that have distinct partners, each carrying at least as much, are bounded by the
   * partners' sum.
   */
  lemma {:induction false} SumPaired<S, T>(s: set<S>, f: S -> int, t: set<T>, g: T -> int, partner: S -> T)
    requires forall y :: y in t ==> 0 <= g(y)
    requires forall x :: x in s && 0 < f(x) ==> partner(x) in t && f(x) <= g(partner(x))
    requires forall x, x' :: x in s && x' in s && 0 < f(x) && 0 < f(x') && partner(x) == partner(x') ==> x == x'
    ensures Sum(s, f) <= Sum(t, g)
    decreases s
  {
    if s == {} {
      SumNonNegative(t, g);
    } else {
      var x :| x in s;
      SumTake(s, f, x);
      if f(x) <= 0 {
        SumPaired(s - {x}, f, t, g, partner);
      } else {
        SumTake(t, g, partner(x));
        SumPaired(s - {x}, f, t - {partner(x)}, g, partner);
      }
    }
  }

  /** Members whose terms are zero may be left out. */
  lemma SumDropZeros<T>(s: set<T>, t: set<T>, f: T -> int)
    requires s <= t
    requires forall x :: x in t ==> 0 <= f(x)
    requires forall x :: x in t - s ==> f(x) == 0
    ensures Sum(s, f) == Sum(t, f)
  {
    SumSubset(s, t, f);
    SumPaired(t, f, s, f, (x: T) => x);
  }

  // ---- Maxima over finite sets --------------------------------------------------------------

  /** The largest term, or zero for an empty set. */
  ghost function MaxOver<T>(s: set<T>, f: T -> int): int {
    if s == {} then 0 else var x :| x in s; Max(f(x), MaxOver(s - {x}, f))
  }

  lemma {:induction false} MaxTake<T>(s: set<T>, f: T -> int, x: T)
    requires x in s
    ensures MaxOver(s, f) == Max(f(x), MaxOver(s - {x}, f))
    decreases s
  {
    var y :| y in s && MaxOver(s, f) == Max(f(y), MaxOver(s - {y}, f));
    if y != x {
      MaxTake(s - {y}, f, x);
      MaxTake(s - {x}, f, y);
      assert s - {y} - {x} == s - {x} - {y};
      var rest := MaxOver(s - {x} - {y}, f);
      assert MaxOver(s, f) == Max(f(y), Max(f(x), rest)) && MaxOver(s - {x}, f) == Max(f(y), rest);
    }
  }

  lemma MaxAtLeast<T>(s: set<T>, f: T -> int, x: T)
    requires x in s
    ensures f(x) <= MaxOver(s, f)
  {
    MaxTake(s, f, x);
  }

  lemma {:induction false} MaxAttained<T>(s: set<T>, f: T -> int)
    ensures 0 <= MaxOver(s, f)
    ensures 0 < MaxOver(s, f) ==> exists x :: x in s && f(x) == MaxOver(s, f)
    decreases s
  {
    if s != {} {
      var x :| x in s;
      MaxTake(s, f, x);
      MaxAttained(s - {x}, f);
      if f(x) < MaxOver(s, f) && 0 < MaxOver(s, f) {
        var y :| y in s - {x} && f(y) == MaxOver(s - {x}, f);
        assert y in s && f(y) == MaxOver(s, f);
      }
    }
  }
}
