/** The triple loop of c/c_lab02_a.c and cpp/cc_lab02_a.cc: the sum of i * j * k over
    1..a, 1..b, 1..c, in signed 32-bit arithmetic, where overflow is an error, and in unsigned 64-bit
    arithmetic, which wraps. */
module TripleLoop {
  import opened Transitions

  const INT_MAX: int := 0x7fff_ffff
  const INT_MIN: int := -0x8000_0000
  const WORD: int := 0x1_0000_0000_0000_0000

  /** 1 + 2 + ... + n. */
  function Tri(n: int): nat {
    if n <= 0 then 0 else n + Tri(n - 1)
  }

  lemma {:induction false} TriClosed(n: nat)
    ensures Tri(n) == n * (n + 1) / 2
  {
    if n > 0 {
      TriClosed(n - 1);
      TriTwice(n);
    }
  }

  lemma {:induction false} TriTwice(n: nat)
    ensures 2 * Tri(n) == n * (n + 1)
  {
    if n > 0 {
      TriTwice(n - 1);
    }
  }

  lemma {:induction false} TriGrows(x: int, y: int)
    requires x <= y
    ensures Tri(x) <= Tri(y) && x <= Tri(x)
    decreases y - x, if x > 0 then x else 0
  {
    if x < y {
      TriGrows(x, y - 1);
    } else if x > 0 {
      TriGrows(x - 1, x - 1);
    }
  }

  function Total(a: int, b: int, c: int): nat {
    Tri(a) * Tri(b) * Tri(c)
  }

  lemma Scale(x: nat, y: nat, z: nat)
    requires x <= y
    ensures x * z <= y * z && z * x <= z * y
  {
  }

  lemma Scale3(x: nat, y: nat, u: nat, v: nat)
    requires x <= y
    ensures x * u * v <= y * u * v
  {
    Scale(x, y, u);
    Scale(x * u, y * u, v);
  }

  lemma Distribute1(x: int, y: int, u: int)
    ensures (x + y) * u == x * u + y * u
  {
  }

  lemma Distribute(x: int, y: int, u: int, v: int)
    ensures (x + y) * u * v == x * u * v + y * u * v
  {
    Distribute1(x, y, u);
    Distribute1(x * u, y * u, v);
  }

  /** One more round of the inner, middle and outer loop. */
  lemma NextK(m: nat, k: nat)
    requires k >= 1
    ensures m * Tri(k) == m * Tri(k - 1) + m * k
  {
    assert Tri(k) == k + Tri(k - 1);
    assert m * (k + Tri(k - 1)) == m * k + m * Tri(k - 1);
  }

  lemma NextJ(c: int, i: nat, j: nat)
    requires j >= 1
    ensures i * Tri(j) * Tri(c) == i * Tri(j - 1) * Tri(c) + i * j * Tri(c)
  {
    NextK(i, j);
    Distribute1(i * Tri(j - 1), i * j, Tri(c));
  }

  lemma NextI(b: int, c: int, i: nat)
    requires i >= 1
    ensures Tri(i) * Tri(b) * Tri(c) == Tri(i - 1) * Tri(b) * Tri(c) + i * Tri(b) * Tri(c)
  {
    Distribute(i, Tri(i - 1), Tri(b), Tri(c));
  }

  /** No product exceeds the final sum. */
  lemma ProductBelowTotal(a: int, b: int, c: int, i: nat, j: nat, k: nat)
    requires 1 <= i <= a && 1 <= j <= b && 1 <= k <= c
    ensures i * j <= i * j * k <= Total(a, b, c)
  {
    TriGrows(i, a);
    TriGrows(j, b);
    TriGrows(k, c);
    Scale(i, Tri(a), j);
    Scale(j, Tri(b), Tri(a));
    Scale(i * j, Tri(a) * Tri(b), k);
    Scale(k, Tri(c), Tri(a) * Tri(b));
    Scale(1, k, i * j);
  }

  /** No sum reached on the way exceeds it either. */
  lemma RoundsBelow(m: nat, k: int, c: int)
    requires k <= c
    ensures m * Tri(k) <= m * Tri(c)
  {
    TriGrows(k, c);
    Scale(Tri(k), Tri(c), m);
  }

  lemma RoundsBelow2(i: nat, j: int, b: int, c: int)
    requires j <= b
    ensures i * Tri(j) * Tri(c) <= i * Tri(b) * Tri(c)
  {
    RoundsBelow(i, j, b);
    Scale(i * Tri(j), i * Tri(b), Tri(c));
  }

  lemma RoundsBelow3(i: int, a: int, b: int, c: int)
    requires i <= a
    ensures Tri(i) * Tri(b) * Tri(c) <= Total(a, b, c)
  {
    TriGrows(i, a);
    Scale3(Tri(i), Tri(a), Tri(b), Tri(c));
  }

  predicate IsInt32(x: int) {
    INT_MIN <= x <= INT_MAX
  }

  /** Exactly when the 32-bit program is free of overflow: no loop counter has to pass INT_MAX, and
      the closed form fits. */
  predicate FitsInt32(a: int, b: int, c: int) {
    a < INT_MAX && (a >= 1 ==> b < INT_MAX) && Total(a, b, c) <= INT_MAX
  }

  lemma BigCounter(a: int, b: int)
    requires a >= 1 && b >= 1
    ensures Total(a, b, INT_MAX) > INT_MAX
  {
    TriGrows(1, a);
    TriGrows(1, b);
    assert Tri(INT_MAX) == INT_MAX + Tri(INT_MAX - 1);
    TriGrows(1, INT_MAX - 1);
    Scale(1, Tri(a), Tri(b));
    Scale(1, Tri(a) * Tri(b), Tri(INT_MAX));
  }

  /** The innermost loop: adds i * j * k for k in 1..c, or stops at the first overflow. */
  method AddMultiples(a: int, b: int, c: int, i: int, j: int, start: int) returns (total: Option<int>)
    requires IsInt32(c) && 1 <= i <= a && 1 <= j <= b
    requires 0 <= start <= INT_MAX && start + i * j * Tri(c) <= Total(a, b, c)
    ensures total.Some? ==> total.value == start + i * j * Tri(c) && 0 <= total.value <= INT_MAX
    ensures total.None? ==> Total(a, b, c) > INT_MAX
  {
    var sum, k := start, 1;
    ghost var m := i * j;
    while k <= c
      invariant 1 <= k && (c >= 1 ==> k <= c + 1) && (c < 1 ==> k == 1)
      invariant sum == start + m * Tri(k - 1) && 0 <= sum <= INT_MAX
    {
      ProductBelowTotal(a, b, c, i, j, k);
      NextK(m, k);
      RoundsBelow(m, k, c);
      var p := i * j;
      if p > INT_MAX {
        return None;
      }
      var q := p * k;
      if q > INT_MAX || sum + q > INT_MAX {
        return None;
      }
      sum := sum + q;
      if k == INT_MAX {
        BigCounter(a, b);
        return None;
      }
      k := k + 1;
    }
    total := Some(sum);
    assert Tri(k - 1) == Tri(c);
  }

  /** The two inner loops. */
  method AddProducts(a: int, b: int, c: int, i: int, start: int) returns (total: Option<int>)
    requires IsInt32(b) && IsInt32(c) && 1 <= i <= a
    requires 0 <= start <= INT_MAX && start + i * Tri(b) * Tri(c) <= Total(a, b, c)
    ensures total.Some? ==> total.value == start + i * Tri(b) * Tri(c) && 0 <= total.value <= INT_MAX && b < INT_MAX
    ensures total.None? ==> b == INT_MAX || Total(a, b, c) > INT_MAX
  {
    var sum, j := start, 1;
    while j <= b
      invariant 1 <= j <= INT_MAX && (b >= 1 ==> j <= b + 1) && (b < 1 ==> j == 1)
      invariant sum == start + i * Tri(j - 1) * Tri(c) && 0 <= sum <= INT_MAX
    {
      NextJ(c, i, j);
      RoundsBelow2(i, j, b, c);
      var next := AddMultiples(a, b, c, i, j, sum);
      if next.None? || j == INT_MAX {
        return None;
      }
      sum, j := next.value, j + 1;
    }
    total := Some(sum);
    assert Tri(j - 1) == Tri(b);
  }

  /** calculate: succeeds exactly when everything fits, and then yields the closed form. */
  method Calculate(a: int, b: int, c: int) returns (total: Option<int>)
    requires IsInt32(a) && IsInt32(b) && IsInt32(c)
    ensures total.Some? <==> FitsInt32(a, b, c)
    ensures total.Some? ==> total.value == Total(a, b, c)
  {
    var sum, i := 0, 1;
    while i <= a
      invariant 1 <= i <= INT_MAX && (a >= 1 ==> i <= a + 1) && (a < 1 ==> i == 1)
      invariant sum == Tri(i - 1) * Tri(b) * Tri(c) && 0 <= sum <= INT_MAX
      invariant i > 1 ==> b < INT_MAX
    {
      NextI(b, c, i);
      RoundsBelow3(i, a, b, c);
      var next := AddProducts(a, b, c, i, sum);
      if next.None? || i == INT_MAX {
        return None;
      }
      sum, i := next.value, i + 1;
    }
    total := Some(sum);
    assert Tri(i - 1) == Tri(a);
  }

  // ----- C++ -----

  /** The class Data: 64-bit words that wrap, and a cached result. */
  class Data {
    const a: nat
    const b: nat
    const c: nat
    var total: nat
    var isCached: bool

    ghost predicate Valid()
      reads this
    {
      && LoopsEnd(a, b, c)
      && total == (if isCached then Total(a, b, c) % WORD else 0)
    }

    constructor ()
      ensures Valid() && a == b == c == 10 && !isCached
    {
      a, b, c, total, isCached := 10, 10, 10, 0, false;
    }

    constructor Of(a: nat, b: nat, c: nat)
      requires LoopsEnd(a, b, c)
      ensures Valid() && this.a == a && this.b == b && this.c == c && !isCached
    {
      this.a, this.b, this.c, total, isCached := a, b, c, 0, false;
    }

    /** However often it is called, get_total returns the closed form. */
    method GetTotal() returns (r: nat)
      requires Valid()
      modifies this
      ensures Valid() && isCached
      ensures r == Total(a, b, c) % WORD
    {
      if !isCached {
        total := CalculateWords(a, b, c);
        isCached := true;
      }
      r := total;
    }
  }

  lemma ModAdd(x: nat, y: nat)
    ensures (x % WORD + y % WORD) % WORD == (x + y) % WORD
  {
  }

  lemma ModMul(x: nat, k: nat)
    ensures (x % WORD * k) % WORD == (x * k) % WORD
  {
    var q := x / WORD;
    assert x == q * WORD + x % WORD;
    assert x * k == (q * k) * WORD + x % WORD * k by {
      assert (q * WORD + x % WORD) * k == q * WORD * k + x % WORD * k;
    }
    ModShift(x % WORD * k, q * k);
  }

  lemma {:induction false} ModShift(x: nat, q: nat)
    ensures (q * WORD + x) % WORD == x % WORD
  {
    if q > 0 {
      ModShift(x, q - 1);
    }
  }

  /** A loop counter moves on modulo 2^64. */
  function Successor(i: nat): (r: nat)
    ensures i < WORD - 1 ==> r == i + 1
  {
    (i + 1) % WORD
  }

  lemma NextTerm(exact: nat, m: nat, k: nat)
    requires k >= 1
    ensures ((exact + m * Tri(k - 1)) % WORD + m % WORD * k % WORD) % WORD == (exact + m * Tri(k)) % WORD
  {
    NextK(m, k);
    ModMul(m, k);
    ModAdd(exact + m * Tri(k - 1), m * k);
  }

  method AddMultiplesMod(c: nat, i: nat, j: nat, start: nat, ghost exact: nat) returns (total: nat)
    requires start == exact % WORD && c < WORD - 1
    ensures total == (exact + i * j * Tri(c)) % WORD
  {
    total := start;
    ghost var m := i * j;
    var k := 1;
    while k <= c
      invariant 1 <= k <= c + 1
      invariant total == (exact + m * Tri(k - 1)) % WORD
    {
      NextTerm(exact, m, k);
      var p := i * j % WORD;
      total := (total + p * k % WORD) % WORD;
      k := Successor(k);
    }
  }

  method AddProductsMod(b: nat, c: nat, i: nat, start: nat, ghost exact: nat) returns (total: nat)
    requires start == exact % WORD && b < WORD - 1 && (b > 0 ==> c < WORD - 1)
    ensures total == (exact + i * Tri(b) * Tri(c)) % WORD
  {
    total := start;
    var j := 1;
    while j <= b
      invariant 1 <= j <= b + 1
      invariant total == (exact + i * Tri(j - 1) * Tri(c)) % WORD
    {
      NextJ(c, i, j);
      total := AddMultiplesMod(c, i, j, total, exact + i * Tri(j - 1) * Tri(c));
      j := Successor(j);
    }
  }

  /** No loop that is entered has the largest word as its bound, which its counter could never pass. */
  predicate LoopsEnd(a: nat, b: nat, c: nat) {
    a < WORD - 1 && (a > 0 ==> b < WORD - 1) && (a > 0 && b > 0 ==> c < WORD - 1)
  }

  /** A loop counter that starts at 1, after k rounds. */
  function Counter(k: nat): nat {
    if k == 0 then 1 else Successor(Counter(k - 1))
  }

  lemma {:induction false} CounterIs(k: nat)
    ensures Counter(k) < WORD
    ensures k < WORD - 1 ==> Counter(k) == k + 1
  {
    if k > 0 {
      CounterIs(k - 1);
    }
  }

  /** Some round finds the counter above the bound. */
  ghost predicate LoopEnds(bound: nat) {
    exists k :: Counter(k) > bound
  }

  lemma WhenLoopEnds(bound: nat)
    requires bound < WORD
    ensures LoopEnds(bound) <==> bound < WORD - 1
  {
    if bound < WORD - 1 {
      CounterIs(bound);
    } else if LoopEnds(bound) {
      var k :| Counter(k) > bound;
      CounterIs(k);
      assert false;
    }
  }

  /** So LoopsEnd says of 64-bit bounds exactly that every loop entered ends. */
  lemma WhenLoopsEnd(a: nat, b: nat, c: nat)
    requires a < WORD && b < WORD && c < WORD
    ensures LoopsEnd(a, b, c) <==> LoopEnds(a) && (a > 0 ==> LoopEnds(b)) && (a > 0 && b > 0 ==> LoopEnds(c))
  {
    WhenLoopEnds(a);
    WhenLoopEnds(b);
    WhenLoopEnds(c);
  }

  /** calculate of class Data: every product, sum and counter is taken modulo 2^64. */
  method CalculateWords(a: nat, b: nat, c: nat) returns (total: nat)
    requires LoopsEnd(a, b, c)
    ensures total == Total(a, b, c) % WORD
  {
    total := 0;
    var i := 1;
    while i <= a
      invariant 1 <= i <= a + 1
      invariant total == (Tri(i - 1) * Tri(b) * Tri(c)) % WORD
    {
      NextI(b, c, i);
      total := AddProductsMod(b, c, i, total, Tri(i - 1) * Tri(b) * Tri(c));
      i := Successor(i);
    }
  }

  /** The value the C++ program asserts. */
  lemma TotalOfTens()
    ensures Total(10, 10, 10) == 166375
  {
    TriTwice(10);
  }
}
