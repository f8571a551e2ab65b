/** Index arithmetic of a ring of n slots: position j of an endless log lives in slot j % n. */
module RingArith {

  function Wrap(n: nat, j: nat): (k: nat)
    requires n > 0
    ensures k < n
  {
    j % n
  }

  lemma Multiples(n: nat, p: int, q: int)
    requires p < q
    ensures p * n + n <= q * n
  {
    assert (q - p - 1) * n >= 0;
  }

  lemma RemaindersAgree(n: nat, p: int, k: nat, q: int, l: nat)
    requires k < n && l < n && p * n + k == q * n + l
    ensures p == q && k == l
  {
    if p < q {
      Multiples(n, p, q);
    } else if q < p {
      Multiples(n, q, p);
    }
  }

  lemma WrapIsUnique(n: nat, j: nat, q: int, k: nat)
    requires n > 0 && k < n && j == q * n + k
    ensures Wrap(n, j) == k
  {
    RemaindersAgree(n, q, k, j / n, j % n);
  }

  /** The two indices move on exactly as the log does. */
  lemma WrapNext(n: nat, j: nat)
    requires n > 0
    ensures (Wrap(n, j) + 1) % n == Wrap(n, j + 1)
  {
    WrapOffset(n, j, 1);
  }

  lemma WrapAround(n: nat, j: nat)
    requires n > 0
    ensures Wrap(n, j + n) == Wrap(n, j)
  {
    var q, k := j / n, j % n;
    assert j + n == (q + 1) * n + k;
    WrapIsUnique(n, j + n, q + 1, k);
  }

  /** No two positions of one window of n share a slot. */
  lemma WrapDistinct(n: nat, j: nat, k: nat)
    requires n > 0 && j < k < j + n
    ensures Wrap(n, j) != Wrap(n, k)
  {
    var p, q := j / n, k / n;
    if p < q {
      Multiples(n, p, q);
    } else if q < p {
      Multiples(n, q, p);
    }
  }

  lemma WrapOffset(n: nat, c: nat, k: nat)
    requires n > 0
    ensures Wrap(n, Wrap(n, c) + k) == Wrap(n, c + k)
  {
    var p, d := c / n, c % n;
    var q, e := (d + k) / n, (d + k) % n;
    assert c + k == p * n + (q * n + e);
    assert (p + q) * n == p * n + q * n;
    WrapIsUnique(n, c + k, p + q, e);
  }

  /** Every slot is some position of any window of n. */
  lemma {:induction false} WrapCovers(n: nat, from: nat, slot: nat) returns (j: nat)
    requires slot < n
    ensures from <= j < from + n && Wrap(n, j) == slot
  {
    if from == 0 {
      j := slot;
      WrapIsUnique(n, slot, 0, slot);
    } else {
      j := WrapCovers(n, from - 1, slot);
      if j == from - 1 {
        WrapAround(n, j);
        j := j + n;
      }
    }
  }
}
