/** The matrix class of cpp/cc_lab02_b.cc and the row function of c/c_lab02_b.c, in place. */
module Matrices {
  import opened Transitions
  import opened MatrixSum

  class Matrix {
    const n: nat
    const m: nat
    const arr: array<int>

    ghost predicate Valid() {
      n > 0 && m > 0 && arr.Length == n * m
    }

    /** Matrix(val): every element is val. */
    constructor Filled(n: nat, m: nat, val: int)
      requires n > 0 && m > 0
      ensures Valid() && fresh(arr) && this.n == n && this.m == m
      ensures forall k :: 0 <= k < arr.Length ==> arr[k] == val
    {
      this.n, this.m := n, m;
      arr := new int[n * m](_ => val);
    }

    /** Matrix(): every row is 1, 2, ..., m. */
    constructor Counting(n: nat, m: nat)
      requires n > 0 && m > 0
      ensures Valid() && fresh(arr) && this.n == n && this.m == m
      ensures forall k :: 0 <= k < arr.Length ==> arr[k] == k % m + 1
    {
      this.n, this.m := n, m;
      arr := new int[n * m](_ => 0);
      new;
      for i := 0 to n
        invariant forall k :: 0 <= k < arr.Length && k / m < i ==> arr[k] == k % m + 1
      {
        for j := 0 to m
          invariant forall k :: 0 <= k < arr.Length && (k / m < i || (k / m == i && k % m < j)) ==> arr[k] == k % m + 1
        {
          IndexInRange(n, m, i, j);
          IndexSplits(m, i, j);
          arr[i * m + j] := j + 1;
          CellIsUnique(m, i, j);
        }
      }
      forall k | 0 <= k < arr.Length
        ensures arr[k] == k % m + 1
      {
        IndexCovers(n, m, k);
      }
    }

    /** operator(): out_of_range, or the element at x * m + y. */
    method At(x: nat, y: nat) returns (r: Option<int>)
      requires Valid()
      ensures r.Some? <==> x < n && y < m
      ensures r.Some? ==> exists k :: 0 <= k < arr.Length && k / m == x && k % m == y && r.value == arr[k]
    {
      if x >= n || y >= m {
        r := None;
      } else {
        IndexInRange(n, m, x, y);
        IndexSplits(m, x, y);
        r := Some(arr[x * m + y]);
        assert arr[Index(m, x, y)] == r.value;
      }
    }

    /** col(c) += a.col(c): out_of_range, or every element of column c and no other. The matrix may
        be added to itself. */
    method AddToColumn(a: Matrix, c: nat) returns (ok: bool)
      requires Valid() && a.Valid() && a.n == n && a.m == m
      modifies arr
      ensures ok <==> c < m
      ensures forall k :: 0 <= k < arr.Length ==> arr[k] == old(arr[k]) + (if k % m == c then old(a.arr[k]) else 0)
    {
      ok := c < m;
      if ok {
        for i := 0 to n
          invariant forall k :: 0 <= k < arr.Length ==>
            arr[k] == old(arr[k]) + (if k % m == c && k / m < i then old(a.arr[k]) else 0)
        {
          IndexInRange(n, m, i, c);
          IndexSplits(m, i, c);
          CellIsUnique(m, i, c);
          assert a.arr[i * m + c] == old(a.arr[i * m + c]);
          arr[i * m + c] := arr[i * m + c] + a.arr[i * m + c];
        }
        forall k | 0 <= k < arr.Length
          ensures arr[k] == old(arr[k]) + (if k % m == c then old(a.arr[k]) else 0)
        {
          IndexCovers(n, m, k);
        }
      } else {
        forall k | 0 <= k < arr.Length
          ensures k % m != c
        {
          IndexCovers(n, m, k);
        }
      }
    }

    /** The tasks one after another: the reference that every interleaving agrees with. */
    method SetToSum(a: Matrix, b: Matrix)
      requires Valid() && a.Valid() && b.Valid() && a.n == b.n == n && a.m == b.m == m && a.arr != arr && b.arr != arr
      requires forall k :: 0 <= k < arr.Length ==> arr[k] == 0
      modifies arr
      ensures forall k :: 0 <= k < arr.Length ==> arr[k] == a.arr[k] + b.arr[k]
    {
      for c := 0 to m
        invariant forall k :: 0 <= k < arr.Length ==> arr[k] == (if k % m < c then a.arr[k] + b.arr[k] else 0)
      {
        var ok := AddToColumn(a, c);
        ok := AddToColumn(b, c);
      }
      forall k | 0 <= k < arr.Length
        ensures arr[k] == a.arr[k] + b.arr[k]
      {
        IndexCovers(n, m, k);
      }
    }
  }

  lemma CellIsUnique(m: nat, x: nat, y: nat)
    requires y < m
    ensures forall k :: 0 <= k && k / m == x && k % m == y ==> k == Index(m, x, y)
  {
  }

  /** calculate_row: fills its row and touches no other. */
  method CalculateRow(res: array2<int>, a: array2<int>, b: array2<int>, row: nat)
    requires row < res.Length0 == a.Length0 == b.Length0 && res.Length1 == a.Length1 == b.Length1
    requires res != a && res != b
    modifies res
    ensures forall i, j :: 0 <= i < res.Length0 && 0 <= j < res.Length1 ==>
              res[i, j] == (if i == row then a[i, j] + b[i, j] else old(res[i, j]))
  {
    for j := 0 to res.Length1
      invariant forall i, k :: 0 <= i < res.Length0 && 0 <= k < res.Length1 ==>
                  res[i, k] == (if i == row && k < j then a[i, k] + b[i, k] else old(res[i, k]))
    {
      res[row, j] := a[row, j] + b[row, j];
    }
  }
}
