/** Concatenating a sequence of rows into one sequence, and where each
    element of each row ends up. */
module Seqs {

  /** The rows one after another, the first row first. */
  function Concat<T>(rows: seq<seq<T>>): seq<T>
  {
    if rows == [] then [] else Concat(rows[..|rows| - 1]) + rows[|rows| - 1]
  }

  /** Where row r begins in the concatenation. */
  function Start<T>(rows: seq<seq<T>>, r: int): nat
    requires 0 <= r <= |rows|
  {
    |Concat(rows[..r])|
  }

  /** Concatenating one more row appends that row. */
  lemma ConcatStep<T>(rows: seq<seq<T>>, r: int)
    requires 0 <= r < |rows|
    ensures Concat(rows[..r + 1]) == Concat(rows[..r]) + rows[r]
  {
    assert rows[..r + 1][..r] == rows[..r];
  }

  /** Concatenating fewer leading rows gives a prefix. */
  lemma {:induction false} ConcatPrefix<T>(rows: seq<seq<T>>, i: int, j: int)
    requires 0 <= i <= j <= |rows|
    ensures Concat(rows[..i]) <= Concat(rows[..j])
  {
    if i < j {
      ConcatPrefix(rows, i, j - 1);
      ConcatStep(rows, j - 1);
    }
  }

  /** Element c of row r sits right after all elements of the earlier rows. */
  lemma ConcatIndex<T>(rows: seq<seq<T>>, r: int, c: int)
    requires 0 <= r < |rows| && 0 <= c < |rows[r]|
    ensures Start(rows, r) + c < |Concat(rows)|
    ensures Concat(rows)[Start(rows, r) + c] == rows[r][c]
  {
    ConcatStep(rows, r);
    ConcatPrefix(rows, r + 1, |rows|);
    assert rows[..|rows|] == rows;
    var i := |Concat(rows[..r])| + c;
    assert Concat(rows[..r + 1])[i] == rows[r][c];
  }

  /** Every index of the concatenation is the place of some element of some
      row, counted after all elements of the earlier rows. */
  lemma {:induction false} ConcatCover<T>(rows: seq<seq<T>>, i: int)
    requires 0 <= i < |Concat(rows)|
    ensures exists r, c :: 0 <= r < |rows| && 0 <= c < |rows[r]| && i == Start(rows, r) + c && Concat(rows)[i] == rows[r][c]
  {
    var n := |rows| - 1;
    var init := rows[..n];
    assert Concat(rows) == Concat(init) + rows[n];
    if i < |Concat(init)| {
      ConcatCover(init, i);
      var r, c :| 0 <= r < |init| && 0 <= c < |init[r]| && i == Start(init, r) + c && Concat(init)[i] == init[r][c];
      assert init[..r] == rows[..r];
      assert i == Start(rows, r) + c && Concat(rows)[i] == rows[r][c];
    } else {
      var c := i - |Concat(init)|;
      assert i == Start(rows, n) + c && Concat(rows)[i] == rows[n][c];
    }
  }

  /** Places in the concatenation follow the order of (row, column) pairs:
      an earlier place belongs to an earlier row, or to the same row and an
      earlier column. */
  lemma ConcatOrder<T>(rows: seq<seq<T>>, r1: int, c1: int, r2: int, c2: int)
    requires 0 <= r1 < |rows| && 0 <= c1 < |rows[r1]|
    requires 0 <= r2 < |rows| && 0 <= c2 < |rows[r2]|
    requires Start(rows, r1) + c1 < Start(rows, r2) + c2
    ensures r1 < r2 || (r1 == r2 && c1 < c2)
  {
    if r1 > r2 {
      ConcatStep(rows, r2);
      ConcatPrefix(rows, r2 + 1, r1);
    }
  }

  /** Rows all of the same length `len` concatenate to `|rows| * len`
      elements. */
  lemma {:induction false} ConcatUniform<T>(rows: seq<seq<T>>, len: nat)
    requires forall r :: 0 <= r < |rows| ==> |rows[r]| == len
    ensures |Concat(rows)| == |rows| * len
  {
    if rows != [] {
      ConcatUniform(rows[..|rows| - 1], len);
    }
  }
}
