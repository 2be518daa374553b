/** Exact vectors and matrices.  A matrix is a sequence of rows. */
module Linear {
  type Vec = seq<real>
  type Mat = seq<Vec>

  ghost predicate Shaped(m: Mat, rows: nat, cols: nat) {
    |m| == rows && forall i :: 0 <= i < rows ==> |m[i]| == cols
  }

  function Dot(a: Vec, b: Vec): real
    requires |a| == |b|
  {
    if |a| == 0 then 0.0 else a[0] * b[0] + Dot(a[1..], b[1..])
  }

  /** One row of x·Wᵀ: `w` holds one row per output feature. */
  function ApplyRow(w: Mat, x: Vec): (y: Vec)
    requires Shaped(w, |w|, |x|)
    ensures |y| == |w|
  {
    seq(|w|, j requires 0 <= j < |w| && Shaped(w, |w|, |x|) => Dot(x, w[j]))
  }

  function AddVec(a: Vec, b: Vec): (c: Vec)
    requires |a| == |b|
    ensures |c| == |a|
  {
    seq(|a|, j requires 0 <= j < |a| && |a| == |b| => a[j] + b[j])
  }

  function ZeroVec(n: nat): (r: Vec)
    ensures |r| == n
  {
    seq(n, _ => 0.0)
  }

  /** x + bias, where an empty bias stands for "no bias tensor". */
  function AddBias(x: Vec, bias: Vec): (y: Vec)
    requires bias == [] || |bias| == |x|
    ensures |y| == |x|
  {
    if bias == [] then x else AddVec(x, bias)
  }

  /** Rows laid out one after the other, as a contiguous tensor is. */
  function Flat(rows: Mat): Vec {
    if rows == [] then [] else rows[0] + Flat(rows[1..])
  }

  /** The first `n` rows of width `w` found in a memory, as a raw view reads them. */
  function View(mem: Vec, n: nat, w: nat): (rows: Mat)
    requires n * w <= |mem|
    ensures Shaped(rows, n, w)
  {
    if n == 0 then []
    else
      assert n * w == w + (n - 1) * w;
      [mem[..w]] + View(mem[w..], n - 1, w)
  }

  /** Cells in front of row `r`. */
  function CellsBefore(r: nat, w: nat): (at: nat)
    ensures at == r * w
  {
    r * w
  }

  lemma {:induction false} RowInside(r: nat, n: nat, w: nat)
    requires r < n
    ensures r * w + w <= n * w
    decreases n
  {
    assert n * w == (n - 1) * w + w;
    if r + 1 < n { RowInside(r, n - 1, w); }
  }

  /** The row after the first is the first row of the rest. */
  lemma NextRow(n: nat, w: nat, r: nat)
    requires 0 < r < n
    ensures n * w == w + (n - 1) * w && r * w == w + (r - 1) * w
  {
  }

  /** A view steps through the memory row by row. */
  lemma {:induction false} ViewFrom(mem: Vec, n: nat, w: nat, r: nat, at: nat)
    requires n * w <= |mem| && r < n && at == r * w
    ensures at + w <= |mem| && View(mem, n, w)[r] == mem[at..at + w]
  {
    RowInside(r, n, w);
    if r > 0 {
      NextRow(n, w, r);
      LaterRow(mem, n, w, r);
      hide View;
      ViewFrom(mem[w..], n - 1, w, r - 1, at - w);
      SliceOfRest(mem, w, at - w, at);
    }
  }

  lemma LaterRow(mem: Vec, n: nat, w: nat, r: nat)
    requires n * w <= |mem| && 0 < r < n && n * w == w + (n - 1) * w
    ensures w <= |mem| && (n - 1) * w <= |mem| - w && View(mem, n, w)[r] == View(mem[w..], n - 1, w)[r - 1]
  {
  }

  lemma SliceOfRest(v: Vec, k: nat, lo: nat, hi: nat)
    requires lo <= hi && k + hi <= |v|
    ensures v[k..][lo..hi] == v[k + lo..k + hi]
  {
  }

  lemma {:induction false} FlatAt(rows: Mat, w: nat, r: nat, j: nat)
    requires Shaped(rows, |rows|, w) && r < |rows| && j < w
    ensures r * w + j < |Flat(rows)| && Flat(rows)[r * w + j] == rows[r][j]
  {
    if r > 0 {
      FlatAt(rows[1..], w, r - 1, j);
      assert r * w == w + (r - 1) * w;
    }
  }

  /** A copy to the start of a memory: everything behind it keeps its old value. */
  function Overwrite(mem: Vec, data: Vec): (r: Vec)
    requires |data| <= |mem|
    ensures |r| == |mem| && r[..|data|] == data && r[|data|..] == mem[|data|..]
  {
    data + mem[|data|..]
  }

  lemma {:induction false} FlatLength(rows: Mat, w: nat)
    requires Shaped(rows, |rows|, w)
    ensures |Flat(rows)| == |rows| * w
  {
    if rows != [] {
      FlatLength(rows[1..], w);
      assert |rows| * w == w + (|rows| - 1) * w;
    }
  }

  /** A row layout written at the start of any memory is read back exactly, whatever lay there before. */
  lemma {:induction false} ViewOfOverwrite(mem: Vec, rows: Mat, w: nat)
    requires Shaped(rows, |rows|, w)
    requires |rows| * w <= |mem|
    ensures |Flat(rows)| == |rows| * w
    ensures View(Overwrite(mem, Flat(rows)), |rows|, w) == rows
  {
    FlatLength(rows, w);
    ViewOfPrefix(rows, mem[|rows| * w..], w);
  }

  lemma {:induction false} ViewOfPrefix(rows: Mat, rest: Vec, w: nat)
    requires Shaped(rows, |rows|, w)
    ensures |Flat(rows)| == |rows| * w
    ensures View(Flat(rows) + rest, |rows|, w) == rows
  {
    FlatLength(rows, w);
    if rows != [] {
      var mem := Flat(rows) + rest;
      assert |rows| * w == w + (|rows| - 1) * w;
      assert mem == rows[0] + (Flat(rows[1..]) + rest);
      assert mem[..w] == rows[0];
      assert mem[w..] == Flat(rows[1..]) + rest;
      ViewOfPrefix(rows[1..], rest, w);
    }
  }

  /** A memory that starts with a row layout is viewed as those rows. */
  lemma ViewOfHeld(mem: Vec, rows: Mat, w: nat)
    requires Shaped(rows, |rows|, w)
    requires |Flat(rows)| <= |mem| && mem[..|Flat(rows)|] == Flat(rows)
    ensures |rows| * w == |Flat(rows)| && View(mem, |rows|, w) == rows
  {
    var rest := mem[|Flat(rows)|..];
    ViewOfPrefix(rows, rest, w);
    assert mem == Flat(rows) + rest;
  }
}
