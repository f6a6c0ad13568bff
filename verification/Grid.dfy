/** Row-major flattening: what a broadcast followed by `flatten()` builds, and what two nested
    append loops build. Descriptor lists, descriptor ids and mapped block ids are all grids. */
module Grid {

  /** One row of a grid. */
  function Row<T>(cols: nat, r: nat, f: (nat, nat) --> T): (s: seq<T>)
    requires forall c: nat | c < cols :: f.requires(r, c)
    ensures |s| == cols && forall c | 0 <= c < cols :: s[c] == f(r, c)
  {
    seq(cols, c requires 0 <= c < cols => f(r, c))
  }

  /** The first `rows` rows, one after another. */
  function Flat<T>(rows: nat, cols: nat, f: (nat, nat) --> T): (s: seq<T>)
    requires forall r: nat, c: nat | r < rows && c < cols :: f.requires(r, c)
  {
    if rows == 0 then [] else Flat(rows - 1, cols, f) + Row(cols, rows - 1, f)
  }

  lemma {:induction false} FlatLength<T>(rows: nat, cols: nat, f: (nat, nat) --> T)
    requires forall r: nat, c: nat | r < rows && c < cols :: f.requires(r, c)
    ensures |Flat(rows, cols, f)| == rows * cols
  {
    if rows > 0 {
      FlatLength(rows - 1, cols, f);
      assert (rows - 1) * cols + cols == rows * cols;
    }
  }

  /** Row r, column c sits at r * cols + c, which is a position of the list. */
  lemma {:induction false} FlatAt<T>(rows: nat, cols: nat, f: (nat, nat) --> T, r: nat, c: nat)
    requires forall r: nat, c: nat | r < rows && c < cols :: f.requires(r, c)
    requires r < rows && c < cols
    ensures 0 <= r * cols + c < |Flat(rows, cols, f)| == rows * cols
    ensures Flat(rows, cols, f)[r * cols + c] == f(r, c)
  {
    FlatLength(rows, cols, f);
    FlatLength(rows - 1, cols, f);
    Below(r, c, rows, cols);
    if r < rows - 1 {
      FlatAt(rows - 1, cols, f, r, c);
    } else {
      assert r * cols + c - (rows - 1) * cols == c;
    }
  }

  /** Starting one row later means starting at least `cols` positions later. */
  lemma {:induction false} LaterRow(r: nat, r': nat, cols: nat)
    ensures r < r' ==> r * cols + cols <= r' * cols
    ensures r <= r' ==> r * cols <= r' * cols
    decreases r'
  {
    if r < r' {
      LaterRow(r, r' - 1, cols);
      assert r' * cols == (r' - 1) * cols + cols;
    }
  }

  lemma Below(r: nat, c: nat, rows: nat, cols: nat)
    requires r < rows && c < cols
    ensures 0 <= r * cols + c < rows * cols
  {
    LaterRow(r, rows, cols);
  }

  /** Position determines row and column. */
  lemma Unique(r: nat, c: nat, r': nat, c': nat, cols: nat)
    requires c < cols && c' < cols && r * cols + c == r' * cols + c'
    ensures r == r' && c == c'
  {
    LaterRow(r, r', cols);
    LaterRow(r', r, cols);
  }

  /** Every position is one row and one column. */
  lemma Split(k: nat, rows: nat, cols: nat) returns (r: nat, c: nat)
    requires k < rows * cols
    ensures r < rows && c < cols && k == r * cols + c
  {
    assert cols > 0;
    r, c := k / cols, k % cols;
    LaterRow(rows, r, cols);
  }

  /** The members of a grid are the values of its function. */
  lemma FlatHas<T>(rows: nat, cols: nat, f: (nat, nat) --> T, r: nat, c: nat)
    requires forall r: nat, c: nat | r < rows && c < cols :: f.requires(r, c)
    requires r < rows && c < cols
    ensures f(r, c) in Flat(rows, cols, f)
  {
    FlatAt(rows, cols, f, r, c);
  }

  lemma FlatFrom<T>(rows: nat, cols: nat, f: (nat, nat) --> T, x: T) returns (r: nat, c: nat)
    requires forall r: nat, c: nat | r < rows && c < cols :: f.requires(r, c)
    requires x in Flat(rows, cols, f)
    ensures r < rows && c < cols && f(r, c) == x
  {
    FlatLength(rows, cols, f);
    var k: nat :| k < |Flat(rows, cols, f)| && Flat(rows, cols, f)[k] == x;
    r, c := Split(k, rows, cols);
    FlatAt(rows, cols, f, r, c);
  }

  /** Grids of functions that agree are equal. */
  lemma {:induction false} FlatSame<T>(rows: nat, cols: nat, f: (nat, nat) --> T, g: (nat, nat) --> T)
    requires forall r: nat, c: nat | r < rows && c < cols :: f.requires(r, c) && g.requires(r, c) && f(r, c) == g(r, c)
    ensures Flat(rows, cols, f) == Flat(rows, cols, g)
  {
    if rows > 0 {
      FlatSame(rows - 1, cols, f, g);
      assert Row(cols, rows - 1, f) == Row(cols, rows - 1, g);
    }
  }
}
