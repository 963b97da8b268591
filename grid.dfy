/** Row-major enumeration of a grid of cells `(column, row)`: every column of
    row 0, then every column of row 1, and so on. This is the order of the
    nested `for iy ...: for ix ...` loops of the acquisition and planning code. */
module Grid {

  type Cell = (nat, nat)

  function Row(nx: nat, iy: nat): (r: seq<Cell>)
    ensures |r| == nx
    ensures forall ix :: 0 <= ix < nx ==> r[ix] == (ix, iy)
  {
    seq(nx, ix requires 0 <= ix < nx => (ix as nat, iy))
  }

  function RowMajor(nx: nat, ny: nat): seq<Cell>
  {
    if ny == 0 then [] else RowMajor(nx, ny - 1) + Row(nx, ny - 1)
  }

  lemma {:induction false} RowMajorLength(nx: nat, ny: nat)
    ensures |RowMajor(nx, ny)| == nx * ny
  {
    if ny > 0 {
      RowMajorLength(nx, ny - 1);
      assert nx * (ny - 1) + nx == nx * ny;
    }
  }

  /** Cell `(ix, iy)` is visited at position `iy * nx + ix`. */
  lemma {:induction false} RowMajorAt(nx: nat, ny: nat, ix: nat, iy: nat)
    requires ix < nx && iy < ny
    ensures |RowMajor(nx, ny)| == nx * ny
    ensures iy * nx + ix < nx * ny
    ensures RowMajor(nx, ny)[iy * nx + ix] == (ix, iy)
  {
    RowMajorLength(nx, ny);
    RowMajorLength(nx, ny - 1);
    assert (ny - 1) * nx == nx * (ny - 1);
    if iy < ny - 1 {
      RowMajorAt(nx, ny - 1, ix, iy);
      assert iy * nx + ix < (ny - 1) * nx;
    } else {
      assert iy * nx + ix == (ny - 1) * nx + ix;
    }
    assert iy * nx + ix < nx * ny by {
      assert iy * nx + ix < iy * nx + nx;
      assert iy * nx + nx == (iy + 1) * nx;
      assert (iy + 1) * nx <= ny * nx;
    }
  }

  /** Every visited cell lies in the grid. */
  lemma {:induction false} RowMajorInRange(nx: nat, ny: nat, k: nat)
    requires k < |RowMajor(nx, ny)|
    ensures RowMajor(nx, ny)[k].0 < nx && RowMajor(nx, ny)[k].1 < ny
  {
    var prefix := RowMajor(nx, ny - 1);
    if k < |prefix| {
      RowMajorInRange(nx, ny - 1, k);
    }
  }

  /** The cell at position `k` is `(k % nx, k / nx)`, stated without division:
      position `k` holds cell `(ix, iy)` with `k == iy * nx + ix`. */
  lemma {:induction false} RowMajorIndex(nx: nat, ny: nat, k: nat)
    requires k < |RowMajor(nx, ny)|
    ensures k == RowMajor(nx, ny)[k].1 * nx + RowMajor(nx, ny)[k].0
  {
    var prefix := RowMajor(nx, ny - 1);
    if k < |prefix| {
      RowMajorIndex(nx, ny - 1, k);
    } else {
      RowMajorLength(nx, ny - 1);
      assert RowMajor(nx, ny)[k] == Row(nx, ny - 1)[k - |prefix|];
      assert (ny - 1) * nx == nx * (ny - 1);
    }
  }

  /** The order is strictly lexicographic in (row, column): earlier rows first,
      and within a row, increasing columns. */
  lemma {:induction false} RowMajorOrdered(nx: nat, ny: nat, a: nat, b: nat)
    requires a < b < |RowMajor(nx, ny)|
    ensures var p, q := RowMajor(nx, ny)[a], RowMajor(nx, ny)[b];
            p.1 < q.1 || (p.1 == q.1 && p.0 < q.0)
  {
    var prefix := RowMajor(nx, ny - 1);
    if b < |prefix| {
      RowMajorOrdered(nx, ny - 1, a, b);
    } else if a < |prefix| {
      RowMajorInRange(nx, ny - 1, a);
    }
  }

  /** The enumeration visits exactly the cells of the grid. */
  lemma RowMajorCovers(nx: nat, ny: nat, c: Cell)
    ensures c in RowMajor(nx, ny) <==> c.0 < nx && c.1 < ny
  {
    if c in RowMajor(nx, ny) {
      var k :| 0 <= k < |RowMajor(nx, ny)| && RowMajor(nx, ny)[k] == c;
      RowMajorInRange(nx, ny, k);
    }
    if c.0 < nx && c.1 < ny {
      RowMajorAt(nx, ny, c.0, c.1);
    }
  }
}
