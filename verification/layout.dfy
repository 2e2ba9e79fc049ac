/** Row-major flat indexing, `row*width + column`, used by every buffer of the source.

    The offset of a row is counted one row at a time (`Rows`) rather than written as a
    product, so that the verifier reasons about index arithmetic by unfolding a row instead
    of by nonlinear multiplication; `RowsIsProduct` and `FlatIsProduct` connect the two. */
module Layout {

  /** `count` rows of `width` entries. */
  function Rows(width: nat, count: nat): nat {
    if count == 0 then 0 else Rows(width, count - 1) + width
  }

  /** The index of (row, column) in a row-major buffer of the given width. */
  function Flat(row: nat, column: nat, width: nat): nat {
    Rows(width, row) + column
  }

  lemma {:induction false} RowsIsProduct(width: nat, count: nat)
    ensures Rows(width, count) == count * width
  {
    if count > 0 {
      RowsIsProduct(width, count - 1);
      assert count * width == (count - 1) * width + width;
    }
  }

  lemma FlatIsProduct(row: nat, column: nat, width: nat)
    ensures Flat(row, column, width) == row * width + column
  {
    RowsIsProduct(width, row);
  }

  lemma {:induction false} RowsMonotone(width: nat, a: nat, b: nat)
    requires a <= b
    ensures Rows(width, a) <= Rows(width, b)
    decreases b
  {
    if a < b {
      RowsMonotone(width, a, b - 1);
    }
  }

  /** An entry of one of the first `rows` rows lies inside them, and so does the rest of
      its row. */
  lemma FlatBounds(row: nat, column: nat, width: nat, rows: nat)
    requires row < rows && column < width
    ensures Flat(row, column, width) < Rows(width, rows)
    ensures Flat(row, column, width) + (width - column) <= Rows(width, rows)
  {
    RowsMonotone(width, row + 1, rows);
  }

  /** Distinct (row, column) pairs of a given width have distinct indices. */
  lemma FlatInjective(r1: nat, c1: nat, r2: nat, c2: nat, width: nat)
    requires c1 < width && c2 < width
    ensures Flat(r1, c1, width) == Flat(r2, c2, width) ==> r1 == r2 && c1 == c2
  {
    if r1 < r2 {
      RowsMonotone(width, r1 + 1, r2);
    } else if r2 < r1 {
      RowsMonotone(width, r2 + 1, r1);
    }
  }

  /** Every index inside the first `rows` rows is the index of some (row, column). */
  lemma {:induction false} Unflatten(k: nat, width: nat, rows: nat) returns (row: nat, column: nat)
    requires k < Rows(width, rows)
    ensures row < rows && column < width && Flat(row, column, width) == k
  {
    if k < Rows(width, rows - 1) {
      row, column := Unflatten(k, width, rows - 1);
    } else {
      row, column := rows - 1, k - Rows(width, rows - 1);
    }
  }

  lemma FlatDivMod(row: nat, column: nat, width: nat)
    requires column < width
    ensures Flat(row, column, width) / width == row
    ensures Flat(row, column, width) % width == column
  {
    FlatIsProduct(row, column, width);
    var p := row * width + column;
    var q, r := p / width, p % width;
    assert p == q * width + r;
    RowsIsProduct(width, q);
    FlatInjective(q, r, row, column, width);
  }

  lemma FlatNext(row: nat, width: nat)
    ensures Flat(row + 1, 0, width) == Flat(row, 0, width) + width
  {
  }
}
