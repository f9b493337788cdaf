/**
  The few dense-matrix operations the regression's fitting step uses to build
  its design matrix: building from column or row arrays, and inserting a
  column or row at index 0.  A matrix is stored row by row.
 */
module Matrices {

  datatype Matrix = Matrix(rowCount: nat, columnCount: nat, rows: seq<seq<real>>)
  {
    /** The stored rows agree with the declared dimensions. */
    predicate Valid() {
      |rows| == rowCount && forall r :: 0 <= r < |rows| ==> |rows[r]| == columnCount
    }
  }

  /** A non-empty set of arrays that all have the same length, as the matrix builders need. */
  predicate Rectangular(arrays: seq<seq<real>>) {
    |arrays| > 0 && forall k :: 0 <= k < |arrays| ==> |arrays[k]| == |arrays[0]|
  }

  /** A vector of `n` ones. */
  function Ones(n: nat): seq<real> {
    seq(n, _ => 1.0)
  }

  /** Each array becomes one row. */
  function DenseOfRowArrays(arrays: seq<seq<real>>): (m: Matrix)
    requires Rectangular(arrays)
    ensures m.Valid() && m.rowCount == |arrays| && m.columnCount == |arrays[0]|
    ensures forall r, c :: 0 <= r < m.rowCount && 0 <= c < m.columnCount ==> m.rows[r][c] == arrays[r][c]
  {
    Matrix(|arrays|, |arrays[0]|, arrays)
  }

  /** Each array becomes one column. */
  function DenseOfColumnArrays(arrays: seq<seq<real>>): (m: Matrix)
    requires Rectangular(arrays)
    ensures m.Valid() && m.rowCount == |arrays[0]| && m.columnCount == |arrays|
    ensures forall r, c :: 0 <= r < m.rowCount && 0 <= c < m.columnCount ==> m.rows[r][c] == arrays[c][r]
  {
    var height := |arrays[0]|;
    Matrix(height, |arrays|,
      seq(height, r requires 0 <= r < height =>
        seq(|arrays|, c requires 0 <= c < |arrays| => arrays[c][r])))
  }

  /** `InsertColumn(0, column)`: the column goes first and every other column moves one place right. */
  function InsertFirstColumn(m: Matrix, column: seq<real>): (r: Matrix)
    requires m.Valid() && |column| == m.rowCount
    ensures r.Valid() && r.rowCount == m.rowCount && r.columnCount == m.columnCount + 1
    ensures forall i :: 0 <= i < r.rowCount ==> r.rows[i][0] == column[i]
    ensures forall i, j :: 0 <= i < m.rowCount && 0 <= j < m.columnCount ==> r.rows[i][j + 1] == m.rows[i][j]
  {
    Matrix(m.rowCount, m.columnCount + 1,
      seq(m.rowCount, i requires 0 <= i < m.rowCount => [column[i]] + m.rows[i]))
  }

  /** `InsertRow(0, row)`: the row goes first and every other row moves one place down. */
  function InsertFirstRow(m: Matrix, row: seq<real>): (r: Matrix)
    requires m.Valid() && |row| == m.columnCount
    ensures r.Valid() && r.rowCount == m.rowCount + 1 && r.columnCount == m.columnCount
    ensures forall j :: 0 <= j < r.columnCount ==> r.rows[0][j] == row[j]
    ensures forall i, j :: 0 <= i < m.rowCount && 0 <= j < m.columnCount ==> r.rows[i + 1][j] == m.rows[i][j]
  {
    Matrix(m.rowCount + 1, m.columnCount, [row] + m.rows)
  }
}
