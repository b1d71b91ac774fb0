/** Terminal cells and their wire form: four big-endian words, sixteen bytes, per cell. */
module Cells {
  import opened Bytes
  import opened Grids

  datatype Cell = Cell(rune: u32, attributes: u32, foreground: u32, background: u32)

  type Row = seq<Cell>

  const CELL_BYTES: nat := 16

  function EncodeCell(c: Cell): (b: seq<byte>)
    ensures |b| == CELL_BYTES
  {
    PutU32(c.rune) + PutU32(c.attributes) + PutU32(c.foreground) + PutU32(c.background)
  }

  function CellAt(b: seq<byte>, offset: nat): (c: Cell)
    requires offset + CELL_BYTES <= |b|
  {
    Cell(WordAt(b, offset), WordAt(b, offset + 4), WordAt(b, offset + 8), WordAt(b, offset + 12))
  }

  function EncodedCells(row: Row): (parts: seq<seq<byte>>)
    ensures |parts| == |row| && Uniform(parts, CELL_BYTES)
  {
    seq(|row|, i requires 0 <= i < |row| => EncodeCell(row[i]))
  }

  function EncodeRow(row: Row): (b: seq<byte>)
    ensures |b| == |row| * CELL_BYTES
  {
    FlatLength(EncodedCells(row), CELL_BYTES);
    Flat(EncodedCells(row))
  }

  /** The rows of a viewport as the daemon's baseline stores them. */
  function EncodedRows(rows: seq<Row>): (parts: seq<seq<byte>>)
    ensures |parts| == |rows|
  {
    seq(|rows|, r requires 0 <= r < |rows| => EncodeRow(rows[r]))
  }

  function DecodeCells(b: seq<byte>, count: nat): (row: Row)
    requires |b| == count * CELL_BYTES
    ensures |row| == count
  {
    seq(count, i requires 0 <= i < count => CellAt(b, i * CELL_BYTES))
  }

  lemma CellRoundTrip(c: Cell)
    ensures CellAt(EncodeCell(c), 0) == c
  {
    var b := EncodeCell(c);
    assert b[0..4] == PutU32(c.rune);
    assert b[4..8] == PutU32(c.attributes);
    assert b[8..12] == PutU32(c.foreground);
    assert b[12..16] == PutU32(c.background);
    GetPut(c.rune);
    GetPut(c.attributes);
    GetPut(c.foreground);
    GetPut(c.background);
  }

  lemma CellAtSlice(b: seq<byte>, offset: nat)
    requires offset + CELL_BYTES <= |b|
    ensures CellAt(b, offset) == CellAt(b[offset..offset + CELL_BYTES], 0)
  {
    var s := b[offset..offset + CELL_BYTES];
    assert s[0..4] == b[offset..offset + 4];
    assert s[4..8] == b[offset + 4..offset + 8];
    assert s[8..12] == b[offset + 8..offset + 12];
    assert s[12..16] == b[offset + 12..offset + 16];
  }

  lemma CellInRow(row: Row, i: nat)
    requires i < |row|
    ensures i * CELL_BYTES + CELL_BYTES <= |EncodeRow(row)|
    ensures CellAt(EncodeRow(row), i * CELL_BYTES) == row[i]
  {
    hide GetU32, PutU32, Flat, CellAt, EncodeCell;
    FlatRow(EncodedCells(row), CELL_BYTES, i);
    CellAtSlice(EncodeRow(row), i * CELL_BYTES);
    CellRoundTrip(row[i]);
  }

  /** Decoding the encoded cells of a row gives the row back. */
  lemma RowRoundTrip(row: Row)
    ensures DecodeCells(EncodeRow(row), |row|) == row
  {
    hide CellAt, EncodeRow;
    forall i | 0 <= i < |row|
      ensures CellAt(EncodeRow(row), i * CELL_BYTES) == row[i]
    {
      CellInRow(row, i);
    }
  }

  /** Rows agree exactly when their encodings do, so comparing bytes compares cells. */
  lemma SameRows(a: Row, b: Row)
    requires |a| == |b|
    ensures a == b <==> EncodeRow(a) == EncodeRow(b)
  {
    RowRoundTrip(a);
    RowRoundTrip(b);
  }

  lemma SameCells(a: Cell, b: Cell)
    ensures a == b <==> EncodeCell(a) == EncodeCell(b)
  {
    CellRoundTrip(a);
    CellRoundTrip(b);
  }

  /** A run of cells of a row is a run of bytes of its encoding. */
  lemma RowSlice(row: Row, first: nat, last: nat)
    requires first <= last <= |row|
    ensures EncodeRow(row[first..last]) == EncodeRow(row)[first * CELL_BYTES..last * CELL_BYTES]
  {
    FlatSlice(EncodedCells(row), CELL_BYTES, first, last);
    assert EncodedCells(row)[first..last] == EncodedCells(row[first..last]);
  }

  lemma EncodedRowsUniform(rows: seq<Row>, columns: nat)
    requires Uniform(rows, columns)
    ensures Uniform(EncodedRows(rows), columns * CELL_BYTES)
  {
  }
}
