/**
 Frame packets and the grid operations they stand for. The daemon emits them and the client stages
 them, so both sides are stated against this one vocabulary.
 */
module Deltas {
  import opened Bytes
  import opened Grids
  import opened Cells
  import opened Engines
  import opened Framing

  const WIRE_CATALOG: u32 := 7
  const WIRE_FRAME: u32 := 8
  const WIRE_ROW: u32 := 9
  const WIRE_FRAME_FINISH: u32 := 10
  const WIRE_RELEASE: u32 := 15
  const WIRE_COPY_ROWS: u32 := 29
  const WIRE_ROW_SPAN: u32 := 32

  /** The packet kinds a client's viewport reacts to. */
  predicate FrameKind(kind: u32) {
    kind == WIRE_FRAME || kind == WIRE_ROW || kind == WIRE_FRAME_FINISH ||
    kind == WIRE_COPY_ROWS || kind == WIRE_ROW_SPAN
  }

  datatype Operation =
    | Span(row: nat, column: nat, cells: Row)
    | Copy(source: nat, destination: nat, count: nat)

  predicate Fits(op: Operation, columns: nat, rows: nat) {
    match op
    case Span(row, column, cells) => row < rows && cells != [] && column + |cells| <= columns
    case Copy(source, destination, count) => count > 0 && source + count <= rows && destination + count <= rows
  }

  predicate AllFit(ops: seq<Operation>, columns: nat, rows: nat) {
    forall op | op in ops :: Fits(op, columns, rows)
  }

  function SpliceRow(row: Row, column: nat, cells: Row): (r: Row)
    requires column + |cells| <= |row|
    ensures |r| == |row|
  {
    row[..column] + cells + row[column + |cells|..]
  }

  function ApplyOperation(rows: seq<Row>, columns: nat, op: Operation): (r: seq<Row>)
    requires Uniform(rows, columns) && Fits(op, columns, |rows|)
    ensures |r| == |rows| && Uniform(r, columns)
  {
    match op
    case Span(row, column, cells) => rows[row := SpliceRow(rows[row], column, cells)]
    case Copy(source, destination, count) => CopyWithin(rows, source, source + count, destination)
  }

  function ApplyAll(rows: seq<Row>, columns: nat, ops: seq<Operation>): (r: seq<Row>)
    requires Uniform(rows, columns) && AllFit(ops, columns, |rows|)
    ensures |r| == |rows| && Uniform(r, columns)
  {
    if ops == [] then rows
    else
      var last := |ops| - 1;
      assert ops[last] in ops;
      ApplyOperation(ApplyAll(rows, columns, ops[..last]), columns, ops[last])
  }

  lemma {:induction false} ApplyAllConcat(rows: seq<Row>, columns: nat, a: seq<Operation>, b: seq<Operation>)
    requires Uniform(rows, columns) && AllFit(a, columns, |rows|) && AllFit(b, columns, |rows|)
    ensures AllFit(a + b, columns, |rows|)
    ensures ApplyAll(rows, columns, a + b) == ApplyAll(ApplyAll(rows, columns, a), columns, b)
    decreases |b|
  {
    if b == [] {
      assert a + b == a;
    } else {
      var last := |b| - 1;
      ApplyAllConcat(rows, columns, a, b[..last]);
      assert (a + b)[..|a + b| - 1] == a + b[..last];
    }
  }

  // ---- Packet bodies ----

  function FrameBody(f: Frame): (b: seq<byte>)
    requires WireFrame(f)
    ensures |b| == 24
  {
    PutWords([f.columns, f.rows, f.cursorX, f.cursorY, f.scroll, f.alternate])
  }

  predicate WireFrame(f: Frame) {
    && 1 <= f.columns <= MAX_COLUMNS && 1 <= f.rows <= MAX_ROWS
    && 0 <= f.cursorX < f.columns && 0 <= f.cursorY < f.rows
    && 0 <= f.scroll <= INT32_MAX && 0 <= f.alternate <= 1
    && f.redrawDeadline == 0
  }

  /** How an operation travels: a whole row without its column, a part of one with it, or a row move. */
  function OperationPacket(op: Operation, columns: nat, tab: u32): (p: Packet)
    requires columns <= MAX_COLUMNS && Fits(op, columns, MAX_ROWS)
    ensures Sendable(p) && p.tab == tab && FrameKind(p.kind)
  {
    match op
    case Span(row, column, cells) =>
      if |cells| == columns then Packet(WIRE_ROW, tab, PutU32(row) + EncodeRow(cells))
      else Packet(WIRE_ROW_SPAN, tab, PutU32(row) + PutU32(column) + EncodeRow(cells))
    case Copy(source, destination, count) =>
      Packet(WIRE_COPY_ROWS, tab, PutWords([source, destination, count]))
  }

  function OperationPackets(ops: seq<Operation>, columns: nat, tab: u32): (ps: seq<Packet>)
    requires columns <= MAX_COLUMNS && AllFit(ops, columns, MAX_ROWS)
    ensures |ps| == |ops| && AllSendable(ps)
  {
    seq(|ops|, i requires 0 <= i < |ops| => assert ops[i] in ops; OperationPacket(ops[i], columns, tab))
  }

  lemma FrameBodyWords(f: Frame)
    requires WireFrame(f)
    ensures var b := FrameBody(f);
            WordAt(b, 0) == f.columns && WordAt(b, 4) == f.rows && WordAt(b, 8) == f.cursorX &&
            WordAt(b, 12) == f.cursorY && WordAt(b, 16) == f.scroll && WordAt(b, 20) == f.alternate
  {
    hide GetU32, PutU32, PutWords, WordAt;
    var words: seq<u32> := [f.columns, f.rows, f.cursorX, f.cursorY, f.scroll, f.alternate];
    assert PutWords(words) + [] == PutWords(words);
    WordAtPutWords(words, 0, []);
    WordAtPutWords(words, 1, []);
    WordAtPutWords(words, 2, []);
    WordAtPutWords(words, 3, []);
    WordAtPutWords(words, 4, []);
    WordAtPutWords(words, 5, []);
  }

  lemma CopyBodyWords(source: u32, destination: u32, count: u32)
    ensures var b := PutWords([source, destination, count]);
            |b| == 12 && WordAt(b, 0) == source && WordAt(b, 4) == destination && WordAt(b, 8) == count
  {
    hide GetU32, PutU32, PutWords, WordAt;
    var words: seq<u32> := [source, destination, count];
    assert PutWords(words) + [] == PutWords(words);
    WordAtPutWords(words, 0, []);
    WordAtPutWords(words, 1, []);
    WordAtPutWords(words, 2, []);
  }

  lemma RowBodyParts(row: u32, cells: seq<byte>)
    ensures var b := PutU32(row) + cells; WordAt(b, 0) == row && b[4..] == cells
  {
    hide GetU32, PutU32;
    var b := PutU32(row) + cells;
    assert b[0..4] == PutU32(row);
    GetPut(row);
  }

  lemma SpanBodyParts(row: u32, column: u32, cells: seq<byte>)
    ensures var b := PutU32(row) + PutU32(column) + cells;
            WordAt(b, 0) == row && WordAt(b, 4) == column && b[8..] == cells
  {
    hide GetU32, PutU32;
    var b := PutU32(row) + PutU32(column) + cells;
    assert b[0..4] == PutU32(row);
    assert b[4..8] == PutU32(column);
    GetPut(row);
    GetPut(column);
  }
}
