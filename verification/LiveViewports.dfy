/**
 The client's viewport as it is stored: one flat vector of cells updated in place. Its methods compute
 what `Viewports` specifies on rows.
 */
module LiveViewports {
  import opened Bytes
  import opened Grids
  import opened Cells
  import opened Engines
  import opened Framing
  import opened Deltas
  import opened Viewports

  // ---- Reading bodies ----

  /** The six words of a frame header, checked as they are read. */
  method ReadFrame(bytes: seq<byte>) returns (f: Option<Frame>)
    ensures f == ParseFrame(bytes)
  {
    hide WordAt;
    var body := new Payload(bytes);
    var columns := body.Word();
    var rows := body.Word();
    if columns.None? || rows.None? || columns.value == 0 || columns.value > MAX_COLUMNS || rows.value == 0 || rows.value > MAX_ROWS {
      SkipWords(bytes);
      return None;
    }
    var x := body.Word();
    var y := body.Word();
    var scroll := body.Word();
    var alternate := body.Word();
    SkipWords(bytes);
    if alternate.None? || body.bytes != [] {
      return None;
    }
    if x.value >= columns.value || y.value >= rows.value || scroll.value > INT32_MAX || alternate.value > 1 {
      return None;
    }
    f := Some(Frame(columns.value, rows.value, x.value, y.value, scroll.value, alternate.value, 0));
  }

  method ReadCell(body: Payload) returns (cell: Cell)
    requires |body.bytes| >= CELL_BYTES
    modifies body
    ensures var c := CellAt(old(body.bytes), 0); cell == c.(attributes := c.attributes % 0x1_0000)
    ensures body.bytes == old(body.bytes)[CELL_BYTES..]
  {
    hide WordAt;
    ghost var b := body.bytes;
    SkipWords(b);
    var rune := body.Word();
    var attributes := body.Word();
    var foreground := body.Word();
    var background := body.Word();
    assert b[4..][4..][4..][4..] == b[16..];
    cell := Cell(rune.value, attributes.value % 0x1_0000, foreground.value, background.value);
  }

  method ReadCells(body: Payload, count: nat) returns (cells: Row)
    requires |body.bytes| == count * CELL_BYTES
    modifies body
    ensures cells == Masked(DecodeCells(old(body.bytes), count)) && body.bytes == []
  {
    hide CellAt;
    ghost var b := body.bytes;
    cells := [];
    assert b[0..] == b;
    for i := 0 to count
      invariant |cells| == i && body.bytes == b[i * CELL_BYTES..]
      invariant forall k | 0 <= k < i :: cells[k] == Masked(DecodeCells(b, count))[k]
    {
      CellAtSlice(b, i * CELL_BYTES);
      CellAtSlice(b[i * CELL_BYTES..], 0);
      assert b[i * CELL_BYTES..][0..CELL_BYTES] == b[i * CELL_BYTES..i * CELL_BYTES + CELL_BYTES];
      var cell := ReadCell(body);
      cells := cells + [cell];
      assert b[i * CELL_BYTES..][CELL_BYTES..] == b[(i + 1) * CELL_BYTES..];
    }
  }

  method ReadSpan(p: Packet, f: Frame) returns (op: Option<Operation>)
    requires WireFrame(f) && (p.kind == WIRE_ROW || p.kind == WIRE_ROW_SPAN)
    ensures op == ParseOperation(p, f)
  {
    hide WordAt, DecodeCells, Masked;
    var body := new Payload(p.body);
    SkipWords(p.body);
    var row := body.Word();
    if row.None? || row.value >= f.rows {
      return None;
    }
    var span := p.kind == WIRE_ROW_SPAN;
    var column: nat := 0;
    if span {
      var word := body.Word();
      if word.None? {
        return None;
      }
      column := word.value;
      assert p.body[4..][4..] == p.body[8..];
    }
    var length := |p.body| - if span then 8 else 4;
    var count := length / CELL_BYTES;
    if count == 0 || count > f.columns || column > f.columns - count || length % CELL_BYTES != 0 || (!span && count != f.columns) {
      return None;
    }
    var cells := ReadCells(body, count);
    op := Some(Span(row.value, column, cells));
  }

  method ReadCopy(p: Packet, f: Frame) returns (op: Option<Operation>)
    requires WireFrame(f) && p.kind == WIRE_COPY_ROWS
    ensures op == ParseOperation(p, f)
  {
    hide WordAt;
    var body := new Payload(p.body);
    SkipWords(p.body);
    var source := body.Word();
    var destination := body.Word();
    var count := body.Word();
    if count.None? || body.bytes != [] {
      return None;
    }
    var n := count.value;
    if n == 0 || n > f.rows || source.value > f.rows - n || destination.value > f.rows - n {
      return None;
    }
    op := Some(Copy(source.value, destination.value, n));
  }

  // ---- Operations on the flat vector ----

  lemma FlatPart<T>(rows: seq<seq<T>>, width: nat, r: nat, column: nat, count: nat)
    requires Uniform(rows, width) && r < |rows| && column + count <= width
    ensures r * width + column + count <= |Flat(rows)|
    ensures Flat(rows)[r * width + column..r * width + column + count] == rows[r][column..column + count]
  {
    hide Flat;
    FlatRow(rows, width, r);
    Distribute(r, 1, width);
    SliceSlice(Flat(rows), r * width, (r + 1) * width, column, column + count);
  }

  lemma SliceSlice<T>(s: seq<T>, a: nat, b: nat, c: nat, d: nat)
    requires a <= b <= |s| && c <= d <= b - a
    ensures s[a..b][c..d] == s[a + c..a + d]
  {
    forall i | 0 <= i < d - c
      ensures s[a..b][c..d][i] == s[a + c..a + d][i]
    {
    }
  }

  /** Write a run of cells unless it is already there. */
  method PutSpan(flat: seq<Cell>, ghost rows: seq<Row>, columns: nat, row: nat, column: nat, cells: Row)
    returns (after: seq<Cell>, changed: bool)
    requires Uniform(rows, columns) && flat == Flat(rows) && Fits(Span(row, column, cells), columns, |rows|)
    ensures after == Flat(ApplyOperation(rows, columns, Span(row, column, cells)))
    ensures changed <==> rows[row][column..column + |cells|] != cells
  {
    hide Flat;
    FlatPart(rows, columns, row, column, |cells|);
    FlatSplice(rows, columns, row, column, cells);
    var first := row * columns + column;
    changed := flat[first..first + |cells|] != cells;
    if changed {
      after := flat[..first] + cells + flat[first + |cells|..];
    } else {
      after := flat;
      SameSplice(rows[row], column, cells);
      assert rows[row := rows[row]] == rows;
    }
  }

  lemma SameSplice(row: Row, column: nat, cells: Row)
    requires column + |cells| <= |row| && row[column..column + |cells|] == cells
    ensures SpliceRow(row, column, cells) == row
  {
  }

  method PutCopy(flat: seq<Cell>, ghost rows: seq<Row>, columns: nat, source: nat, destination: nat, count: nat)
    returns (after: seq<Cell>)
    requires Uniform(rows, columns) && flat == Flat(rows) && Fits(Copy(source, destination, count), columns, |rows|)
    ensures after == Flat(ApplyOperation(rows, columns, Copy(source, destination, count)))
  {
    hide Flat, CopyWithin;
    FlatCopy(rows, columns, source, source + count, destination);
    var from, end, first := source * columns, (source + count) * columns, destination * columns;
    after := CopyWithin(flat, from, end, first);
  }

  /** Fill a run of flags. */
  method Fill(flags: seq<bool>, destination: nat, count: nat) returns (after: seq<bool>)
    requires destination + count <= |flags|
    ensures after == seq(|flags|, r requires 0 <= r < |flags| => flags[r] || destination <= r < destination + count)
  {
    after := flags;
    for i := 0 to count
      invariant |after| == |flags|
      invariant forall r | 0 <= r < |flags| :: after[r] == (flags[r] || destination <= r < destination + i)
    {
      after := after[destination + i := true];
    }
  }

  /** Replay staged operations over the flat vector, flagging what they change. */
  method ReplayOperations(flat: seq<Cell>, flags: seq<bool>, ops: seq<Operation>, columns: nat, ghost rows: seq<Row>)
    returns (after: seq<Cell>, damage: seq<bool>)
    requires Uniform(rows, columns) && flat == Flat(rows) && |flags| == |rows| && AllFit(ops, columns, |rows|)
    ensures after == Flat(ApplyAll(rows, columns, ops)) && damage == FlagsAll(rows, columns, flags, ops)
  {
    hide Flat, ApplyAll, FlagsAll, ApplyOperation;
    after, damage := flat, flags;
    ReplayNone(rows, columns, flags);
    assert ops[..0] == [];
    for i := 0 to |ops|
      invariant AllFit(ops[..i], columns, |rows|)
      invariant after == Flat(ApplyAll(rows, columns, ops[..i])) && damage == FlagsAll(rows, columns, flags, ops[..i])
    {
      ghost var now := ApplyAll(rows, columns, ops[..i]);
      ReplayNext(rows, columns, flags, ops, i);
      match ops[i]
      case Span(row, column, cells) =>
        var changed;
        after, changed := PutSpan(after, now, columns, row, column, cells);
        if changed {
          damage := damage[row := true];
        }
      case Copy(source, destination, count) =>
        after := PutCopy(after, now, columns, source, destination, count);
        damage := Fill(damage, destination, count);
    }
    assert ops[..|ops|] == ops;
  }

  lemma ReplayNone(rows: seq<Row>, columns: nat, flags: seq<bool>)
    requires Uniform(rows, columns) && |flags| == |rows|
    ensures ApplyAll(rows, columns, []) == rows && FlagsAll(rows, columns, flags, []) == flags
  {
  }

  lemma ReplayNext(rows: seq<Row>, columns: nat, flags: seq<bool>, ops: seq<Operation>, i: nat)
    requires Uniform(rows, columns) && |flags| == |rows| && AllFit(ops, columns, |rows|) && i < |ops|
    ensures AllFit(ops[..i], columns, |rows|) && AllFit(ops[..i + 1], columns, |rows|) && Fits(ops[i], columns, |rows|)
    ensures ApplyAll(rows, columns, ops[..i + 1]) == ApplyOperation(ApplyAll(rows, columns, ops[..i]), columns, ops[i])
    ensures FlagsAll(rows, columns, flags, ops[..i + 1])
         == FlagsAfter(ApplyAll(rows, columns, ops[..i]), columns, FlagsAll(rows, columns, flags, ops[..i]), ops[i])
  {
    hide ApplyOperation, FlagsAfter, Fits;
    assert ops[i] in ops && ops[..i + 1][..i] == ops[..i];
  }

  // ---- Carrying rows into a new geometry ----

  /** Row by row over a blank vector, each row clipped or padded in place. */
  method ResizeCells(flat: seq<Cell>, oldColumns: nat, oldRows: nat, columns: nat, rows: nat, ghost grid: seq<Row>)
    returns (resized: seq<Cell>)
    requires columns > 0 && oldColumns > 0 && Uniform(grid, oldColumns) && flat == Flat(grid)
    requires grid != [] ==> |grid| == oldRows
    ensures resized == Flat(Resized(grid, columns, rows))
  {
    hide Flat, ResizedRow;
    resized := seq(columns * rows, _ => BLANK);
    ghost var after: seq<Row> := seq(rows, _ => seq(columns, _ => BLANK));
    BlankFlat(columns, rows);
    FlatLength(grid, oldColumns);
    SameCount(|grid|, 0, oldColumns);
    for row := 0 to Min(rows, oldRows)
      invariant |after| == rows && Uniform(after, columns) && resized == Flat(after)
      invariant forall k | 0 <= k < rows ::
        after[k] == if k < row && k < |grid| then ResizedRow(grid[k], columns) else seq(columns, _ => BLANK)
    {
      if flat != [] {
        FlatRow(grid, oldColumns, row);
        Distribute(row, 1, oldColumns);
        Distribute(row, 1, columns);
        var line := ResizeRow(flat[row * oldColumns..(row + 1) * oldColumns], columns);
        FlatSplice(after, columns, row, 0, line);
        assert after[row][..0] + line + after[row][0 + |line|..] == line;
        resized := resized[..row * columns] + line + resized[(row + 1) * columns..];
        after := after[row := line];
      }
    }
    assert after == Resized(grid, columns, rows);
  }

  method ResizeRow(source: Row, columns: nat) returns (line: Row)
    requires columns > 0 && source != []
    ensures line == ResizedRow(source, columns)
  {
    var count := Min(columns, |source|);
    line := source[..count] + seq(columns - count, _ => BLANK);
    if |source| != columns {
      line := line[count - 1 := Unwrapped(line[count - 1])];
    }
    if Wide(line[columns - 1]) {
      line := line[columns - 1 := BLANK];
    }
  }

  lemma {:induction false} BlankFlat(columns: nat, rows: nat)
    ensures Flat(seq(rows, _ => seq(columns, _ => BLANK))) == seq(columns * rows, _ => BLANK)
  {
    if rows > 0 {
      BlankFlat(columns, rows - 1);
      var grid := seq(rows, _ => seq(columns, _ => BLANK));
      assert grid[1..] == seq(rows - 1, _ => seq(columns, _ => BLANK));
      Distribute(1, rows - 1, columns);
    }
  }

  // ---- The viewport object ----

  class Viewport {
    var frame: Frame
    var cells: seq<Cell>
    var pending: Option<Pending>
    var live: bool

    /** The rows the cells are. */
    ghost var rows: seq<Row>

    ghost function Value(): View
      reads this
    {
      View(frame, rows, pending, live)
    }

    ghost predicate Valid()
      reads this
    {
      ValidView(Value()) && cells == Flat(rows) && (cells == [] <==> rows == [])
    }

    constructor (columns: nat, rows: nat)
      requires 1 <= columns <= MAX_COLUMNS && 1 <= rows <= MAX_ROWS
      ensures Valid() && Value() == View(Frame(columns, rows, 0, 0, 0, 0, 0), [], None, false)
    {
      frame := Frame(columns, rows, 0, 0, 0, 0, 0);
      cells, pending, live := [], None, false;
      this.rows := [];
    }

    method Release()
      requires Valid()
      modifies this
      ensures Valid() && Value() == old(Value()).(live := false, pending := None)
    {
      live := false;
      pending := None;
    }

    /** Stage one operation within the budget. */
    method Push(op: Operation) returns (ok: bool)
      requires Valid() && pending.Some? && Fits(op, pending.value.frame.columns, pending.value.frame.rows)
      modifies this`pending
      ensures var p := old(pending.value); var bytes := p.bytes + Cost(op, p.frame.columns);
        && ok == (bytes <= MAX_PAYLOAD)
        && pending == Some(if ok then Pending(p.frame, p.operations + [op], bytes) else p)
    {
      var p := pending.value;
      var bytes := p.bytes + Cost(op, p.frame.columns);
      ok := bytes <= MAX_PAYLOAD;
      if ok {
        pending := Some(p.(operations := p.operations + [op], bytes := bytes));
      }
    }

    /** Publish a staged frame: carry the cells over, replay, and report what to repaint. */
    method Finish() returns (damage: Damage)
      requires Valid() && pending.Some?
      modifies this
      ensures Valid()
      ensures Viewports.Finish(old(Value())) == Accepted(Value(), Some(damage))
    {
      hide Flat, ApplyAll, FlagsAll, Resized, AllFit, CursorFlags;
      var p := pending.value;
      pending := None;
      var was, f := frame, p.frame;
      var geometry := was.columns != f.columns || was.rows != f.rows;
      var full := cells == [] || geometry || was.scroll != f.scroll || was.alternate != f.alternate || !live;
      ghost var start := StartRows(old(Value()), f);
      if cells == [] || geometry {
        cells := ResizeCells(cells, was.columns, was.rows, f.columns, f.rows, rows);
      }
      var flags := Cursor(was, f);
      cells, flags := ReplayOperations(cells, flags, p.operations, f.columns, start);
      rows := ApplyAll(start, f.columns, p.operations);
      frame, live := f, true;
      PublishedValid(rows, f);
      damage := Damage(full, flags);
    }

    method Cursor(was: Frame, f: Frame) returns (flags: seq<bool>)
      requires WireFrame(f)
      ensures flags == CursorFlags(was, f)
    {
      flags := seq(f.rows, _ => false);
      if was.cursorX != f.cursorX || was.cursorY != f.cursorY {
        if 0 <= was.cursorY < f.rows {
          flags := flags[was.cursorY := true];
        }
        flags := flags[f.cursorY := true];
      }
    }

    method Apply(p: Packet) returns (ok: bool, damage: Option<Damage>)
      requires Valid()
      modifies this
      ensures Valid() || !ok
      ensures ok ==> Viewports.Apply(old(Value()), p) == Accepted(Value(), damage)
      ensures !ok ==> Viewports.Apply(old(Value()), p).Rejected? && damage == None
      ensures !ok ==> frame == old(frame) && cells == old(cells) && live == old(live) && rows == old(rows)
    {
      hide Flat, ParseFrame, ParseOperation, Viewports.Finish, Cost, AllFit;
      damage := None;
      if p.kind == WIRE_FRAME {
        if pending.Some? {
          return false, None;
        }
        var f := ReadFrame(p.body);
        if f.None? {
          return false, None;
        }
        pending := Some(Pending(f.value, [], 0));
        assert AllFit([], f.value.columns, f.value.rows) by { NoneFit(f.value); }
        ok := true;
      } else if p.kind == WIRE_ROW || p.kind == WIRE_ROW_SPAN || p.kind == WIRE_COPY_ROWS {
        if pending.None? {
          return false, None;
        }
        var op;
        if p.kind == WIRE_COPY_ROWS {
          op := ReadCopy(p, pending.value.frame);
        } else {
          op := ReadSpan(p, pending.value.frame);
        }
        if op.None? {
          return false, None;
        }
        OneMoreFits(pending.value.operations, op.value, pending.value.frame);
        ok := Push(op.value);
      } else if p.kind == WIRE_FRAME_FINISH {
        if p.body != [] || pending.None? {
          return false, None;
        }
        var d := Finish();
        ok, damage := true, Some(d);
      } else {
        ok := true;
      }
    }

    /** What one packet does to the stored viewport is what `Viewports` says it does; a refusal keeps what is shown. */
    method ReceivePacket(p: Packet) returns (ok: bool, damage: Option<Damage>)
      requires Valid()
      modifies this
      ensures Valid() && Value() == Receive(old(Value()), p)
      ensures ok <==> Viewports.Apply(old(Value()), p).Accepted?
      ensures ok ==> Viewports.Apply(old(Value()), p).damage == damage
      ensures !ok ==> damage == None && cells == old(cells) && frame == old(frame)
    {
      hide Flat, Viewports.Apply;
      ok, damage := Apply(p);
      if !ok {
        pending := None;
      }
    }
  }

  lemma NoneFit(f: Frame)
    requires WireFrame(f)
    ensures AllFit([], f.columns, f.rows)
  {
  }

  lemma OneMoreFits(ops: seq<Operation>, op: Operation, f: Frame)
    requires WireFrame(f) && AllFit(ops, f.columns, f.rows) && Fits(op, f.columns, f.rows)
    ensures AllFit(ops + [op], f.columns, f.rows)
  {
  }

  lemma PublishedValid(rows: seq<Row>, f: Frame)
    requires WireFrame(f) && |rows| == f.rows && Uniform(rows, f.columns)
    ensures rows != [] && Flat(rows) != []
  {
    FlatLength(rows, f.columns);
  }

  // ---- Reading a connection ----

  /** Route packets in order to the viewport of one tab. */
  method DeliverPackets(viewport: Viewport, packets: seq<Packet>, tab: u32) returns (ok: bool)
    requires viewport.Valid()
    modifies viewport
    ensures viewport.Valid()
    ensures Replay(Replica(old(viewport.Value()), true), packets, tab) == Replica(viewport.Value(), ok)
  {
    hide Viewports.Apply, Receive;
    ok := true;
    ghost var start := Replica(viewport.Value(), true);
    assert packets[..0] == [];
    for i := 0 to |packets|
      invariant viewport.Valid()
      invariant Replay(start, packets[..i], tab) == Replica(viewport.Value(), ok)
    {
      assert packets[..i + 1][..i] == packets[..i];
      var p := packets[i];
      if p.tab == tab {
        if p.kind == WIRE_RELEASE {
          viewport.Release();
        } else if FrameKind(p.kind) {
          var accepted, damage := viewport.ReceivePacket(p);
          ok := ok && accepted;
        }
      }
    }
    assert packets[..|packets|] == packets;
  }

  /**
   A whole connection: however its bytes are split into reads, the stored viewport ends as the replica
   that has read exactly the packets those bytes encode.
   */
  method ReadConnection(decoder: Decoder, viewport: Viewport, chunks: seq<seq<byte>>, tab: u32) returns (ok: bool)
    requires decoder.Valid() && decoder.state == Collecting([]) && viewport.Valid()
    modifies decoder, viewport
    ensures viewport.Valid()
    ensures var stream := Parse(Flat(chunks));
      && Replay(Replica(old(viewport.Value()), true), stream.packets, tab).view == viewport.Value()
      && ok == (!stream.failed && Replay(Replica(old(viewport.Value()), true), stream.packets, tab).ok)
  {
    hide Parse, Replay, Flat, Header;
    assert decoder.Pending() + Flat(chunks) == Flat(chunks);
    var packets, framed := decoder.FeedChunks(chunks);
    ok := DeliverPackets(viewport, packets, tab);
    ok := ok && framed;
  }

  /** Everything a daemon queued, sent whole in any pieces: the client reads back the packet list itself. */
  lemma ConnectionOf(ps: seq<Packet>)
    requires AllSendable(ps)
    ensures Parse(EncodeAll(ps)) == Parsed(ps, [], false)
  {
    hide Encode;
    ParseEncodeAll(ps, []);
    assert EncodeAll(ps) + [] == EncodeAll(ps);
    assert ps + [] == ps;
  }
}
