/**
 The client's replica of one viewport. Frame packets are staged privately and published together by
 FRAME_FINISH; a packet that cannot be part of a frame discards what was staged.
 */
module Viewports {
  import opened Bytes
  import opened Grids
  import opened Cells
  import opened Engines
  import opened Framing
  import opened Deltas

  const ATTR_WRAP: nat := 0x100
  const ATTR_WIDE: nat := 0x200
  const OPERATION_SIZE: nat := 40
  const CELL_SIZE: nat := 16

  datatype Pending = Pending(frame: Frame, operations: seq<Operation>, bytes: nat)

  /** `cells` is empty until the first frame is published. */
  datatype View = View(frame: Frame, cells: seq<Row>, pending: Option<Pending>, live: bool)

  predicate ValidView(v: View) {
    && 1 <= v.frame.columns <= MAX_COLUMNS && 1 <= v.frame.rows <= MAX_ROWS
    && (v.cells != [] ==> |v.cells| == v.frame.rows && Uniform(v.cells, v.frame.columns))
    && (v.pending.Some? ==>
          var p := v.pending.value;
          WireFrame(p.frame) && AllFit(p.operations, p.frame.columns, p.frame.rows) && p.bytes <= MAX_PAYLOAD)
  }

  const BLANK: Cell := Cell(0x20, 0, 258, 259)

  predicate Wide(c: Cell) {
    c.attributes / ATTR_WIDE % 2 == 1
  }

  function Unwrapped(c: Cell): (r: Cell) {
    if c.attributes / ATTR_WRAP % 2 == 1 then c.(attributes := c.attributes - ATTR_WRAP) else c
  }

  /** One row carried into a new width: clipped or padded, no longer wrapped, no half of a wide cell. */
  function ResizedRow(source: Row, columns: nat): (r: Row)
    requires columns > 0 && |source| > 0
    ensures |r| == columns
  {
    var count := Min(columns, |source|);
    var padded := source[..count] + seq(columns - count, _ => BLANK);
    var unwrapped :=
      if |source| == columns then padded
      else padded[count - 1 := Unwrapped(padded[count - 1])];
    if Wide(unwrapped[columns - 1]) then unwrapped[columns - 1 := BLANK] else unwrapped
  }

  function Resized(cells: seq<Row>, columns: nat, rows: nat): (r: seq<Row>)
    requires columns > 0 && forall k | 0 <= k < |cells| :: |cells[k]| > 0
    ensures |r| == rows && Uniform(r, columns)
  {
    seq(rows, k requires 0 <= k < rows =>
      if k < |cells| then ResizedRow(cells[k], columns) else seq(columns, _ => BLANK))
  }

  function Masked(row: Row): (r: Row)
    ensures |r| == |row|
  {
    seq(|row|, i requires 0 <= i < |row| => row[i].(attributes := row[i].attributes % 0x1_0000))
  }

  function Cost(op: Operation, columns: nat): nat {
    OPERATION_SIZE +
    match op
    case Span(_, _, cells) => |cells| * CELL_SIZE
    case Copy(_, _, count) => count * columns * CELL_SIZE
  }

  function TotalCost(ops: seq<Operation>, columns: nat): nat {
    if ops == [] then 0
    else TotalCost(ops[..|ops| - 1], columns) + Cost(ops[|ops| - 1], columns)
  }

  /** The operation a packet carries, if its body is well formed for the frame being staged. */
  function ParseOperation(p: Packet, f: Frame): (op: Option<Operation>)
    requires WireFrame(f)
    ensures op.Some? ==> Fits(op.value, f.columns, f.rows)
  {
    if p.kind == WIRE_COPY_ROWS then
      if |p.body| != 12 then None
      else
        var source, destination, count := WordAt(p.body, 0), WordAt(p.body, 4), WordAt(p.body, 8);
        if count == 0 || count > f.rows || source > f.rows - count || destination > f.rows - count then None
        else Some(Copy(source, destination, count))
    else
      var span := p.kind == WIRE_ROW_SPAN;
      var header := if span then 8 else 4;
      if |p.body| < header then None
      else
        var row := WordAt(p.body, 0);
        var column: nat := if span then WordAt(p.body, 4) else 0;
        var length := |p.body| - header;
        var count := length / CELL_BYTES;
        if row >= f.rows || count == 0 || count > f.columns || column > f.columns - count ||
           length % CELL_BYTES != 0 || (!span && count != f.columns) then None
        else Some(Span(row, column, Masked(DecodeCells(p.body[header..], count))))
  }

  function ParseFrame(b: seq<byte>): (f: Option<Frame>)
    ensures f.Some? ==> WireFrame(f.value)
  {
    if |b| != 24 then None
    else
      var f := Frame(WordAt(b, 0), WordAt(b, 4), WordAt(b, 8), WordAt(b, 12), WordAt(b, 16), WordAt(b, 20), 0);
      if WireFrame(f) then Some(f) else None
  }

  /** The rows a finished frame starts from. */
  function StartRows(v: View, f: Frame): (r: seq<Row>)
    requires ValidView(v) && WireFrame(f)
    ensures |r| == f.rows && Uniform(r, f.columns)
  {
    if v.cells == [] || v.frame.columns != f.columns || v.frame.rows != f.rows
    then Resized(v.cells, f.columns, f.rows)
    else v.cells
  }

  // ---- What has to be repainted ----

  datatype Damage = Damage(full: bool, rows: seq<bool>)

  function FlagsAfter(rows: seq<Row>, columns: nat, flags: seq<bool>, op: Operation): (r: seq<bool>)
    requires Uniform(rows, columns) && Fits(op, columns, |rows|) && |flags| == |rows|
    ensures |r| == |flags|
  {
    match op
    case Span(row, column, cells) =>
      if rows[row][column..column + |cells|] == cells then flags else flags[row := true]
    case Copy(_, destination, count) =>
      seq(|flags|, r requires 0 <= r < |flags| => flags[r] || destination <= r < destination + count)
  }

  function FlagsAll(rows: seq<Row>, columns: nat, flags: seq<bool>, ops: seq<Operation>): (r: seq<bool>)
    requires Uniform(rows, columns) && AllFit(ops, columns, |rows|) && |flags| == |rows|
    ensures |r| == |flags|
  {
    if ops == [] then flags
    else
      var last := |ops| - 1;
      assert ops[last] in ops;
      FlagsAfter(ApplyAll(rows, columns, ops[..last]), columns, FlagsAll(rows, columns, flags, ops[..last]), ops[last])
  }

  /** A row that no flag marks shows what it showed before. */
  lemma {:induction false} UnflaggedKept(rows: seq<Row>, columns: nat, flags: seq<bool>, ops: seq<Operation>, r: nat)
    requires Uniform(rows, columns) && AllFit(ops, columns, |rows|) && |flags| == |rows| && r < |rows|
    requires !FlagsAll(rows, columns, flags, ops)[r]
    ensures !flags[r]
    ensures ApplyAll(rows, columns, ops)[r] == rows[r]
  {
    if ops != [] {
      var last := |ops| - 1;
      assert ops[last] in ops;
      UnflaggedKept(rows, columns, flags, ops[..last], r);
      var op := ops[last];
      if op.Span? && op.row == r {
        var row := ApplyAll(rows, columns, ops[..last])[r];
        assert row == row[..op.column] + row[op.column..op.column + |op.cells|] + row[op.column + |op.cells|..];
      }
    }
  }

  function CursorFlags(was: Frame, f: Frame): (flags: seq<bool>)
    requires WireFrame(f)
    ensures |flags| == f.rows
  {
    var moved := was.cursorX != f.cursorX || was.cursorY != f.cursorY;
    seq(f.rows, r requires 0 <= r < f.rows => moved && (r == was.cursorY || r == f.cursorY))
  }

  // ---- Packets ----

  datatype Verdict = Rejected | Accepted(view: View, damage: Option<Damage>)

  function Finish(v: View): (r: Verdict)
    requires ValidView(v) && v.pending.Some?
    ensures r.Accepted? && ValidView(r.view)
  {
    var f, ops := v.pending.value.frame, v.pending.value.operations;
    var start := StartRows(v, f);
    var full := v.cells == [] || v.frame.columns != f.columns || v.frame.rows != f.rows ||
                v.frame.scroll != f.scroll || v.frame.alternate != f.alternate || !v.live;
    Accepted(View(f, ApplyAll(start, f.columns, ops), None, true),
             Some(Damage(full, FlagsAll(start, f.columns, CursorFlags(v.frame, f), ops))))
  }

  function Apply(v: View, p: Packet): (r: Verdict)
    requires ValidView(v)
    ensures r.Accepted? ==> ValidView(r.view)
  {
    if p.kind == WIRE_FRAME then
      var f := ParseFrame(p.body);
      if v.pending.Some? || f.None? then Rejected
      else Accepted(v.(pending := Some(Pending(f.value, [], 0))), None)
    else if p.kind == WIRE_ROW || p.kind == WIRE_ROW_SPAN || p.kind == WIRE_COPY_ROWS then
      if v.pending.None? then Rejected
      else
        var staged := v.pending.value;
        var op := ParseOperation(p, staged.frame);
        if op.None? || staged.bytes + Cost(op.value, staged.frame.columns) > MAX_PAYLOAD then Rejected
        else Accepted(v.(pending := Some(Pending(
            staged.frame, staged.operations + [op.value], staged.bytes + Cost(op.value, staged.frame.columns)))), None)
    else if p.kind == WIRE_FRAME_FINISH then
      if p.body != [] || v.pending.None? then Rejected else Finish(v)
    else Accepted(v, None)
  }

  function Receive(v: View, p: Packet): (r: View)
    requires ValidView(v)
    ensures ValidView(r)
  {
    match Apply(v, p)
    case Rejected => v.(pending := None)
    case Accepted(view, _) => view
  }

  /** Published cells and header change only when a frame finishes; a rejected packet keeps both. */
  lemma OnlyFinishPublishes(v: View, p: Packet)
    requires ValidView(v) && (p.kind != WIRE_FRAME_FINISH || Apply(v, p).Rejected?)
    ensures Receive(v, p).cells == v.cells && Receive(v, p).frame == v.frame
  {
  }

  /** A finished frame that is not repainted whole still repaints every row it changes. */
  lemma DamageCoversChanges(v: View, p: Packet, r: nat)
    requires ValidView(v) && Apply(v, p).Accepted? && Apply(v, p).damage.Some?
    requires var d := Apply(v, p).damage.value; !d.full && r < |d.rows| && !d.rows[r]
    ensures r < |v.cells| == |Receive(v, p).cells|
    ensures Receive(v, p).cells[r] == v.cells[r]
  {
    var f := v.pending.value.frame;
    UnflaggedKept(StartRows(v, f), f.columns, CursorFlags(v.frame, f), v.pending.value.operations, r);
  }

  // ---- One tab's replica over everything its client has received ----

  datatype Replica = Replica(view: View, ok: bool)

  /** How a client routes one packet to the viewport of a tab. */
  function Deliver(r: Replica, p: Packet, tab: u32): (q: Replica)
    requires ValidView(r.view)
    ensures ValidView(q.view)
  {
    if p.tab != tab then r
    else if p.kind == WIRE_RELEASE then r.(view := r.view.(live := false, pending := None))
    else if FrameKind(p.kind) then Replica(Receive(r.view, p), r.ok && Apply(r.view, p).Accepted?)
    else r
  }

  function Replay(r: Replica, ps: seq<Packet>, tab: u32): (q: Replica)
    requires ValidView(r.view)
    ensures ValidView(q.view)
  {
    if ps == [] then r else Deliver(Replay(r, ps[..|ps| - 1], tab), ps[|ps| - 1], tab)
  }

  lemma {:induction false} ReplayConcat(r: Replica, a: seq<Packet>, b: seq<Packet>, tab: u32)
    requires ValidView(r.view)
    ensures Replay(r, a + b, tab) == Replay(Replay(r, a, tab), b, tab)
    decreases |b|
  {
    if b == [] {
      assert a + b == a;
    } else {
      ReplayConcat(r, a, b[..|b| - 1], tab);
      assert (a + b)[..|a + b| - 1] == a + b[..|b| - 1];
    }
  }

  /** Packets for other tabs, or of kinds no viewport reads, leave a replica alone. */
  lemma {:induction false} ReplayOther(r: Replica, ps: seq<Packet>, tab: u32)
    requires ValidView(r.view)
    requires forall p | p in ps :: p.tab != tab || (!FrameKind(p.kind) && p.kind != WIRE_RELEASE)
    ensures Replay(r, ps, tab) == r
  {
    if ps != [] {
      assert ps[|ps| - 1] in ps;
      ReplayOther(r, ps[..|ps| - 1], tab);
    }
  }

  // ---- A complete frame, as the daemon writes it ----

  function FramePackets(f: Frame, ops: seq<Operation>, tab: u32): (ps: seq<Packet>)
    requires WireFrame(f) && AllFit(ops, f.columns, f.rows)
    ensures AllSendable(ps)
  {
    [Packet(WIRE_FRAME, tab, FrameBody(f))] + OperationPackets(ops, f.columns, tab) + [Packet(WIRE_FRAME_FINISH, tab, [])]
  }

  ghost predicate NarrowAttributes(ops: seq<Operation>) {
    forall op | op in ops && op.Span? :: forall i | 0 <= i < |op.cells| :: op.cells[i].attributes < 0x1_0000
  }

  lemma ParseFrameBody(f: Frame)
    requires WireFrame(f)
    ensures ParseFrame(FrameBody(f)) == Some(f)
  {
    hide WordAt, FrameBody;
    FrameBodyWords(f);
  }

  lemma DecodeMasked(cells: Row)
    requires forall i | 0 <= i < |cells| :: cells[i].attributes < 0x1_0000
    ensures Masked(DecodeCells(EncodeRow(cells), |cells|)) == cells
  {
    hide DecodeCells, EncodeRow;
    RowRoundTrip(cells);
  }

  lemma CountCells(count: nat)
    ensures count * CELL_BYTES / CELL_BYTES == count && count * CELL_BYTES % CELL_BYTES == 0
  {
  }

  /** The client reads back exactly the operation the daemon wrote. */
  lemma ParseOperationPacket(op: Operation, f: Frame, tab: u32)
    requires WireFrame(f) && Fits(op, f.columns, f.rows)
    requires op.Span? ==> forall i | 0 <= i < |op.cells| :: op.cells[i].attributes < 0x1_0000
    ensures ParseOperation(OperationPacket(op, f.columns, tab), f) == Some(op)
  {
    hide WordAt, PutU32, PutWords, EncodeRow, Masked, DecodeCells;
    match op
    case Copy(source, destination, count) =>
      CopyBodyWords(source, destination, count);
    case Span(row, column, cells) =>
      CountCells(|cells|);
      DecodeMasked(cells);
      if |cells| == f.columns {
        RowBodyParts(row, EncodeRow(cells));
      } else {
        SpanBodyParts(row, column, EncodeRow(cells));
      }
  }

  /** A replica with some operations staged. */
  function Staging(r: Replica, f: Frame, ops: seq<Operation>, bytes: nat): Replica {
    r.(view := r.view.(pending := Some(Pending(f, ops, bytes))))
  }

  lemma StageOne(r: Replica, f: Frame, ops: seq<Operation>, bytes: nat, op: Operation, tab: u32)
    requires WireFrame(f) && ValidView(Staging(r, f, ops, bytes).view)
    requires Fits(op, f.columns, f.rows) && bytes + Cost(op, f.columns) <= MAX_PAYLOAD
    requires op.Span? ==> forall i | 0 <= i < |op.cells| :: op.cells[i].attributes < 0x1_0000
    ensures Deliver(Staging(r, f, ops, bytes), OperationPacket(op, f.columns, tab), tab)
         == Staging(r, f, ops + [op], bytes + Cost(op, f.columns))
  {
    OperationKind(op, f.columns, tab);
    ParseOperationPacket(op, f, tab);
    hide ParseOperation, OperationPacket, Cost, Finish;
  }

  lemma AllFitPrefix(ops: seq<Operation>, columns: nat, rows: nat, last: nat)
    requires AllFit(ops, columns, rows) && NarrowAttributes(ops) && last < |ops|
    ensures AllFit(ops[..last], columns, rows) && NarrowAttributes(ops[..last])
    ensures Fits(ops[last], columns, rows)
    ensures ops[last].Span? ==> forall i | 0 <= i < |ops[last].cells| :: ops[last].cells[i].attributes < 0x1_0000
  {
    assert ops[last] in ops;
  }

  lemma OperationPacketsPrefix(ops: seq<Operation>, columns: nat, tab: u32, last: nat)
    requires columns <= MAX_COLUMNS && AllFit(ops, columns, MAX_ROWS) && last < |ops|
    ensures OperationPackets(ops, columns, tab)[..last] == OperationPackets(ops[..last], columns, tab)
    ensures Fits(ops[last], columns, MAX_ROWS)
    ensures OperationPackets(ops, columns, tab)[last] == OperationPacket(ops[last], columns, tab)
  {
    assert ops[last] in ops;
  }

  /** After the header and some operations, exactly those operations are staged and nothing was refused. */
  lemma {:induction false} StageOperations(r: Replica, f: Frame, ops: seq<Operation>, tab: u32)
    requires ValidView(r.view) && WireFrame(f) && AllFit(ops, f.columns, f.rows) && NarrowAttributes(ops)
    requires TotalCost(ops, f.columns) <= MAX_PAYLOAD
    ensures ValidView(Staging(r, f, [], 0).view)
    ensures Replay(Staging(r, f, [], 0), OperationPackets(ops, f.columns, tab), tab)
         == Staging(r, f, ops, TotalCost(ops, f.columns))
  {
    hide ParseOperation, OperationPacket, OperationPackets, Cost, Apply, Receive, Deliver;
    if ops != [] {
      var last := |ops| - 1;
      AllFitPrefix(ops, f.columns, f.rows, last);
      StageOperations(r, f, ops[..last], tab);
      StageOne(r, f, ops[..last], TotalCost(ops[..last], f.columns), ops[last], tab);
      OperationPacketsPrefix(ops, f.columns, tab, last);
      assert ops[..last] + [ops[last]] == ops;
    }
  }

  lemma OperationKind(op: Operation, columns: nat, tab: u32)
    requires columns <= MAX_COLUMNS && Fits(op, columns, MAX_ROWS)
    ensures var k := OperationPacket(op, columns, tab).kind;
            k == WIRE_ROW || k == WIRE_ROW_SPAN || k == WIRE_COPY_ROWS
  {
  }

  /** A settled replica accepts a complete frame whole and shows its operations' result. */
  lemma AcceptFrame(r: Replica, f: Frame, ops: seq<Operation>, tab: u32)
    requires ValidView(r.view) && r.view.pending.None?
    requires WireFrame(f) && AllFit(ops, f.columns, f.rows) && NarrowAttributes(ops)
    requires TotalCost(ops, f.columns) <= MAX_PAYLOAD
    ensures Replay(r, FramePackets(f, ops, tab), tab)
         == r.(view := View(f, ApplyAll(StartRows(r.view, f), f.columns, ops), None, true))
  {
    hide FrameBody, OperationPackets, ParseFrame, TotalCost;
    var first, middle, last := [Packet(WIRE_FRAME, tab, FrameBody(f))], OperationPackets(ops, f.columns, tab),
                               [Packet(WIRE_FRAME_FINISH, tab, [])];
    ParseFrameBody(f);
    assert first[..0] == [];
    assert Replay(r, first, tab) == Staging(r, f, [], 0);
    StageOperations(r, f, ops, tab);
    ReplayConcat(r, first, middle, tab);
    ReplayConcat(r, first + middle, last, tab);
    assert last[..0] == [];
  }

  /** The staging budget of a frame within the wire's geometry: one copy, at most one update a row. */
  lemma {:induction false} UpdatesCost(ops: seq<Operation>, columns: nat)
    requires columns <= MAX_COLUMNS
    requires forall op | op in ops :: op.Span? && |op.cells| <= columns
    ensures TotalCost(ops, columns) <= |ops| * (OPERATION_SIZE + MAX_COLUMNS * CELL_SIZE)
  {
    if ops != [] {
      var last := |ops| - 1;
      assert ops[last] in ops;
      UpdatesCost(ops[..last], columns);
    }
  }

  lemma {:induction false} CopyThenUpdatesCost(copy: Operation, ops: seq<Operation>, columns: nat)
    ensures TotalCost([copy] + ops, columns) == Cost(copy, columns) + TotalCost(ops, columns)
  {
    if ops == [] {
      assert [copy] + ops == [copy];
      assert [copy][..0] == [];
      assert TotalCost([copy][..0], columns) == 0;
    } else {
      var last := |ops| - 1;
      CopyThenUpdatesCost(copy, ops[..last], columns);
      assert ([copy] + ops)[..|ops|] == [copy] + ops[..last];
    }
  }
}
