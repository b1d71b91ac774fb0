/**
 The daemon's baseline as it is stored: one flat byte buffer, planned against and updated in place. Its
 methods compute what `Frames` and `Replicas` specify on rows of cells.
 */
module Screens {
  import opened Bytes
  import opened Grids
  import opened Cells
  import opened Engines
  import opened Framing
  import opened Deltas
  import opened Viewports
  import opened Moves
  import opened Frames
  import opened Replicas
  import opened Queues

  /** An update as planned on bytes: the whole encoded row, and the byte range to send. */
  datatype ByteUpdate = ByteUpdate(row: nat, bytes: seq<byte>, span: Option<(nat, nat)>)

  datatype BytePlan = BytePlan(frame: Frame, full: bool, movement: Option<Move>, updates: seq<ByteUpdate>, bytes: seq<byte>)

  datatype BytePrepared = Holding | Idle | Built(plan: BytePlan)

  function ByteSpan(span: Option<(nat, nat)>): (r: Option<(nat, nat)>) {
    if span.None? then None else Some((span.value.0 * CELL_BYTES, span.value.1 * CELL_BYTES))
  }

  function AsBytes(u: Update): (b: ByteUpdate) {
    ByteUpdate(u.row, EncodeRow(u.cells), ByteSpan(u.span))
  }

  function AllAsBytes(us: seq<Update>): (bs: seq<ByteUpdate>)
    ensures |bs| == |us|
  {
    seq(|us|, i requires 0 <= i < |us| => AsBytes(us[i]))
  }

  lemma AllAsBytesNext(us: seq<Update>, u: Update)
    ensures AllAsBytes(us + [u]) == AllAsBytes(us) + [AsBytes(u)]
  {
    hide AsBytes;
  }

  // ---- The buffer and the rows it holds ----

  ghost predicate Holds(bytes: seq<byte>, rows: seq<Row>, columns: nat) {
    Uniform(rows, columns) && bytes == Flat(EncodedRows(rows))
  }

  lemma HoldsLength(bytes: seq<byte>, rows: seq<Row>, columns: nat)
    requires Holds(bytes, rows, columns)
    ensures |bytes| == |rows| * (columns * CELL_BYTES)
  {
    hide EncodeRow;
    EncodedRowsUniform(rows, columns);
    FlatLength(EncodedRows(rows), columns * CELL_BYTES);
  }

  lemma HoldsRow(bytes: seq<byte>, rows: seq<Row>, columns: nat, r: nat)
    requires Holds(bytes, rows, columns) && r < |rows|
    ensures r * (columns * CELL_BYTES) <= (r + 1) * (columns * CELL_BYTES) <= |bytes|
    ensures bytes[r * (columns * CELL_BYTES)..(r + 1) * (columns * CELL_BYTES)] == EncodeRow(rows[r])
  {
    hide EncodeRow, Flat;
    EncodedRowsUniform(rows, columns);
    FlatRow(EncodedRows(rows), columns * CELL_BYTES, r);
  }

  /** Comparing the buffer's length with a geometry is comparing row counts. */
  lemma FullTest(bytes: seq<byte>, s: Screen, e: Engine, full: bool)
    requires ValidEngine(e) && ValidScreen(s) && Holds(bytes, s.rows, if s.rows == [] then 0 else s.frame.columns)
    ensures (full || s.frame.columns != e.columns || |bytes| != |e.rows| * (e.columns * CELL_BYTES)) == NeedsFull(s, e, full)
  {
    hide EncodeRow, Flat, ValidRow;
    HoldsLength(bytes, s.rows, if s.rows == [] then 0 else s.frame.columns);
    SameCount(|s.rows|, |e.rows|, e.columns * CELL_BYTES);
    SameCount(0, |e.rows|, e.columns * CELL_BYTES);
  }

  // ---- Moves and spans on bytes are moves and spans on cells ----

  lemma ExactBytes(before: seq<Row>, current: seq<Row>, columns: nat, m: Move)
    requires |before| == |current| && Uniform(before, columns) && Uniform(current, columns)
    ensures Exact(EncodedRows(before), EncodedRows(current), m) <==> Exact(before, current, m)
  {
    hide EncodeRow;
    if InBounds(m, |current|) {
      forall i | m.destination <= i < m.destination + m.count
        ensures EncodedRows(current)[i] == EncodedRows(before)[m.source + (i - m.destination)]
            <==> current[i] == before[m.source + (i - m.destination)]
      {
        SameRows(before[m.source + (i - m.destination)], current[i]);
      }
    }
  }

  lemma SameChunk(a: Row, b: Row, k: nat)
    requires |a| == |b| && k < |a|
    ensures k * CELL_BYTES + CELL_BYTES <= |EncodeRow(a)| == |EncodeRow(b)|
    ensures EncodeRow(a)[k * CELL_BYTES..(k + 1) * CELL_BYTES] == EncodeRow(b)[k * CELL_BYTES..(k + 1) * CELL_BYTES]
        <==> a[k] == b[k]
  {
    hide EncodeCell, Flat;
    FlatRow(EncodedCells(a), CELL_BYTES, k);
    FlatRow(EncodedCells(b), CELL_BYTES, k);
    SameCells(a[k], b[k]);
  }

  /** The first and last differing cells of two encoded rows, as byte offsets. */
  method Difference(bytes: seq<byte>, baseline: seq<byte>, ghost now: Row, ghost before: Row) returns (first: nat, end: nat)
    requires |now| == |before| && now != before && bytes == EncodeRow(now) && baseline == EncodeRow(before)
    ensures now[0..] != before[0..] && now[..|now|] != before[..|now|]
    ensures first == FirstDifference(now, before, 0) * CELL_BYTES
    ensures end == EndOfDifference(now, before, |now|) * CELL_BYTES
  {
    hide EncodeRow;
    assert now[0..] == now[..|now|] == now && before[0..] == before[..|now|] == before;
    ghost var differs := FirstDifference(now, before, 0);
    var k: nat := 0;
    while bytes[k * CELL_BYTES..(k + 1) * CELL_BYTES] == baseline[k * CELL_BYTES..(k + 1) * CELL_BYTES]
      invariant k <= differs
      decreases differs - k
    {
      SameChunk(now, before, k);
      k := k + 1;
    }
    SameChunk(now, before, k);
    first := k * CELL_BYTES;
    ghost var last := EndOfDifference(now, before, |now|);
    k := |bytes| / CELL_BYTES;
    while bytes[(k - 1) * CELL_BYTES..k * CELL_BYTES] == baseline[(k - 1) * CELL_BYTES..k * CELL_BYTES]
      invariant last <= k <= |now|
      decreases k
    {
      SameChunk(now, before, k - 1);
      k := k - 1;
    }
    SameChunk(now, before, k - 1);
    end := k * CELL_BYTES;
  }

  /** Some row as the wire and the baseline hold it. */
  method EncodedRow(cells: Row) returns (bytes: seq<byte>)
    ensures bytes == EncodeRow(cells)
  {
    hide EncodeCell;
    bytes := [];
    for k := 0 to |cells|
      invariant bytes == EncodeRow(cells[..k])
    {
      RowNext(cells, k);
      bytes := bytes + EncodeCell(cells[k]);
    }
    assert cells[..|cells|] == cells;
  }

  lemma RowNext(cells: Row, k: nat)
    requires k < |cells|
    ensures EncodeRow(cells[..k + 1]) == EncodeRow(cells[..k]) + EncodeCell(cells[k])
  {
    hide EncodeCell;
    var parts := EncodedCells(cells[..k + 1]);
    assert parts == EncodedCells(cells[..k]) + [EncodeCell(cells[k])];
    FlatConcat(EncodedCells(cells[..k]), [EncodeCell(cells[k])]);
    FlatOne(EncodeCell(cells[k]));
  }

  /** The rows a plan looks at, encoded; the others are not read at all. */
  method CurrentRows(rows: seq<Row>, dirty: seq<bool>, all: bool) returns (current: seq<Option<seq<byte>>>)
    requires |rows| == |dirty|
    ensures |current| == |rows|
    ensures forall r | 0 <= r < |rows| :: current[r] == if all || dirty[r] then Some(EncodeRow(rows[r])) else None
  {
    hide EncodeRow;
    current := [];
    for r := 0 to |rows|
      invariant |current| == r
      invariant forall k | 0 <= k < r :: current[k] == if all || dirty[k] then Some(EncodeRow(rows[k])) else None
    {
      if !all && !dirty[r] {
        current := current + [None];
      } else {
        var bytes := EncodedRow(rows[r]);
        current := current + [Some(bytes)];
      }
    }
  }

  method CountDirty(dirty: seq<bool>) returns (n: nat)
    ensures n == Covered(dirty, 0, |dirty|)
  {
    n := 0;
    for r := 0 to |dirty|
      invariant n == Covered(dirty, 0, r)
    {
      n := n + if dirty[r] then 1 else 0;
    }
  }

  // ---- Planning on bytes ----

  /** The update a delta plans for one dirty row, from its bytes and those of its baseline row. */
  method RowUpdate(row: nat, bytes: seq<byte>, baseline: seq<byte>, features: u32, ghost e: Engine, ghost before: Row)
    returns (u: Option<ByteUpdate>)
    requires ValidEngine(e) && row < |e.rows| && |before| == e.columns && e.dirty[row]
    requires bytes == EncodeRow(e.rows[row]) && baseline == EncodeRow(before)
    ensures var w := DeltaUpdate(before, e, features, row);
            u == if w.None? then None else Some(AsBytes(w.value))
  {
    hide EncodeRow, Has;
    ghost var now := e.rows[row];
    SameRows(now, before);
    if bytes == baseline {
      return None;
    }
    var span: Option<(nat, nat)> := None;
    if Has(features, FEATURE_ROW_SPAN) {
      var first, end := Difference(bytes, baseline, now, before);
      if end - first + 4 < |bytes| {
        span := Some((first, end));
      }
    }
    u := Some(ByteUpdate(row, bytes, span));
  }

  /** The updates of the first rows: every row of a full frame, the differing dirty rows of a delta. */
  ghost function Planned(base: seq<Row>, e: Engine, whole: bool, features: u32, m: Option<Move>, upTo: nat): seq<Update>
    requires ValidEngine(e) && upTo <= |e.rows|
    requires !whole ==> |base| == |e.rows| && Uniform(base, e.columns) && MoveFits(m, |base|)
  {
    if whole then FullUpdates(e, upTo) else DeltaUpdates(base, e, features, m, upTo)
  }

  method PlanUpdates(baseline: seq<byte>, current: seq<Option<seq<byte>>>, dirty: seq<bool>, width: nat, whole: bool, features: u32,
                     m: Option<Move>, ghost e: Engine, ghost base: seq<Row>)
    returns (updates: seq<ByteUpdate>)
    requires ValidEngine(e) && dirty == e.dirty && |current| == |dirty| && width == e.columns * CELL_BYTES
    requires forall r | 0 <= r < |dirty| && (whole || dirty[r]) :: current[r] == Some(EncodeRow(e.rows[r]))
    requires !whole ==> |base| == |e.rows| && MoveFits(m, |base|) && Holds(baseline, base, e.columns)
    ensures updates == AllAsBytes(Planned(base, e, whole, features, m, |e.rows|))
  {
    hide EncodeRow, Flat, AllAsBytes, AsBytes, DeltaUpdate, FullUpdates;
    updates := [];
    PlannedNone(base, e, whole, features, m);
    for row := 0 to |dirty|
      invariant updates == AllAsBytes(Planned(base, e, whole, features, m, row))
    {
      PlannedNext(base, e, whole, features, m, row);
      if whole || dirty[row] {
        var bytes := current[row].value;
        if whole {
          updates := updates + [ByteUpdate(row, bytes, None)];
        } else {
          var source := BaselineRow(m, row);
          HoldsRow(baseline, base, e.columns, source);
          var u := RowUpdate(row, bytes, baseline[source * width..(source + 1) * width], features, e, base[source]);
          if u.Some? {
            updates := updates + [u.value];
          }
        }
      }
    }
  }

  lemma PlannedNone(base: seq<Row>, e: Engine, whole: bool, features: u32, m: Option<Move>)
    requires ValidEngine(e)
    requires !whole ==> |base| == |e.rows| && Uniform(base, e.columns) && MoveFits(m, |base|)
    ensures AllAsBytes(Planned(base, e, whole, features, m, 0)) == []
  {
  }

  lemma PlannedNext(base: seq<Row>, e: Engine, whole: bool, features: u32, m: Option<Move>, row: nat)
    requires ValidEngine(e) && row < |e.rows|
    requires !whole ==> |base| == |e.rows| && Uniform(base, e.columns) && MoveFits(m, |base|)
    ensures BaselineRow(m, row) < |base| || whole
    ensures AllAsBytes(Planned(base, e, whole, features, m, row + 1)) == AllAsBytes(Planned(base, e, whole, features, m, row)) +
      (if whole then [ByteUpdate(row, EncodeRow(e.rows[row]), None)]
       else
         var u := DeltaUpdate(base[BaselineRow(m, row)], e, features, row);
         if u.None? then [] else [AsBytes(u.value)])
    ensures !whole && !e.dirty[row] ==> DeltaUpdate(base[BaselineRow(m, row)], e, features, row).None?
  {
    hide EncodeRow, SpanFor, AllAsBytes, FullUpdates, DeltaUpdates;
    if whole {
      FullUpdatesNext(e, row);
      AllAsBytesNext(FullUpdates(e, row), Update(row, e.rows[row], None));
    } else {
      DeltaUpdatesMore(base, e, features, m, row);
      var u := DeltaUpdate(base[BaselineRow(m, row)], e, features, row);
      if u.Some? {
        AllAsBytesNext(DeltaUpdates(base, e, features, m, row), u.value);
      } else {
        var us := DeltaUpdates(base, e, features, m, row);
        assert us + [] == us && AllAsBytes(us) + [] == AllAsBytes(us);
      }
    }
  }

  lemma DeltaUpdatesMore(base: seq<Row>, e: Engine, features: u32, m: Option<Move>, row: nat)
    requires ValidEngine(e) && |base| == |e.rows| && Uniform(base, e.columns) && MoveFits(m, |base|) && row < |e.rows|
    ensures BaselineRow(m, row) < |base|
    ensures DeltaUpdates(base, e, features, m, row + 1) == DeltaUpdates(base, e, features, m, row) +
      (var u := DeltaUpdate(base[BaselineRow(m, row)], e, features, row); if u.None? then [] else [u.value])
  {
    hide DeltaUpdate;
    assert DeltaUpdates(base, e, features, m, row) + [] == DeltaUpdates(base, e, features, m, row);
  }

  // ---- Writing the packets of a plan ----

  /** Spans are sent only where they are shorter than the row. */
  predicate NarrowSpans(us: seq<Update>) {
    forall i | 0 <= i < |us| && us[i].span.Some? :: Short(us[i])
  }

  predicate Short(u: Update)
    requires u.span.Some?
  {
    u.span.value.0 < u.span.value.1 <= |u.cells| && u.span.value.1 - u.span.value.0 < |u.cells|
  }

  lemma {:induction false} DeltaSpansNarrow(base: seq<Row>, e: Engine, features: u32, m: Option<Move>, upTo: nat)
    requires ValidEngine(e) && |base| == |e.rows| && Uniform(base, e.columns) && MoveFits(m, |base|) && upTo <= |e.rows|
    ensures NarrowSpans(DeltaUpdates(base, e, features, m, upTo))
  {
    hide SpanFor;
    if upTo > 0 {
      DeltaSpansNarrow(base, e, features, m, upTo - 1);
    }
  }

  lemma PlanSpansNarrow(s: Screen, e: Engine, full: bool, features: u32, m: Option<Move>)
    requires Replicable(s, e) && MoveAllowed(s, e, full, features, m)
    ensures NarrowSpans(MakePlan(s, e, full, features, m).updates)
  {
    hide DeltaUpdates, Has, Covered;
    if !NeedsFull(s, e, full) {
      BaselineIsDeltaBase(s, e, full, features, m);
      DeltaSpansNarrow(s.rows, e, features, m, |e.rows|);
    }
  }

  /** One planned update is written as exactly the packet of the operation it stands for. */
  lemma UpdateParts(u: Update, columns: nat, tab: u32)
    requires 1 <= columns <= MAX_COLUMNS && UpdateSized(u, columns, MAX_ROWS) && (u.span.Some? ==> Short(u))
    ensures AsBytes(u).row < MAX_ROWS && (u.span.Some? ==> u.span.value.0 < MAX_COLUMNS)
    ensures var b, op := AsBytes(u), OperationPacket(UpdateOperation(u), columns, tab);
      op.tab == tab &&
      match b.span
      case None => Flat([PutU32(b.row), b.bytes]) == op.body && op.kind == WIRE_ROW
      case Some(span) =>
        && span.0 <= span.1 <= |b.bytes| && u.span.Some? && span.0 / CELL_BYTES == u.span.value.0
        && Flat([PutU32(b.row), PutU32(u.span.value.0), b.bytes[span.0..span.1]]) == op.body && op.kind == WIRE_ROW_SPAN
  {
    hide EncodeRow, PutU32, Flat;
    var b := AsBytes(u);
    match u.span
    case None =>
      FlatPair(PutU32(b.row), b.bytes);
    case Some(span) =>
      RowSlice(u.cells, span.0, span.1);
      FlatTriple(PutU32(b.row), PutU32(span.0), b.bytes[span.0 * CELL_BYTES..span.1 * CELL_BYTES]);
  }

  lemma FlatPair(a: seq<byte>, b: seq<byte>)
    ensures Flat([a, b]) == a + b
  {
    assert [a, b] == [a] + [b];
    FlatConcat([a], [b]);
    FlatOne(a);
    FlatOne(b);
  }

  lemma FlatTriple(a: seq<byte>, b: seq<byte>, c: seq<byte>)
    ensures Flat([a, b, c]) == a + b + c
  {
    assert [a, b, c] == [a, b] + [c];
    FlatConcat([a, b], [c]);
    FlatPair(a, b);
    FlatOne(c);
  }

  lemma {:induction false} UpdateOperationAt(us: seq<Update>, columns: nat, rows: nat, i: nat)
    requires columns > 0 && (forall u | u in us :: UpdateSized(u, columns, rows)) && i < |us|
    ensures us[i] in us && UpdateSized(us[i], columns, rows)
    ensures UpdateOperations(us, columns, rows)[i] == UpdateOperation(us[i])
  {
    if i < |us| - 1 {
      UpdateOperationAt(us[..|us| - 1], columns, rows, i);
    }
  }

  /** Where each part of a plan is in its packet list. */
  lemma PlanPacketAt(p: Plan, tab: u32, i: nat)
    requires PlanFits(p) && i < |p.updates|
    ensures var ps, at := PlanPackets(p, tab), 1 + |MoveOperations(p.movement)| + i;
      && |ps| == 2 + |MoveOperations(p.movement)| + |p.updates| && UpdateSized(p.updates[i], p.frame.columns, MAX_ROWS)
      && ps[at] == OperationPacket(UpdateOperation(p.updates[i]), p.frame.columns, tab)
  {
    hide UpdateOperations, OperationPacket, FrameBody;
    var u := p.updates[i];
    assert u in p.updates && UpdateSized(u, p.frame.columns, p.frame.rows);
    UpdateOperationAt(p.updates, p.frame.columns, p.frame.rows, i);
    assert PlanOperations(p)[|MoveOperations(p.movement)| + i] == UpdateOperation(u);
  }

  lemma PlanPacketEnds(p: Plan, tab: u32)
    requires PlanFits(p)
    ensures var ps := PlanPackets(p, tab);
      && |ps| == 2 + |MoveOperations(p.movement)| + |p.updates|
      && ps[0] == Packet(WIRE_FRAME, tab, FrameBody(p.frame))
      && ps[|ps| - 1] == Packet(WIRE_FRAME_FINISH, tab, [])
      && (p.movement.Some? ==> ps[1] == Packet(WIRE_COPY_ROWS, tab, PutWords([p.movement.value.source, p.movement.value.destination, p.movement.value.count])))
  {
    hide UpdateOperations, PutWords, FrameBody;
    if p.movement.Some? {
      assert PlanOperations(p)[0] == MoveOperations(p.movement)[0];
    }
  }

  /** Append the next packet of a list that fits whole. */
  method WriteNext(output: Buffer, kind: u32, tab: u32, parts: seq<seq<byte>>, ghost ps: seq<Packet>, ghost k: nat)
    requires output.Valid() && AllSendable(ps) && k < |ps| && |EncodeAll(ps)| <= output.limit
    requires ps[k] == Packet(kind, tab, Flat(parts)) && output.bytes == EncodeAll(ps[..k])
    modifies output
    ensures output.Valid() && output.bytes == EncodeAll(ps[..k + 1])
  {
    hide Encode, EncodeAll, Flat;
    assert ps[k] in ps;
    assert ps[..k + 1] == ps[..k] + [ps[k]];
    assert ps == ps[..k + 1] + ps[k + 1..];
    EncodeAllConcat(ps[..k], [ps[k]]);
    EncodeAllOne(ps[k]);
    EncodeAllConcat(ps[..k + 1], ps[k + 1..]);
    var ok := output.AppendPacketParts(kind, tab, parts);
  }

  /** The header, the move if any, every update, and the packet that publishes them. */
  method WritePackets(frame: Frame, movement: Option<Move>, updates: seq<ByteUpdate>, tab: u32, ghost p: Plan) returns (bytes: seq<byte>)
    requires PlanFits(p) && NarrowSpans(p.updates)
    requires frame == p.frame && movement == p.movement && updates == AllAsBytes(p.updates)
    ensures bytes == EncodeAll(PlanPackets(p, tab))
  {
    hide PlanFits, PlanPackets, EncodeAll, UpdateSized, Short, PutU32, PutWords, FrameBody, OperationPacket, UpdateOperation, AsBytes, WireFrame;
    ghost var ps := PlanPackets(p, tab);
    PlanFitsQueue(p, tab);
    PlanPacketEnds(p, tab);
    PlanFrame(p);
    var output := new Buffer(MAX_PAYLOAD);
    assert ps[..0] == [];
    FlatOne(FrameBody(frame));
    assert output.bytes == EncodeAll(ps[..0]) by { EncodeNothing(); }
    WriteNext(output, WIRE_FRAME, tab, [FrameBody(frame)], ps, 0);
    ghost var at: nat := 1;
    if movement.Some? {
      var m := movement.value;
      FlatOne(PutWords([m.source, m.destination, m.count]));
      WriteNext(output, WIRE_COPY_ROWS, tab, [PutWords([m.source, m.destination, m.count])], ps, 1);
      at := 2;
    }
    for i := 0 to |updates|
      invariant fresh(output) && output.Valid() && output.limit == MAX_PAYLOAD
      invariant at + i < |ps| && output.bytes == EncodeAll(ps[..at + i])
    {
      PlanPacketAt(p, tab, i);
      UpdateParts(p.updates[i], p.frame.columns, tab);
      var u := updates[i];
      if u.span.Some? {
        var (first, end) := u.span.value;
        WriteNext(output, WIRE_ROW_SPAN, tab, [PutU32(u.row), PutU32(first / CELL_BYTES), u.bytes[first..end]], ps, at + i);
      } else {
        WriteNext(output, WIRE_ROW, tab, [PutU32(u.row), u.bytes], ps, at + i);
      }
    }
    FlatOne<byte>([]);
    WriteNext(output, WIRE_FRAME_FINISH, tab, [[]], ps, |ps| - 1);
    assert ps[..|ps|] == ps;
    bytes := output.bytes;
  }

  lemma PlanFrame(p: Plan)
    requires PlanFits(p)
    ensures WireFrame(p.frame) && 1 <= p.frame.columns <= MAX_COLUMNS
    ensures p.movement.Some? ==> InBounds(p.movement.value, MAX_ROWS)
    ensures |MoveOperations(p.movement)| == if p.movement.Some? then 1 else 0
  {
  }

  // ---- Updating the buffer in place ----

  lemma MoveHolds(bytes: seq<byte>, rows: seq<Row>, columns: nat, m: Move)
    requires Holds(bytes, rows, columns) && InBounds(m, |rows|)
    ensures var width := columns * CELL_BYTES;
      && m.source * width <= (m.source + m.count) * width <= |bytes|
      && m.destination * width + ((m.source + m.count) * width - m.source * width) <= |bytes|
      && Holds(CopyWithin(bytes, m.source * width, (m.source + m.count) * width, m.destination * width), MoveRows(rows, Some(m)), columns)
  {
    hide EncodeRow, Flat;
    EncodedRowsUniform(rows, columns);
    FlatCopy(EncodedRows(rows), columns * CELL_BYTES, m.source, m.source + m.count, m.destination);
    MoveRowsUniform(rows, Some(m), columns);
    assert EncodedRows(MoveRows(rows, Some(m))) == CopyWithin(EncodedRows(rows), m.source, m.source + m.count, m.destination);
  }

  lemma OverwriteHolds(bytes: seq<byte>, rows: seq<Row>, columns: nat, r: nat, row: Row)
    requires Holds(bytes, rows, columns) && r < |rows| && |row| == columns
    ensures var width := columns * CELL_BYTES;
      && r * width <= (r + 1) * width <= |bytes|
      && Holds(bytes[..r * width] + EncodeRow(row) + bytes[(r + 1) * width..], rows[r := row], columns)
  {
    hide EncodeRow, Flat;
    var width, was := columns * CELL_BYTES, EncodedRows(rows);
    EncodedRowsUniform(rows, columns);
    FlatSplice(was, width, r, 0, EncodeRow(row));
    Distribute(r, 1, width);
    assert was[r][..0] + EncodeRow(row) + was[r][0 + |EncodeRow(row)|..] == EncodeRow(row);
    assert EncodedRows(rows[r := row]) == was[r := EncodeRow(row)];
  }

  lemma EncodeDecoded(b: seq<byte>, offset: nat)
    requires offset + CELL_BYTES <= |b|
    ensures EncodeCell(CellAt(b, offset)) == b[offset..offset + CELL_BYTES]
  {
    hide GetU32, PutU32;
    PutGet(b[offset..offset + 4]);
    PutGet(b[offset + 4..offset + 8]);
    PutGet(b[offset + 8..offset + 12]);
    PutGet(b[offset + 12..offset + 16]);
  }

  lemma {:induction false} FlatChunks<T>(s: seq<T>, width: nat, count: nat)
    requires |s| == count * width
    ensures Flat(Chunks(s, width, count)) == s
    decreases count
  {
    if count > 0 {
      Distribute(1, count - 1, width);
      FlatChunks(s[width..], width, count - 1);
    }
  }

  lemma RowOfBytes(b: seq<byte>, count: nat)
    requires |b| == count * CELL_BYTES
    ensures EncodeRow(DecodeCells(b, count)) == b
  {
    hide EncodeCell, CellAt, Chunks, Flat;
    forall i | 0 <= i < count
      ensures EncodedCells(DecodeCells(b, count))[i] == Chunks(b, CELL_BYTES, count)[i]
    {
      EncodeDecoded(b, i * CELL_BYTES);
      ChunkAt(b, CELL_BYTES, count, i);
    }
    assert EncodedCells(DecodeCells(b, count)) == Chunks(b, CELL_BYTES, count);
    FlatChunks(b, CELL_BYTES, count);
  }

  /** Any buffer of a geometry's size holds some rows of that geometry. */
  lemma AnyHolds(bytes: seq<byte>, count: nat, columns: nat) returns (rows: seq<Row>)
    requires |bytes| == count * (columns * CELL_BYTES)
    ensures |rows| == count && Holds(bytes, rows, columns)
  {
    hide Chunks, Flat, EncodeRow, DecodeCells;
    var parts := Chunks(bytes, columns * CELL_BYTES, count);
    rows := seq(count, r requires 0 <= r < count => DecodeCells(parts[r], columns));
    forall r | 0 <= r < count
      ensures EncodedRows(rows)[r] == parts[r]
    {
      RowOfBytes(parts[r], columns);
    }
    assert EncodedRows(rows) == parts;
    FlatChunks(bytes, columns * CELL_BYTES, count);
  }

  /** Grow with zeros or truncate to a geometry; the content is some rows of it. */
  method Resize(bytes: seq<byte>, ghost columns: nat, ghost count: nat, f: Frame) returns (after: seq<byte>, ghost start: seq<Row>)
    requires f.columns == columns && f.rows == count
    ensures |start| == count && Holds(after, start, columns)
  {
    hide Holds;
    var size := f.rows * (f.columns * CELL_BYTES);
    after := if |bytes| >= size then bytes[..size] else bytes + seq(size - |bytes|, _ => 0);
    start := AnyHolds(after, f.rows, f.columns);
  }

  method MoveBytes(bytes: seq<byte>, movement: Option<Move>, width: nat, ghost rows: seq<Row>, ghost columns: nat) returns (after: seq<byte>)
    requires Holds(bytes, rows, columns) && MoveFits(movement, |rows|) && width == columns * CELL_BYTES
    ensures Holds(after, MoveRows(rows, movement), columns)
  {
    hide Holds, MoveRows;
    after := bytes;
    if movement.Some? {
      var m := movement.value;
      MoveHolds(bytes, rows, columns, m);
      after := CopyWithin(bytes, m.source * width, (m.source + m.count) * width, m.destination * width);
    } else {
      Unmoved(rows);
    }
  }

  /** Replace the updated rows of a buffer, each as a whole. */
  method Overwrite(bytes: seq<byte>, updates: seq<ByteUpdate>, width: nat, ghost rows: seq<Row>, ghost us: seq<Update>, ghost columns: nat)
    returns (after: seq<byte>)
    requires Holds(bytes, rows, columns) && width == columns * CELL_BYTES && updates == AllAsBytes(us)
    requires forall u | u in us :: u.row < |rows| && |u.cells| == columns
    ensures Holds(after, OverwriteRows(rows, us), columns)
  {
    hide Holds, EncodeRow, OverwriteRows;
    after := bytes;
    assert us[..0] == [];
    OverwriteNothing(rows);
    for i := 0 to |updates|
      invariant Holds(after, OverwriteRows(rows, us[..i]), columns)
    {
      var u := updates[i];
      assert us[i] in us && us[..i + 1] == us[..i] + [us[i]];
      OverwriteNext(rows, us[..i], us[i]);
      OverwriteHolds(after, OverwriteRows(rows, us[..i]), columns, u.row, us[i].cells);
      after := after[..u.row * width] + u.bytes + after[(u.row + 1) * width..];
    }
    assert us[..|us|] == us;
  }

  lemma OverwriteNothing(rows: seq<Row>)
    ensures OverwriteRows(rows, []) == rows
  {
  }

  // ---- The baseline object ----

  /** What a search may have returned: the best candidate by hash, kept only if its bytes agree. */
  ghost predicate Searched(s: Screen, e: Engine, full: bool, features: u32, hash: seq<byte> -> int, m: Option<Move>, candidate: Option<Move>)
    requires ValidEngine(e)
  {
    if SearchMove(s, e, full, features) then
      var was, now := EncodedRows(s.rows), EncodedRows(e.rows);
      && Chosen(Hashes(was, hash), Hashes(now, hash), ChangedRows(was, now), candidate)
      && m == if candidate.Some? && Exact(s.rows, e.rows, candidate.value) then candidate else None
    else m == None
  }

  /** A plan on bytes is a plan on cells, its packets written out. */
  ghost predicate Matches(b: BytePrepared, p: Prepared, tab: u32) {
    match p
    case Hold => b == Holding
    case Same => b == Idle
    case Changed(p) =>
      PlanFits(p) && b == Built(BytePlan(p.frame, p.full, p.movement, AllAsBytes(p.updates), EncodeAll(PlanPackets(p, tab))))
  }

  lemma SearchedAllowed(s: Screen, e: Engine, full: bool, features: u32, hash: seq<byte> -> int, m: Option<Move>, candidate: Option<Move>)
    requires ValidEngine(e) && Searched(s, e, full, features, hash, m, candidate)
    ensures MoveAllowed(s, e, full, features, m)
  {
    hide SearchMove, Chosen, EncodedRows;
  }

  function BaseColumns(s: Screen): nat
    requires ValidScreen(s)
  {
    if s.rows == [] then 0 else s.frame.columns
  }

  class ScreenBuffer {
    var frame: Frame
    var bytes: seq<byte>

    /** The rows the bytes encode. */
    ghost var rows: seq<Row>

    ghost function Value(): Screen
      reads this
    {
      Screen(frame, rows)
    }

    ghost predicate Valid()
      reads this
    {
      ValidScreen(Value()) && Holds(bytes, rows, BaseColumns(Value()))
    }

    constructor ()
      ensures Valid() && Value() == NO_SCREEN && bytes == []
    {
      frame, bytes, rows := NO_SCREEN.frame, [], [];
    }

    /** The move search on the stored bytes, when damage is heavy enough to look. */
    method Search(search: bool, current: seq<Option<seq<byte>>>, width: nat, hash: seq<byte> -> int,
                  ghost e: Engine, ghost full: bool, ghost features: u32)
      returns (m: Option<Move>, ghost candidate: Option<Move>)
      requires Valid() && ValidEngine(e) && Uniform(e.rows, e.columns)
      requires search == SearchMove(Value(), e, full, features) && width == e.columns * CELL_BYTES
      requires search ==> |current| == |e.rows| && forall r | 0 <= r < |current| :: current[r] == Some(EncodeRow(e.rows[r]))
      ensures Searched(Value(), e, full, features, hash, m, candidate)
    {
      hide EncodeRow, Flat, Covered, ValidRow, Exact, Chosen, Hashes, ChangedRows, Has;
      m, candidate := None, None;
      if search {
        HoldsLength(bytes, rows, e.columns);
        EncodedRowsUniform(rows, e.columns);
        ChunksFlat(EncodedRows(rows), width);
        ghost var now := seq(|current|, r requires 0 <= r < |current| => current[r].value);
        assert now == EncodedRows(e.rows);
        m, candidate := FindMove(bytes, current, width, hash);
        if candidate.Some? {
          ExactBytes(rows, e.rows, e.columns, candidate.value);
        }
      }
    }

    /** Whether a full frame is needed, and whether damage is heavy enough to look for a move. */
    method Wanted(f: Frame, dirty: seq<bool>, full: bool, features: u32, ghost e: Engine) returns (whole: bool, search: bool)
      requires Valid() && ValidEngine(e) && f == FrameOf(e) && dirty == e.dirty
      ensures whole == NeedsFull(Value(), e, full) && search == SearchMove(Value(), e, full, features)
    {
      hide EncodeRow, Flat, Has, ValidRow, Holds;
      FullTest(bytes, Value(), e, full);
      whole := full || frame.columns != f.columns || |bytes| != f.rows * (f.columns * CELL_BYTES);
      var count := CountDirty(dirty);
      search := !whole && Has(features, FEATURE_COPY_ROWS) && count >= 3 && count * 2 >= f.rows;
    }

    /** The move and the updates of the plan the specification makes. */
    method Assemble(engine: TermEngine, width: nat, whole: bool, search: bool, features: u32, hash: seq<byte> -> int,
                    ghost e: Engine, ghost full: bool)
      returns (m: Option<Move>, updates: seq<ByteUpdate>, ghost candidate: Option<Move>)
      requires Valid() && e == engine.Value() && Replicable(Value(), e) && width == e.columns * CELL_BYTES
      requires whole == NeedsFull(Value(), e, full) && search == SearchMove(Value(), e, full, features)
      ensures Searched(Value(), e, full, features, hash, m, candidate) && MoveAllowed(Value(), e, full, features, m)
      ensures var p := MakePlan(Value(), e, full, features, m); m == p.movement && updates == AllAsBytes(p.updates)
    {
      hide EncodeRow, Flat, Covered, Has, Exact, FullUpdates, DeltaUpdates, AllAsBytes, Searched, Undamaged, Holds, ValidRow;
      var current := CurrentRows(engine.rows, engine.dirty, whole || search);
      EngineUniform(e);
      m, candidate := Search(search, current, width, hash, e, full, features);
      SearchedAllowed(Value(), e, full, features, hash, m, candidate);
      if !whole {
        MovedBase(Value(), e, full, features, m);
      }
      updates := PlanUpdates(bytes, current, engine.dirty, width, whole, features, m, e, rows);
    }

    /** Plan from the stored bytes; an unchanged viewport acknowledges its damage at once. */
    method Prepare(engine: TermEngine, tab: u32, full: bool, features: u32, reply: bool, now: int, hash: seq<byte> -> int)
      returns (r: Option<BytePrepared>, m: Option<Move>, ghost candidate: Option<Move>)
      requires Valid() && Replicable(Value(), engine.Value())
      modifies engine
      ensures r.None? <==> now < old(engine.now)
      ensures r.None? ==> unchanged(engine)
      ensures r.Some? ==>
        var s, e := Value(), Looked(old(engine.Value()), now);
        && Replicable(s, e) && MoveAllowed(s, e, full, features, m)
        && (e.gate.deadline == 0 ==> Searched(s, e, full, features, hash, m, candidate))
        && Matches(r.value, Frames.Prepare(s, e, full, features, reply, m), tab)
        && engine.Value() == if Frames.Prepare(s, e, full, features, reply, m).Same? then Cleaned(e) else e
    {
      hide EncodeRow, Flat, PlanFits, PlanPackets, EncodeAll, AllAsBytes, Searched, Undamaged, Holds, GateDelay, SearchMove,
        MoveAllowed, MakePlan, ValidEngine, ValidScreen;
      m, candidate := None, None;
      ghost var s := Value();
      var seen := engine.FrameAt(now);
      if seen.None? {
        return None, None, None;
      }
      ghost var e := engine.Value();
      LookedReplicable(s, old(engine.Value()), now);
      var f := seen.value;
      if f.redrawDeadline != 0 {
        NoMove(s, e, full, features);
        return Some(Holding), None, None;
      }
      var whole, search := Wanted(f, engine.dirty, full, features, e);
      var updates;
      m, updates, candidate := Assemble(engine, f.columns * CELL_BYTES, whole, search, features, hash, e, full);
      ghost var p := MakePlan(s, e, full, features, m);
      PlanShape(s, e, full, features, m);
      if !whole && m.None? && updates == [] && SameFrame(f, frame) && !reply {
        var ok := engine.Clean();
        return Some(Idle), m, candidate;
      }
      PlanIsSized(s, e, full, features, m);
      PlanSpansNarrow(s, e, full, features, m);
      var packets := WritePackets(f, m, updates, tab, p);
      r := Some(Built(BytePlan(f, whole, m, updates, packets)));
    }

    /** Resize, move and overwrite the stored bytes. */
    method Install(plan: BytePlan, ghost e: Engine, ghost full: bool, ghost features: u32, ghost m: Option<Move>)
      requires Valid() && Replicable(Value(), e) && MoveAllowed(Value(), e, full, features, m)
      requires var p := MakePlan(Value(), e, full, features, m);
        plan.frame == p.frame && plan.full == p.full && plan.movement == p.movement && plan.updates == AllAsBytes(p.updates)
      modifies this
      ensures Valid() && Value() == Screen(plan.frame, e.rows)
    {
      hide EncodeRow, Flat, AllAsBytes, OverwriteRows, MoveAllowed, Undamaged, Holds, MoveRows, FullUpdates, DeltaUpdates, ValidRow, Has,
        MakePlan, NeedsFull;
      ghost var s, p := Value(), MakePlan(Value(), e, full, features, m);
      PlanShape(s, e, full, features, m);
      var width := plan.frame.columns * CELL_BYTES;
      var after := bytes;
      ghost var start := rows;
      if plan.full {
        after, start := Resize(bytes, e.columns, |e.rows|, plan.frame);
      } else {
        MovedBase(s, e, full, features, m);
      }
      HeldUniform(after, start, e.columns);
      UpdatesInstall(s, e, full, features, m, start);
      after := MoveBytes(after, plan.movement, width, start, e.columns);
      after := Overwrite(after, plan.updates, width, MoveRows(start, plan.movement), p.updates, e.columns);
      bytes, frame := after, plan.frame;
      rows := e.rows;
      assert Valid() by { InstalledValid(Value(), e, after); }
    }

    /** The only publication point: a rejected queue leaves damage and baseline intact. */
    method Commit(plan: BytePlan, output: Queue, engine: TermEngine, ghost full: bool, ghost features: u32, ghost m: Option<Move>)
      returns (ok: bool)
      requires Valid() && output.Valid() && Replicable(Value(), engine.Value()) && engine.deadline == 0
      requires MoveAllowed(Value(), engine.Value(), full, features, m)
      requires var p := MakePlan(Value(), engine.Value(), full, features, m);
        plan.frame == p.frame && plan.full == p.full && plan.movement == p.movement && plan.updates == AllAsBytes(p.updates)
      modifies this, output, engine
      ensures Valid() && output.Valid()
      ensures ok <==> |plan.bytes| <= old(output.Remaining())
      ensures !ok ==> unchanged(this) && unchanged(output) && unchanged(engine)
      ensures ok ==> Value() == Screen(plan.frame, old(engine.Value()).rows) && engine.Value() == Cleaned(old(engine.Value()))
      ensures ok ==> output.Pending() == old(output.Pending()) + plan.bytes && output.appended == old(output.appended) + plan.bytes
    {
      hide Replicable, MoveAllowed, MakePlan, AllAsBytes, ValidScreen, Holds;
      ok := output.AppendOwned(plan.bytes);
      if ok {
        Install(plan, engine.Value(), full, features, m);
        assert ValidEngine(engine.Value()) by { ReplicableEngine(Screen(old(frame), old(rows)), engine.Value()); }
        var cleaned := engine.Clean();
      }
    }

    /** One replication attempt on bytes is the specified attempt on cells, packet for packet. */
    method ReplicateEncoded(engine: TermEngine, output: Queue, tab: u32, full: bool, features: u32, reply: bool, now: int, hash: seq<byte> -> int)
      returns (outcome: Option<Outcome>, m: Option<Move>, ghost candidate: Option<Move>)
      requires Valid() && output.Valid() && Replicable(Value(), engine.Value())
      modifies this, output, engine
      ensures Valid() && output.Valid()
      ensures outcome.None? <==> now < old(engine.now)
      ensures outcome.None? ==> unchanged(this) && unchanged(output) && unchanged(engine)
      ensures outcome.Some? ==>
        var s, e, room := old(Value()), Looked(old(engine.Value()), now), old(output.Remaining());
        && Replicable(s, e) && MoveAllowed(s, e, full, features, m)
        && (e.gate.deadline == 0 ==> Searched(s, e, full, features, hash, m, candidate))
        && var r := Replicate(s, e, room, tab, full, features, reply, m);
           && outcome.value == r.outcome && Value() == r.screen && engine.Value() == r.engine
           && output.Pending() == old(output.Pending()) + EncodeAll(r.packets)
           && output.appended == old(output.appended) + EncodeAll(r.packets)
    {
      hide Replicable, MoveAllowed, MakePlan, AllAsBytes, Holds, Searched, PlanFits, PlanPackets, Looked, GateDelay, Frames.Commit;
      ghost var s := Value();
      EncodeNothing();
      assert output.Pending() + [] == output.Pending() && output.appended + [] == output.appended;
      var prepared;
      prepared, m, candidate := Prepare(engine, tab, full, features, reply, now, hash);
      if prepared.None? {
        return None, m, candidate;
      }
      ghost var e := Looked(old(engine.Value()), now);
      match prepared.value
      case Holding =>
        if full {
          bytes := [];
          rows := [];
          assert Valid() by { EmptyHolds(frame); }
        }
        outcome := Some(Held);
      case Idle =>
        outcome := Some(Unchanged);
      case Built(plan) =>
        PlanIsSized(s, e, full, features, m);
        PlanShape(s, e, full, features, m);
        CommitInstalls(s, e, full, features, m);
        var ok := Commit(plan, output, engine, full, features, m);
        outcome := Some(if ok then Sent else Refused);
    }
  }

  /** Whatever rows of the right shape the buffer holds, the move and the whole updated rows give the engine's. */
  lemma UpdatesInstall(s: Screen, e: Engine, full: bool, features: u32, m: Option<Move>, start: seq<Row>)
    requires Replicable(s, e) && MoveAllowed(s, e, full, features, m)
    requires |start| == |e.rows| && Uniform(start, e.columns) && (!NeedsFull(s, e, full) ==> start == s.rows)
    ensures var p := MakePlan(s, e, full, features, m);
      && MoveFits(p.movement, |start|) && Uniform(MoveRows(start, p.movement), e.columns)
      && (forall u | u in p.updates :: u.row < |start| && |u.cells| == e.columns)
      && OverwriteRows(MoveRows(start, p.movement), p.updates) == e.rows
  {
    hide FullUpdates, DeltaUpdates, OverwriteRows, ValidRow, Covered, Exact, RebuiltTo, ApplyAll, UpdateOperations, Has, Undamaged;
    var p := MakePlan(s, e, full, features, m);
    if NeedsFull(s, e, full) {
      FullRebuilds(start, e, |e.rows|);
      RebuiltAll(start, OverwriteRows(start, p.updates), e);
    } else {
      BaselineIsDeltaBase(s, e, full, features, m);
      DeltaRebuilds(s.rows, e, features, m, |e.rows|);
      DeltaOverwrites(s.rows, e, features, m, |e.rows|);
      RebuiltAll(MoveRows(start, m), OverwriteRows(MoveRows(start, m), p.updates), e);
    }
  }

  lemma Unmoved(rows: seq<Row>)
    ensures MoveRows(rows, None) == rows
  {
  }

  lemma HeldUniform(bytes: seq<byte>, rows: seq<Row>, columns: nat)
    requires Holds(bytes, rows, columns)
    ensures Uniform(rows, columns)
  {
  }

  lemma InstalledValid(s: Screen, e: Engine, bytes: seq<byte>)
    requires ValidEngine(e) && s.rows == e.rows && s.frame == FrameOf(e) && Holds(bytes, e.rows, e.columns)
    ensures ValidScreen(s) && Holds(bytes, s.rows, BaseColumns(s))
  {
  }

  lemma EmptyHolds(frame: Frame)
    ensures ValidScreen(Screen(frame, [])) && Holds([], [], BaseColumns(Screen(frame, [])))
  {
  }

  lemma CommitInstalls(s: Screen, e: Engine, full: bool, features: u32, m: Option<Move>)
    requires Replicable(s, e) && e.gate.deadline == 0 && MoveAllowed(s, e, full, features, m)
    ensures var p := MakePlan(s, e, full, features, m);
      PlanFits(p) && (!p.full ==> |s.rows| == p.frame.rows) && Frames.Commit(s, p) == Screen(p.frame, e.rows)
  {
    hide FullUpdates, DeltaUpdates, ValidRow, Covered, Exact, Has, Undamaged, CommitRows, PlanOperations, ApplyAll;
    EngineUniform(e);
    PlanIsSized(s, e, full, features, m);
    PlanRebuilds(s, e, full, features, m, if NeedsFull(s, e, full) then e.rows else s.rows);
  }

  lemma NoMove(s: Screen, e: Engine, full: bool, features: u32)
    requires ValidEngine(e)
    ensures MoveAllowed(s, e, full, features, None)
  {
  }

  lemma PlanShape(s: Screen, e: Engine, full: bool, features: u32, m: Option<Move>)
    requires Replicable(s, e) && MoveAllowed(s, e, full, features, m)
    ensures var p := MakePlan(s, e, full, features, m); p.full == NeedsFull(s, e, full) && p.frame == FrameOf(e)
    ensures e.columns >= 0 && |AllAsBytes(MakePlan(s, e, full, features, m).updates)| == |MakePlan(s, e, full, features, m).updates|
  {
  }

  lemma EngineUniform(e: Engine)
    requires ValidEngine(e)
    ensures Uniform(e.rows, e.columns)
  {
  }

  /** What a delta is planned against, as the planner needs it. */
  lemma MovedBase(s: Screen, e: Engine, full: bool, features: u32, m: Option<Move>)
    requires Replicable(s, e) && MoveAllowed(s, e, full, features, m) && !NeedsFull(s, e, full)
    ensures |s.rows| == |e.rows| && MoveFits(m, |s.rows|) && Uniform(s.rows, e.columns) && s.rows != []
    ensures BaseColumns(s) == e.columns
  {
    hide Covered, Has;
    BaselineIsDeltaBase(s, e, full, features, m);
  }
}
