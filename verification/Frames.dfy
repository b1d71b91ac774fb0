/**
 Delta planning and the single publication point. The baseline describes what has been queued to the
 controlling client, never merely what the engine shows; a plan turns it into what the engine shows.
 */
module Frames {
  import opened Bytes
  import opened Grids
  import opened Cells
  import opened Engines
  import opened Framing
  import opened Deltas
  import opened Viewports
  import opened Moves

  const FEATURE_COPY_ROWS: u32 := 1
  const FEATURE_ROW_SPAN: u32 := 8

  predicate Has(features: u32, feature: u32)
    requires feature > 0
  {
    features / feature % 2 == 1
  }

  /** The queued baseline of one tab; `rows` is empty when nothing is known to be with the client. */
  datatype Screen = Screen(frame: Frame, rows: seq<Row>)

  const NO_SCREEN: Screen := Screen(Frame(0, 0, 0, 0, 0, 0, 0), [])

  predicate ValidScreen(s: Screen) {
    s.rows != [] ==> |s.rows| == s.frame.rows && s.frame.columns >= 1 && Uniform(s.rows, s.frame.columns)
  }

  predicate SameFrame(a: Frame, b: Frame) {
    a.(redrawDeadline := 0) == b.(redrawDeadline := 0)
  }

  datatype Update = Update(row: nat, cells: Row, span: Option<(nat, nat)>)

  datatype Plan = Plan(frame: Frame, full: bool, movement: Option<Move>, updates: seq<Update>)

  datatype Prepared = Hold | Same | Changed(plan: Plan)

  // ---- Where two rows differ ----

  /** The first differing cell, from one position on. */
  function FirstDifference(a: Row, b: Row, from: nat): (k: nat)
    requires |a| == |b| && from <= |a| && a[from..] != b[from..]
    ensures from <= k < |a| && a[k] != b[k]
    ensures forall i | from <= i < k :: a[i] == b[i]
    decreases |a| - from
  {
    if a[from] != b[from] then from else FirstDifference(a, b, from + 1)
  }

  /** One past the last differing cell before one position. */
  function EndOfDifference(a: Row, b: Row, end: nat): (k: nat)
    requires |a| == |b| && end <= |a| && a[..end] != b[..end]
    ensures 0 < k <= end && a[k - 1] != b[k - 1]
    ensures forall i | k <= i < end :: a[i] == b[i]
  {
    if a[end - 1] != b[end - 1] then end else EndOfDifference(a, b, end - 1)
  }

  // ---- Planning ----

  predicate NeedsFull(s: Screen, e: Engine, full: bool) {
    full || s.frame.columns != e.columns || |s.rows| != |e.rows|
  }

  /** The row of the old baseline that holds a row's content after the move. */
  function BaselineRow(m: Option<Move>, row: nat): nat {
    if m.Some? && m.value.destination <= row < m.value.destination + m.value.count
    then m.value.source + (row - m.value.destination)
    else row
  }

  predicate MoveFits(m: Option<Move>, rows: nat) {
    m.Some? ==> InBounds(m.value, rows)
  }

  function SpanFor(before: Row, now: Row, features: u32): (span: Option<(nat, nat)>)
    requires |before| == |now| && before != now
    ensures span.Some? ==> span.value.0 < span.value.1 <= |now| && span.value.1 - span.value.0 < |now|
  {
    if !Has(features, FEATURE_ROW_SPAN) then None
    else
      assert now[0..] == now[..|now|] == now && before[0..] == before[..|now|] == before;
      var first, end := FirstDifference(now, before, 0), EndOfDifference(now, before, |now|);
      assert first < end;
      if (end - first) * CELL_BYTES + 4 < |now| * CELL_BYTES then Some((first, end)) else None
  }

  /** What a delta sends for one row, given the baseline row it is compared with. */
  function DeltaUpdate(before: Row, e: Engine, features: u32, row: nat): (u: Option<Update>)
    requires ValidEngine(e) && row < |e.rows| && |before| == e.columns
  {
    if !e.dirty[row] || e.rows[row] == before then None
    else Some(Update(row, e.rows[row], SpanFor(before, e.rows[row], features)))
  }

  function DeltaUpdates(base: seq<Row>, e: Engine, features: u32, m: Option<Move>, upTo: nat): (us: seq<Update>)
    requires ValidEngine(e) && |base| == |e.rows| && Uniform(base, e.columns) && MoveFits(m, |base|)
    requires upTo <= |e.rows|
    ensures |us| <= upTo
    ensures forall u | u in us :: UpdateFits(u, e)
  {
    if upTo == 0 then []
    else
      var u := DeltaUpdate(base[BaselineRow(m, upTo - 1)], e, features, upTo - 1);
      DeltaUpdates(base, e, features, m, upTo - 1) + (if u.Some? then [u.value] else [])
  }

  predicate UpdateFits(u: Update, e: Engine) {
    && u.row < |e.rows| && u.cells == e.rows[u.row]
    && (u.span.Some? ==> u.span.value.0 < u.span.value.1 <= |u.cells|)
  }

  function FullUpdates(e: Engine, upTo: nat): (us: seq<Update>)
    requires ValidEngine(e) && upTo <= |e.rows|
    ensures |us| == upTo
    ensures forall u | u in us :: UpdateFits(u, e)
  {
    seq(upTo, r requires 0 <= r < upTo => Update(r, e.rows[r], None))
  }

  /** Whether damage is heavy enough to look for a moved block. */
  predicate SearchMove(s: Screen, e: Engine, full: bool, features: u32)
    requires ValidEngine(e)
  {
    !NeedsFull(s, e, full) && Has(features, FEATURE_COPY_ROWS) &&
    Covered(e.dirty, 0, |e.dirty|) >= 3 && Covered(e.dirty, 0, |e.dirty|) * 2 >= |e.rows|
  }

  /** A move the search may return here: none unless searching, and then only a byte-exact one. */
  predicate MoveAllowed(s: Screen, e: Engine, full: bool, features: u32, m: Option<Move>)
    requires ValidEngine(e)
  {
    m.Some? ==> SearchMove(s, e, full, features) && Exact(s.rows, e.rows, m.value)
  }

  function MakePlan(s: Screen, e: Engine, full: bool, features: u32, m: Option<Move>): (p: Plan)
    requires ValidEngine(e) && ValidScreen(s) && MoveAllowed(s, e, full, features, m)
  {
    if NeedsFull(s, e, full) then Plan(FrameOf(e), true, None, FullUpdates(e, |e.rows|))
    else Plan(FrameOf(e), false, m, DeltaUpdates(s.rows, e, features, m, |e.rows|))
  }

  function Prepare(s: Screen, e: Engine, full: bool, features: u32, reply: bool, m: Option<Move>): (r: Prepared)
    requires ValidEngine(e) && ValidScreen(s) && MoveAllowed(s, e, full, features, m)
  {
    if e.gate.deadline != 0 then Hold
    else
      var p := MakePlan(s, e, full, features, m);
      if !p.full && p.movement.None? && p.updates == [] && SameFrame(p.frame, s.frame) && !reply then Same
      else Changed(p)
  }

  // ---- What a plan means to the client ----

  function UpdateOperation(u: Update): (op: Operation)
    requires u.span.Some? ==> u.span.value.0 <= u.span.value.1 <= |u.cells|
  {
    match u.span
    case None => Span(u.row, 0, u.cells)
    case Some(span) => Span(u.row, span.0, u.cells[span.0..span.1])
  }

  predicate PlanFits(p: Plan) {
    && WireFrame(p.frame)
    && MoveFits(p.movement, p.frame.rows)
    && |p.updates| <= p.frame.rows
    && forall u | u in p.updates :: UpdateSized(u, p.frame.columns, p.frame.rows)
  }

  predicate UpdateSized(u: Update, columns: nat, rows: nat) {
    && u.row < rows && |u.cells| == columns
    && (u.span.Some? ==> u.span.value.0 < u.span.value.1 <= |u.cells|)
    && forall i | 0 <= i < |u.cells| :: u.cells[i].attributes < 0x1_0000
  }

  function MoveOperations(m: Option<Move>): (ops: seq<Operation>) {
    if m.None? then [] else [Copy(m.value.source, m.value.destination, m.value.count)]
  }

  function UpdateOperations(us: seq<Update>, columns: nat, rows: nat): (ops: seq<Operation>)
    requires columns > 0 && forall u | u in us :: UpdateSized(u, columns, rows)
    ensures |ops| == |us| && AllFit(ops, columns, rows) && NarrowAttributes(ops)
    ensures forall op | op in ops :: op.Span? && |op.cells| <= columns
  {
    if us == [] then []
    else
      var last := |us| - 1;
      assert us[last] in us && UpdateSized(us[last], columns, rows);
      UpdateOperations(us[..last], columns, rows) + [UpdateOperation(us[last])]
  }

  function PlanOperations(p: Plan): (ops: seq<Operation>)
    requires PlanFits(p)
    ensures AllFit(ops, p.frame.columns, p.frame.rows) && NarrowAttributes(ops)
  {
    MoveOperations(p.movement) + UpdateOperations(p.updates, p.frame.columns, p.frame.rows)
  }

  /** The packets of a plan, in the order they are written. */
  function PlanPackets(p: Plan, tab: u32): (ps: seq<Packet>)
    requires PlanFits(p)
    ensures AllSendable(ps)
  {
    FramePackets(p.frame, PlanOperations(p), tab)
  }

  // ---- The daemon's own update of its baseline ----

  function OverwriteRows(rows: seq<Row>, us: seq<Update>): (r: seq<Row>)
    requires forall u | u in us :: u.row < |rows|
    ensures |r| == |rows|
  {
    if us == [] then rows
    else
      var last := |us| - 1;
      assert us[last] in us;
      OverwriteRows(rows, us[..last])[us[last].row := us[last].cells]
  }

  function MoveRows(rows: seq<Row>, m: Option<Move>): (r: seq<Row>)
    requires MoveFits(m, |rows|)
    ensures |r| == |rows|
  {
    if m.None? then rows
    else CopyWithin(rows, m.value.source, m.value.source + m.value.count, m.value.destination)
  }

  /** Resize when full, then move, then overwrite the updated rows with their whole contents. */
  function CommitRows(rows: seq<Row>, p: Plan): (r: seq<Row>)
    requires PlanFits(p) && (!p.full ==> |rows| == p.frame.rows)
  {
    var sized := if p.full then seq(p.frame.rows, _ => seq(p.frame.columns, _ => Cell(0, 0, 0, 0))) else rows;
    OverwriteRows(MoveRows(sized, p.movement), p.updates)
  }

  function Commit(s: Screen, p: Plan): (r: Screen)
    requires PlanFits(p) && (!p.full ==> |s.rows| == p.frame.rows)
  {
    Screen(p.frame, CommitRows(s.rows, p))
  }

  // ---- The damage invariant and what planning needs of it ----

  /** A row the engine does not flag is, where a baseline exists, the row the baseline holds. */
  predicate Undamaged(s: Screen, e: Engine)
    requires ValidEngine(e)
  {
    s.rows != [] ==>
      forall r | 0 <= r < |e.rows| && !e.dirty[r] :: r < |s.rows| && s.rows[r] == e.rows[r]
  }

  /** The baseline's content under the chosen move, row by row. */
  lemma MovedRow(rows: seq<Row>, m: Option<Move>, r: nat)
    requires MoveFits(m, |rows|) && r < |rows|
    ensures BaselineRow(m, r) < |rows|
    ensures MoveRows(rows, m)[r] == rows[BaselineRow(m, r)]
  {
  }

  lemma SpanRebuilds(before: Row, now: Row, features: u32)
    requires |before| == |now| && before != now
    ensures var span := SpanFor(before, now, features);
      if span.None? then SpliceRow(before, 0, now) == now
      else SpliceRow(before, span.value.0, now[span.value.0..span.value.1]) == now
  {
    var span := SpanFor(before, now, features);
    if span.Some? {
      var (first, end) := span.value;
      assert SpliceRow(before, first, now[first..end]) == now;
    }
  }

  /** The first rows are the engine's, the others still those of the start. */
  ghost predicate RebuiltTo(start: seq<Row>, after: seq<Row>, e: Engine, upTo: nat) {
    && |after| == |start| == |e.rows|
    && forall r | 0 <= r < |after| :: after[r] == if r < upTo then e.rows[r] else start[r]
  }

  lemma RebuildRow(start: seq<Row>, after: seq<Row>, e: Engine, features: u32, r: nat)
    requires ValidEngine(e) && r < |e.rows| && RebuiltTo(start, after, e, r)
    requires Uniform(start, e.columns) && Uniform(after, e.columns) && start[r] != e.rows[r]
    ensures var u := Update(r, e.rows[r], SpanFor(start[r], e.rows[r], features));
      && UpdateSized(u, e.columns, |e.rows|)
      && Fits(UpdateOperation(u), e.columns, |e.rows|)
      && RebuiltTo(start, ApplyOperation(after, e.columns, UpdateOperation(u)), e, r + 1)
  {
    SpanRebuilds(start[r], e.rows[r], features);
    hide SpanFor, SpliceRow;
  }

  lemma ApplyNext(rows: seq<Row>, columns: nat, ops: seq<Operation>, op: Operation)
    requires Uniform(rows, columns) && AllFit(ops, columns, |rows|) && Fits(op, columns, |rows|)
    ensures AllFit(ops + [op], columns, |rows|)
    ensures ApplyAll(rows, columns, ops + [op]) == ApplyOperation(ApplyAll(rows, columns, ops), columns, op)
  {
    assert (ops + [op])[..|ops|] == ops;
  }

  lemma UpdateOperationsNext(us: seq<Update>, u: Update, columns: nat, rows: nat)
    requires columns > 0 && UpdateSized(u, columns, rows)
    requires forall v | v in us :: UpdateSized(v, columns, rows)
    ensures forall v | v in us + [u] :: UpdateSized(v, columns, rows)
    ensures UpdateOperations(us + [u], columns, rows) == UpdateOperations(us, columns, rows) + [UpdateOperation(u)]
  {
    assert (us + [u])[..|us|] == us;
  }

  /** A row the plan skips already holds the engine's row once the move is done. */
  lemma KeptRow(base: seq<Row>, e: Engine, m: Option<Move>, r: nat)
    requires ValidEngine(e) && |base| == |e.rows| && r < |e.rows|
    requires MoveFits(m, |base|) && ExactChoice(base, e.rows, m)
    requires !e.dirty[r] ==> base[r] == e.rows[r]
    requires BaselineRow(m, r) < |base| && (!e.dirty[r] || e.rows[r] == base[BaselineRow(m, r)])
    ensures base[BaselineRow(m, r)] == e.rows[r]
  {
    if m.Some? && m.value.destination <= r < m.value.destination + m.value.count {
      assert e.rows[r] == base[m.value.source + (r - m.value.destination)];
    }
  }

  lemma MoveRowsUniform(rows: seq<Row>, m: Option<Move>, columns: nat)
    requires MoveFits(m, |rows|) && Uniform(rows, columns)
    ensures Uniform(MoveRows(rows, m), columns)
  {
  }

  /** What a delta may be planned from. */
  predicate DeltaBase(base: seq<Row>, e: Engine, m: Option<Move>)
    requires ValidEngine(e)
  {
    && |base| == |e.rows| && Uniform(base, e.columns)
    && MoveFits(m, |base|) && ExactChoice(base, e.rows, m)
    && forall r | 0 <= r < |e.rows| && !e.dirty[r] :: base[r] == e.rows[r]
  }

  /** A delta's operations, applied to the moved baseline, install the engine's first rows. */
  ghost predicate DeltaDone(base: seq<Row>, e: Engine, features: u32, m: Option<Move>, upTo: nat)
    requires ValidEngine(e) && DeltaBase(base, e, m) && upTo <= |e.rows|
  {
    var us, start := DeltaUpdates(base, e, features, m, upTo), MoveRows(base, m);
    && Uniform(start, e.columns)
    && (forall u | u in us :: UpdateSized(u, e.columns, |e.rows|))
    && RebuiltTo(start, ApplyAll(start, e.columns, UpdateOperations(us, e.columns, |e.rows|)), e, upTo)
  }

  lemma DeltaUpdatesNext(base: seq<Row>, e: Engine, features: u32, m: Option<Move>, r: nat)
    requires ValidEngine(e) && DeltaBase(base, e, m) && r < |e.rows|
    ensures var before := MoveRows(base, m)[r];
      && |before| == e.columns
      && DeltaUpdates(base, e, features, m, r + 1) == DeltaUpdates(base, e, features, m, r) +
        (if e.dirty[r] && e.rows[r] != before then [Update(r, e.rows[r], SpanFor(before, e.rows[r], features))] else [])
      && (!(e.dirty[r] && e.rows[r] != before) ==> before == e.rows[r])
  {
    hide SpanFor, MoveRows, Exact;
    MovedRow(base, m, r);
    if !(e.dirty[r] && e.rows[r] != MoveRows(base, m)[r]) {
      KeptRow(base, e, m, r);
    }
  }

  lemma DeltaStep(base: seq<Row>, e: Engine, features: u32, m: Option<Move>, r: nat)
    requires ValidEngine(e) && DeltaBase(base, e, m) && r < |e.rows|
    requires DeltaDone(base, e, features, m, r)
    ensures DeltaDone(base, e, features, m, r + 1)
  {
    hide SpanFor, UpdateOperation, ApplyOperation, MoveRows, ValidRow, UpdateSized, Fits, DeltaUpdates, ApplyAll, Exact;
    DeltaUpdatesNext(base, e, features, m, r);
    var start, us := MoveRows(base, m), DeltaUpdates(base, e, features, m, r);
    var ops := UpdateOperations(us, e.columns, |e.rows|);
    if e.dirty[r] && e.rows[r] != start[r] {
      RebuildRow(start, ApplyAll(start, e.columns, ops), e, features, r);
      var u := Update(r, e.rows[r], SpanFor(start[r], e.rows[r], features));
      UpdateOperationsNext(us, u, e.columns, |e.rows|);
      ApplyNext(start, e.columns, ops, UpdateOperation(u));
    } else {
      assert us + [] == us;
    }
  }

  lemma DeltaStart(base: seq<Row>, e: Engine, features: u32, m: Option<Move>)
    requires ValidEngine(e) && DeltaBase(base, e, m)
    ensures DeltaDone(base, e, features, m, 0)
  {
    hide MoveRows, Exact;
    MoveRowsUniform(base, m, e.columns);
  }

  lemma {:induction false} DeltaRebuilds(base: seq<Row>, e: Engine, features: u32, m: Option<Move>, upTo: nat)
    requires ValidEngine(e) && DeltaBase(base, e, m) && upTo <= |e.rows|
    ensures DeltaDone(base, e, features, m, upTo)
  {
    hide DeltaDone, DeltaBase;
    if upTo == 0 {
      DeltaStart(base, e, features, m);
    } else {
      DeltaRebuilds(base, e, features, m, upTo - 1);
      DeltaStep(base, e, features, m, upTo - 1);
    }
  }

  // ---- The daemon's own update of its baseline gives the same rows ----

  lemma OverwriteNext(rows: seq<Row>, us: seq<Update>, u: Update)
    requires u.row < |rows| && forall v | v in us :: v.row < |rows|
    ensures forall v | v in us + [u] :: v.row < |rows|
    ensures OverwriteRows(rows, us + [u]) == OverwriteRows(rows, us)[u.row := u.cells]
  {
    assert (us + [u])[..|us|] == us;
  }

  lemma {:induction false} DeltaOverwrites(base: seq<Row>, e: Engine, features: u32, m: Option<Move>, upTo: nat)
    requires ValidEngine(e) && DeltaBase(base, e, m) && upTo <= |e.rows|
    ensures var us := DeltaUpdates(base, e, features, m, upTo);
      && (forall u | u in us :: u.row < |base|)
      && RebuiltTo(MoveRows(base, m), OverwriteRows(MoveRows(base, m), us), e, upTo)
  {
    hide SpanFor, MoveRows, Exact, DeltaUpdates, OverwriteRows;
    if upTo == 0 {
      OverwriteNone(base, e, features, m);
    } else {
      var r := upTo - 1;
      DeltaOverwrites(base, e, features, m, r);
      DeltaUpdatesNext(base, e, features, m, r);
      var start, us := MoveRows(base, m), DeltaUpdates(base, e, features, m, r);
      if e.dirty[r] && e.rows[r] != start[r] {
        OverwriteNext(start, us, Update(r, e.rows[r], SpanFor(start[r], e.rows[r], features)));
      } else {
        assert us + [] == us;
      }
    }
  }

  lemma OverwriteNone(base: seq<Row>, e: Engine, features: u32, m: Option<Move>)
    requires ValidEngine(e) && DeltaBase(base, e, m)
    ensures DeltaUpdates(base, e, features, m, 0) == []
    ensures RebuiltTo(MoveRows(base, m), OverwriteRows(MoveRows(base, m), []), e, 0)
  {
    hide MoveRows, Exact;
  }

  // ---- Full frames ----

  /** A full frame installs the engine's first rows over any grid of the right shape, both ways. */
  ghost predicate FullDone(start: seq<Row>, e: Engine, upTo: nat)
    requires ValidEngine(e) && |start| == |e.rows| && Uniform(start, e.columns) && upTo <= |e.rows|
  {
    var us := FullUpdates(e, upTo);
    && (forall u | u in us :: UpdateSized(u, e.columns, |e.rows|))
    && RebuiltTo(start, ApplyAll(start, e.columns, UpdateOperations(us, e.columns, |e.rows|)), e, upTo)
    && RebuiltTo(start, OverwriteRows(start, us), e, upTo)
  }

  lemma FullStep(start: seq<Row>, e: Engine, r: nat)
    requires ValidEngine(e) && |start| == |e.rows| && Uniform(start, e.columns) && r < |e.rows|
    requires FullDone(start, e, r)
    ensures FullDone(start, e, r + 1)
  {
    FullUpdatesNext(e, r);
    hide FullUpdates, UpdateOperations, ApplyAll, OverwriteRows, ValidRow, UpdateSized, ApplyOperation, Fits, RebuiltTo;
    var us, u := FullUpdates(e, r), Update(r, e.rows[r], None);
    UpdateOperationsNext(us, u, e.columns, |e.rows|);
    var ops := UpdateOperations(us, e.columns, |e.rows|);
    ApplyNext(start, e.columns, ops, UpdateOperation(u));
    OverwriteNext(start, us, u);
    WholeRow(ApplyAll(start, e.columns, ops), e, r);
    RebuiltNext(start, ApplyAll(start, e.columns, ops), e, r);
    RebuiltNext(start, OverwriteRows(start, us), e, r);
  }

  lemma RebuiltNext(start: seq<Row>, after: seq<Row>, e: Engine, r: nat)
    requires r < |e.rows| && RebuiltTo(start, after, e, r)
    ensures RebuiltTo(start, after[r := e.rows[r]], e, r + 1)
  {
  }

  lemma {:induction false} FullRebuilds(start: seq<Row>, e: Engine, upTo: nat)
    requires ValidEngine(e) && |start| == |e.rows| && Uniform(start, e.columns) && upTo <= |e.rows|
    ensures FullDone(start, e, upTo)
  {
    if upTo == 0 {
      assert FullUpdates(e, 0) == [];
    } else {
      hide FullDone;
      FullRebuilds(start, e, upTo - 1);
      FullStep(start, e, upTo - 1);
    }
  }

  lemma FullUpdatesNext(e: Engine, r: nat)
    requires ValidEngine(e) && r < |e.rows|
    ensures FullUpdates(e, r + 1) == FullUpdates(e, r) + [Update(r, e.rows[r], None)]
    ensures UpdateSized(Update(r, e.rows[r], None), e.columns, |e.rows|)
    ensures Fits(Span(r, 0, e.rows[r]), e.columns, |e.rows|)
  {
  }

  lemma WholeRow(rows: seq<Row>, e: Engine, r: nat)
    requires ValidEngine(e) && |rows| == |e.rows| && Uniform(rows, e.columns) && r < |rows|
    ensures Fits(Span(r, 0, e.rows[r]), e.columns, |rows|)
    ensures ApplyOperation(rows, e.columns, Span(r, 0, e.rows[r])) == rows[r := e.rows[r]]
  {
    assert SpliceRow(rows[r], 0, e.rows[r]) == e.rows[r];
  }

  // ---- Any plan ----

  /** What planning assumes of a tab, and every service step keeps. */
  predicate Replicable(s: Screen, e: Engine)
  {
    ValidEngine(e) && WireSized(e) && ValidScreen(s) && Undamaged(s, e)
  }

  lemma FrameIsWire(e: Engine)
    requires ValidEngine(e) && WireSized(e) && e.gate.deadline == 0
    ensures WireFrame(FrameOf(e)) && Uniform(e.rows, e.columns)
  {
  }

  lemma BaselineIsDeltaBase(s: Screen, e: Engine, full: bool, features: u32, m: Option<Move>)
    requires Replicable(s, e) && MoveAllowed(s, e, full, features, m) && !NeedsFull(s, e, full)
    ensures DeltaBase(s.rows, e, m)
  {
    hide Covered, ValidRow;
  }

  lemma PlanIsSized(s: Screen, e: Engine, full: bool, features: u32, m: Option<Move>)
    requires Replicable(s, e) && e.gate.deadline == 0 && MoveAllowed(s, e, full, features, m)
    ensures PlanFits(MakePlan(s, e, full, features, m))
  {
    hide SpanFor, BaselineRow, Covered, ApplyAll, UpdateOperations, OverwriteRows, DeltaUpdates, FullUpdates, UpdateSized,
      ValidRow, MoveRows, Exact, RebuiltTo, WireFrame, Undamaged, Has;
    FrameIsWire(e);
    if NeedsFull(s, e, full) {
      FullRebuilds(e.rows, e, |e.rows|);
    } else {
      BaselineIsDeltaBase(s, e, full, features, m);
      DeltaRebuilds(s.rows, e, features, m, |e.rows|);
    }
  }

  lemma RebuiltAll(start: seq<Row>, after: seq<Row>, e: Engine)
    requires RebuiltTo(start, after, e, |e.rows|)
    ensures after == e.rows
  {
  }

  /**
   For every feature set, every allowed move and every starting grid the client can have (the baseline,
   or anything of the right shape when the frame is full), the operations of a plan applied in order give
   the engine's viewport, and so does the daemon's in-place update of its baseline.
   */
  lemma PlanRebuilds(s: Screen, e: Engine, full: bool, features: u32, m: Option<Move>, start: seq<Row>)
    requires Replicable(s, e) && e.gate.deadline == 0 && MoveAllowed(s, e, full, features, m)
    requires |start| == |e.rows| && Uniform(start, e.columns)
    requires !NeedsFull(s, e, full) ==> start == s.rows
    ensures var p := MakePlan(s, e, full, features, m);
      PlanFits(p) && ApplyAll(start, e.columns, PlanOperations(p)) == e.rows && Commit(s, p) == Screen(p.frame, e.rows)
  {
    PlanIsSized(s, e, full, features, m);
    if NeedsFull(s, e, full) {
      FullPlanRebuilds(s, e, full, features, m, start);
    } else {
      DeltaPlanRebuilds(s, e, full, features, m);
    }
  }

  lemma FullPlanRebuilds(s: Screen, e: Engine, full: bool, features: u32, m: Option<Move>, start: seq<Row>)
    requires Replicable(s, e) && MoveAllowed(s, e, full, features, m) && NeedsFull(s, e, full)
    requires PlanFits(MakePlan(s, e, full, features, m))
    requires |start| == |e.rows| && Uniform(start, e.columns)
    ensures var p := MakePlan(s, e, full, features, m);
      ApplyAll(start, e.columns, PlanOperations(p)) == e.rows && Commit(s, p) == Screen(p.frame, e.rows)
  {
    hide FullUpdates, UpdateSized, ValidRow, Covered, Exact, UpdateOperation, ApplyAll, UpdateOperations, OverwriteRows,
      WireFrame, Undamaged, RebuiltTo, Has;
    var p := MakePlan(s, e, full, features, m);
    var updates := UpdateOperations(p.updates, e.columns, |e.rows|);
    var sized := seq(|e.rows|, _ => seq(e.columns, _ => Cell(0, 0, 0, 0)));
    FullRebuilds(start, e, |e.rows|);
    FullRebuilds(sized, e, |e.rows|);
    RebuiltAll(start, ApplyAll(start, e.columns, updates), e);
    RebuiltAll(sized, OverwriteRows(sized, p.updates), e);
    assert PlanOperations(p) == updates;
  }

  lemma DeltaPlanRebuilds(s: Screen, e: Engine, full: bool, features: u32, m: Option<Move>)
    requires Replicable(s, e) && MoveAllowed(s, e, full, features, m) && !NeedsFull(s, e, full)
    requires PlanFits(MakePlan(s, e, full, features, m))
    ensures var p := MakePlan(s, e, full, features, m);
      ApplyAll(s.rows, e.columns, PlanOperations(p)) == e.rows && Commit(s, p) == Screen(p.frame, e.rows)
  {
    hide DeltaUpdates, UpdateSized, ValidRow, Covered, Exact, UpdateOperation, ApplyAll, UpdateOperations, OverwriteRows,
      WireFrame, RebuiltTo, MoveRows, MoveOperations, Has;
    var p := MakePlan(s, e, full, features, m);
    var updates := UpdateOperations(p.updates, e.columns, |e.rows|);
    BaselineIsDeltaBase(s, e, full, features, m);
    DeltaRebuilds(s.rows, e, features, m, |e.rows|);
    DeltaOverwrites(s.rows, e, features, m, |e.rows|);
    var moved := MoveRows(s.rows, m);
    RebuiltAll(moved, ApplyAll(moved, e.columns, updates), e);
    RebuiltAll(moved, OverwriteRows(moved, p.updates), e);
    MoveApplies(s.rows, m, e.columns);
    ApplyAllConcat(s.rows, e.columns, MoveOperations(m), updates);
  }

  lemma MoveApplies(rows: seq<Row>, m: Option<Move>, columns: nat)
    requires Uniform(rows, columns) && MoveFits(m, |rows|)
    ensures AllFit(MoveOperations(m), columns, |rows|)
    ensures ApplyAll(rows, columns, MoveOperations(m)) == MoveRows(rows, m)
  {
    if m.Some? {
      assert MoveOperations(m)[..0] == [];
    }
  }
}
