/**
 The terminal engine as its callers see it: a viewport of rows with a damage flag each, the frame
 record, and the synchronized-output gate that can hold a redraw. What the parser does between two
 calls is arbitrary within `Changes`.
 */
module Engines {
  import opened Bytes
  import opened Cells

  const INT64_MAX: int := 0x7fff_ffff_ffff_ffff
  const INT32_MAX: int := 0x7fff_ffff
  const SYNC_HOLD: int := 150_000_000
  const MAX_COLUMNS: nat := 400
  const MAX_ROWS: nat := 200

  datatype Frame = Frame(
    columns: int, rows: int, cursorX: int, cursorY: int, scroll: int, alternate: int, redrawDeadline: int)

  // ---- The synchronized-output gate ----

  datatype Gate = Gate(now: int, deadline: int, expired: bool)

  function GateSet(g: Gate, begin: bool): (r: Gate) {
    if !begin then g.(deadline := 0, expired := false)
    else if g.deadline == 0 && !g.expired then
      g.(deadline := if g.now > INT64_MAX - SYNC_HOLD then INT64_MAX else g.now + SYNC_HOLD)
    else g
  }

  function GateDelay(g: Gate, now: int): (r: Gate) {
    if g.deadline == 0 || g.deadline > now then g.(now := now)
    else Gate(now, 0, true)
  }

  datatype GateUse = Begin | End | Look(now: int)

  function GateStep(g: Gate, use: GateUse): Gate {
    match use
    case Begin => GateSet(g, true)
    case End => GateSet(g, false)
    case Look(now) => GateDelay(g, now)
  }

  function GateRun(g: Gate, uses: seq<GateUse>): Gate
    decreases |uses|
  {
    if uses == [] then g else GateRun(GateStep(g, uses[0]), uses[1..])
  }

  /**
   A hold ends by its first deadline: whatever begins follow, without an end no later look is held once
   the caller's time has reached the deadline, and an expired gate cannot be held again.
   */
  lemma {:induction false} HoldEnds(g: Gate, uses: seq<GateUse>, now: int)
    requires End !in uses
    requires 0 < g.deadline <= now || (g.deadline == 0 && g.expired)
    ensures GateDelay(GateRun(g, uses), now).deadline == 0
    ensures GateDelay(GateRun(g, uses), now).expired
    decreases |uses|
  {
    if uses != [] {
      assert uses[0] in uses;
      HoldEnds(GateStep(g, uses[0]), uses[1..], now);
    }
  }

  // ---- The engine ----

  datatype Engine = Engine(
    rows: seq<Row>, columns: nat, dirty: seq<bool>,
    cursorX: int, cursorY: int, scroll: int, alternate: int, gate: Gate)

  predicate ValidRow(row: Row, columns: nat) {
    && |row| == columns
    && forall x | 0 <= x < |row| :: row[x].attributes < 0x1_0000
  }

  predicate ValidEngine(e: Engine) {
    && 1 <= e.columns && 1 <= |e.rows| && |e.dirty| == |e.rows|
    && (forall r | 0 <= r < |e.rows| :: ValidRow(e.rows[r], e.columns))
    && 0 <= e.cursorX < e.columns && 0 <= e.cursorY < |e.rows|
    && 0 <= e.scroll <= INT32_MAX && 0 <= e.alternate <= 1
    && 0 <= e.gate.now && 0 <= e.gate.deadline <= INT64_MAX
  }

  /** The geometry the wire carries; every launch and resize request is checked against it. */
  predicate WireSized(e: Engine) {
    e.columns <= MAX_COLUMNS && |e.rows| <= MAX_ROWS
  }

  function FrameOf(e: Engine): (f: Frame) {
    Frame(e.columns, |e.rows|, e.cursorX, e.cursorY, e.scroll, e.alternate, e.gate.deadline)
  }

  /** What parsing, input, scrolling or resizing may do: every row they touch is flagged. */
  predicate Changes(e: Engine, e': Engine) {
    && ValidEngine(e) && ValidEngine(e')
    && e'.gate.now >= e.gate.now
    && (if e'.columns == e.columns && |e'.rows| == |e.rows| then
          forall r | 0 <= r < |e'.rows| :: !e'.dirty[r] ==> !e.dirty[r] && e'.rows[r] == e.rows[r]
        else
          forall r | 0 <= r < |e'.rows| :: e'.dirty[r])
  }

  function Looked(e: Engine, now: int): (r: Engine)
    requires ValidEngine(e) && now >= e.gate.now
    ensures ValidEngine(r) && Changes(e, r)
    ensures r.rows == e.rows && r.dirty == e.dirty && r.columns == e.columns
  {
    e.(gate := GateDelay(e.gate, now))
  }

  function Cleaned(e: Engine): (r: Engine)
    requires ValidEngine(e)
    ensures ValidEngine(r)
  {
    e.(dirty := seq(|e.rows|, _ => false))
  }

  class TermEngine {
    var rows: seq<Row>
    var columns: nat
    var dirty: seq<bool>
    var cursorX: int
    var cursorY: int
    var scroll: int
    var alternate: int
    var now: int
    var deadline: int
    var expired: bool

    ghost function Value(): Engine
      reads this
    {
      Engine(rows, columns, dirty, cursorX, cursorY, scroll, alternate, Gate(now, deadline, expired))
    }

    constructor (e: Engine)
      requires ValidEngine(e)
      ensures Value() == e
    {
      rows, columns, dirty := e.rows, e.columns, e.dirty;
      cursorX, cursorY, scroll, alternate := e.cursorX, e.cursorY, e.scroll, e.alternate;
      now, deadline, expired := e.gate.now, e.gate.deadline, e.gate.expired;
    }

    method SetSync(begin: bool)
      modifies this
      ensures Value() == old(Value()).(gate := GateSet(old(Value()).gate, begin))
    {
      if !begin {
        deadline := 0;
        expired := false;
      } else if deadline == 0 && !expired {
        deadline := if now > INT64_MAX - SYNC_HOLD then INT64_MAX else now + SYNC_HOLD;
      }
    }

    method RenderDelay(time: int) returns (left: int)
      modifies this
      ensures Value() == old(Value()).(gate := GateDelay(old(Value()).gate, time))
      ensures left == if deadline == 0 then 0 else deadline - time
    {
      now := time;
      if deadline == 0 {
        return 0;
      }
      if deadline > time {
        return deadline - time;
      }
      deadline := 0;
      expired := true;
      left := 0;
    }

    /** The frame record at the caller's time; time never runs backwards. */
    method FrameAt(time: int) returns (frame: Option<Frame>)
      requires ValidEngine(Value())
      modifies this
      ensures frame.Some? <==> time >= old(now)
      ensures frame.Some? ==> Value() == Looked(old(Value()), time) && frame.value == FrameOf(Value())
      ensures frame.None? ==> unchanged(this)
    {
      if time < now {
        return None;
      }
      var left := RenderDelay(time);
      frame := Some(Frame(columns, |rows|, cursorX, cursorY, scroll, alternate, deadline));
    }

    /** Damage is acknowledged only when no redraw is held. */
    method Clean() returns (ok: bool)
      requires ValidEngine(Value())
      modifies this
      ensures ok <==> old(deadline) == 0
      ensures Value() == if ok then Cleaned(old(Value())) else old(Value())
    {
      if deadline != 0 {
        return false;
      }
      var r := 0;
      while r < |rows|
        invariant 0 <= r <= |rows|
        invariant |dirty| == |rows| && forall k | 0 <= k < r :: !dirty[k]
        invariant Value() == old(Value()).(dirty := dirty)
      {
        dirty := dirty[r := false];
        r := r + 1;
      }
      assert dirty == seq(|rows|, _ => false);
      ok := true;
    }
  }
}
