/**
 One replication attempt end to end: the daemon's outcome, its queue space, and the client that reads it.
 */
module Replicas {
  import opened Bytes
  import opened Grids
  import opened Cells
  import opened Engines
  import opened Framing
  import opened Deltas
  import opened Viewports
  import opened Moves
  import opened Frames

  const CLIENT_QUEUE: nat := 4 * 1024 * 1024
  const FRAME_BACKLOG: nat := 128 * 1024
  const RESYNC_BACKLOG: nat := 64 * 1024

  datatype Outcome = Held | Unchanged | Sent | Refused

  datatype Replicated = Replicated(screen: Screen, engine: Engine, packets: seq<Packet>, outcome: Outcome)

  /**
   Plan, append all or nothing, and only then move the baseline and acknowledge damage. `room` is what
   the output queue can still take.
   */
  function Replicate(s: Screen, e: Engine, room: nat, tab: u32, full: bool, features: u32, reply: bool, m: Option<Move>): (r: Replicated)
    requires Replicable(s, e) && MoveAllowed(s, e, full, features, m)
    ensures AllSendable(r.packets)
  {
    match Prepare(s, e, full, features, reply, m)
    case Hold => Replicated(if full then s.(rows := []) else s, e, [], Held)
    case Same => Replicated(s, Cleaned(e), [], Unchanged)
    case Changed(p) =>
      PlanIsSized(s, e, full, features, m);
      var packets := PlanPackets(p, tab);
      if |EncodeAll(packets)| > room then Replicated(s, e, [], Refused)
      else Replicated(Commit(s, p), Cleaned(e), packets, Sent)
  }

  // ---- Queue space and staging budget ----

  lemma {:induction false} EncodedSize(ps: seq<Packet>, bound: nat)
    requires AllSendable(ps) && forall p | p in ps :: |p.body| <= bound
    ensures |EncodeAll(ps)| <= |ps| * (HEADER_BYTES + bound)
  {
    hide Encode;
    if ps != [] {
      assert ps[0] in ps;
      EncodedSize(ps[1..], bound);
      assert |ps| * (HEADER_BYTES + bound) == (HEADER_BYTES + bound) + (|ps| - 1) * (HEADER_BYTES + bound);
    }
  }

  lemma OperationBody(op: Operation, columns: nat, tab: u32)
    requires columns <= MAX_COLUMNS && Fits(op, columns, MAX_ROWS)
    ensures |OperationPacket(op, columns, tab).body| <= 24 + MAX_COLUMNS * CELL_BYTES
  {
    hide EncodeRow, PutWords, PutU32;
  }

  /** Any plan within the wire's geometry fits beside a backlog the congestion gate lets through. */
  lemma PlanFitsQueue(p: Plan, tab: u32)
    requires PlanFits(p)
    ensures |EncodeAll(PlanPackets(p, tab))| <= CLIENT_QUEUE - FRAME_BACKLOG
  {
    hide FrameBody, OperationPacket, UpdateOperations, EncodeAll, UpdateSized, WireFrame;
    var ops := PlanOperations(p);
    var ps := PlanPackets(p, tab);
    FrameBounds(p.frame);
    assert |ps| == |ops| + 2 && |ops| <= 1 + p.frame.rows;
    var bound := 24 + MAX_COLUMNS * CELL_BYTES;
    forall q | q in ps
      ensures |q.body| <= bound
    {
      if q in OperationPackets(ops, p.frame.columns, tab) {
        var i :| 0 <= i < |ops| && q == OperationPackets(ops, p.frame.columns, tab)[i];
        assert ops[i] in ops;
        OperationBody(ops[i], p.frame.columns, tab);
      }
    }
    EncodedSize(ps, bound);
    assert |ps| * (HEADER_BYTES + bound) <= (MAX_ROWS + 3) * (HEADER_BYTES + bound);
  }

  lemma FrameBounds(f: Frame)
    requires WireFrame(f)
    ensures 1 <= f.columns <= MAX_COLUMNS && 1 <= f.rows <= MAX_ROWS
  {
  }

  /** Its operations, the copy included, stay within what the client will stage for one frame. */
  lemma PlanFitsStaging(p: Plan)
    requires PlanFits(p)
    ensures TotalCost(PlanOperations(p), p.frame.columns) <= MAX_PAYLOAD
  {
    hide UpdateOperations, UpdateSized, TotalCost, WireFrame;
    FrameBounds(p.frame);
    var columns, updates := p.frame.columns, UpdateOperations(p.updates, p.frame.columns, p.frame.rows);
    UpdatesCost(updates, columns);
    assert |updates| * (OPERATION_SIZE + MAX_COLUMNS * CELL_SIZE) <= MAX_ROWS * (OPERATION_SIZE + MAX_COLUMNS * CELL_SIZE);
    if p.movement.Some? {
      var copy := MoveOperations(p.movement)[0];
      assert MoveOperations(p.movement) == [copy];
      CopyThenUpdatesCost(copy, updates, columns);
      CopyCost(copy.count, columns);
    } else {
      assert PlanOperations(p) == updates;
    }
  }

  lemma CopyCost(count: nat, columns: nat)
    requires count <= MAX_ROWS && columns <= MAX_COLUMNS
    ensures count * columns * CELL_SIZE <= MAX_ROWS * MAX_COLUMNS * CELL_SIZE
  {
    assert count * columns <= MAX_ROWS * columns <= MAX_ROWS * MAX_COLUMNS;
  }

  // ---- What an attempt keeps, and when the baseline is current ----

  predicate Current(s: Screen, e: Engine) {
    s.rows == e.rows && SameFrame(s.frame, FrameOf(e))
  }

  /** Every outcome keeps the damage invariant; held and refused attempts lose no damage. */
  lemma ReplicateKeeps(s: Screen, e: Engine, room: nat, tab: u32, full: bool, features: u32, reply: bool, m: Option<Move>)
    requires Replicable(s, e) && MoveAllowed(s, e, full, features, m)
    ensures var r := Replicate(s, e, room, tab, full, features, reply, m);
      && Replicable(r.screen, r.engine)
      && r.engine.rows == e.rows && r.engine.gate == e.gate
      && (r.outcome == Held <==> e.gate.deadline != 0)
      && (r.outcome == Held ==> r.engine == e && r.packets == [] && r.screen == if full then s.(rows := []) else s)
      && (r.outcome == Refused ==> r.engine == e && r.packets == [] && r.screen == s)
      && (r.outcome == Sent || r.outcome == Unchanged ==>
            Current(r.screen, e) && r.engine == Cleaned(e) && (r.outcome == Unchanged ==> r.screen == s && r.packets == []))
  {
    hide MakePlan, PlanFits, PlanPackets, EncodeAll, Commit, ValidEngine, WireSized, ValidScreen, Undamaged, MoveAllowed, Cleaned;
    match Prepare(s, e, full, features, reply, m)
    case Hold =>
      if full {
        EmptyIsReplicable(s, e);
      }
    case Same =>
      UnchangedIsCurrent(s, e, full, features, reply, m);
      CurrentIsReplicable(s, e);
    case Changed(p) =>
      PlanIsCurrent(s, e, full, features, m);
      CurrentIsReplicable(Commit(s, p), e);
  }

  lemma EmptyIsReplicable(s: Screen, e: Engine)
    requires ValidEngine(e) && WireSized(e)
    ensures Replicable(s.(rows := []), e)
  {
  }

  lemma CurrentIsReplicable(s: Screen, e: Engine)
    requires ValidEngine(e) && WireSized(e) && Current(s, e)
    ensures Replicable(s, e) && Replicable(s, Cleaned(e))
    ensures Cleaned(e).rows == e.rows && Cleaned(e).gate == e.gate
  {
  }

  lemma PlanIsCurrent(s: Screen, e: Engine, full: bool, features: u32, m: Option<Move>)
    requires Replicable(s, e) && MoveAllowed(s, e, full, features, m) && e.gate.deadline == 0
    ensures var p := MakePlan(s, e, full, features, m); PlanFits(p) && (!p.full ==> |s.rows| == p.frame.rows) && Current(Commit(s, p), e)
  {
    hide SpanFor, DeltaUpdates, FullUpdates, Covered, Exact, WireFrame, CommitRows, PlanFits, PlanOperations, ValidRow, Undamaged;
    PlanIsSized(s, e, full, features, m);
    FrameIsWire(e);
    PlanRebuilds(s, e, full, features, m, if NeedsFull(s, e, full) then e.rows else s.rows);
  }

  lemma UnchangedIsCurrent(s: Screen, e: Engine, full: bool, features: u32, reply: bool, m: Option<Move>)
    requires Replicable(s, e) && MoveAllowed(s, e, full, features, m) && e.gate.deadline == 0
    requires Prepare(s, e, full, features, reply, m).Same?
    ensures Current(s, e)
  {
    hide SpanFor, DeltaUpdates, FullUpdates, Covered, Exact, WireFrame, ValidRow;
    var p := MakePlan(s, e, full, features, m);
    PlanIsSized(s, e, full, features, m);
    PlanRebuilds(s, e, full, features, m, s.rows);
  }

  /** Below the congestion gate, replication is never refused for queue space. */
  lemma NeverRefused(s: Screen, e: Engine, room: nat, tab: u32, full: bool, features: u32, reply: bool, m: Option<Move>)
    requires Replicable(s, e) && MoveAllowed(s, e, full, features, m)
    requires room >= CLIENT_QUEUE - FRAME_BACKLOG
    ensures Replicate(s, e, room, tab, full, features, reply, m).outcome != Refused
  {
    hide MakePlan, PlanFits, PlanPackets, EncodeAll, Commit;
    if Prepare(s, e, full, features, reply, m).Changed? {
      PlanIsSized(s, e, full, features, m);
      PlanFitsQueue(MakePlan(s, e, full, features, m), tab);
    }
  }

  // ---- The client that reads the packets ----

  /** A replica that has refused nothing, stages nothing, and shows the baseline where there is one. */
  predicate Settled(r: Replica, s: Screen)
  {
    && ValidView(r.view) && r.ok && r.view.pending.None?
    && (s.rows != [] ==> r.view.cells == s.rows && r.view.frame == s.frame)
  }

  /** A sent frame arrives: at any idle replica if the frame is a whole one, and at one that shows the baseline if not. */
  lemma FrameArrives(r: Replica, s: Screen, e: Engine, room: nat, tab: u32, full: bool, features: u32, reply: bool, m: Option<Move>)
    requires Replicable(s, e) && MoveAllowed(s, e, full, features, m)
    requires Settled(r, NO_SCREEN) && (NeedsFull(s, e, full) || Settled(r, s))
    requires Replicate(s, e, room, tab, full, features, reply, m).outcome == Sent
    ensures var after := Replicate(s, e, room, tab, full, features, reply, m);
      Settled(Replay(r, after.packets, tab), after.screen)
  {
    hide MakePlan, PlanFits, PlanOperations, EncodeAll, Commit, StartRows, ApplyAll, FramePackets, MoveAllowed, ValidEngine, Undamaged, NeedsFull;
    PlanIsSized(s, e, full, features, m);
    var p := MakePlan(s, e, full, features, m);
    PlanFitsStaging(p);
    StartMatches(r, s, e, full, features, m);
    PlanRebuilds(s, e, full, features, m, StartRows(r.view, p.frame));
    AcceptFrame(r, p.frame, PlanOperations(p), tab);
  }

  /** Whatever the attempt sent, a replica showing the baseline accepts all of it and follows the baseline. */
  lemma ClientFollows(r: Replica, s: Screen, e: Engine, room: nat, tab: u32, full: bool, features: u32, reply: bool, m: Option<Move>)
    requires Replicable(s, e) && MoveAllowed(s, e, full, features, m) && Settled(r, s)
    ensures var after := Replicate(s, e, room, tab, full, features, reply, m);
      Settled(Replay(r, after.packets, tab), after.screen)
  {
    hide Prepare, MoveAllowed, Replicable;
    if Replicate(s, e, room, tab, full, features, reply, m).outcome == Sent {
      FrameArrives(r, s, e, room, tab, full, features, reply, m);
    }
  }

  /** Whatever the attempt sent, a replica showing anything at all accepts it. */
  lemma ClientAccepts(r: Replica, s: Screen, e: Engine, room: nat, tab: u32, full: bool, features: u32, reply: bool, m: Option<Move>)
    requires Replicable(s, e) && MoveAllowed(s, e, full, features, m) && Settled(r, NO_SCREEN)
    ensures Settled(Replay(r, Replicate(s, e, room, tab, full, features, reply, m).packets, tab), NO_SCREEN)
  {
    hide MakePlan, PlanFits, PlanOperations, EncodeAll, Commit, StartRows, ApplyAll, FramePackets, MoveAllowed, ValidEngine, Undamaged;
    var after := Replicate(s, e, room, tab, full, features, reply, m);
    if after.outcome == Sent {
      PlanIsSized(s, e, full, features, m);
      var p := MakePlan(s, e, full, features, m);
      PlanFitsStaging(p);
      assert WireFrame(p.frame) by { PlanIsWire(p); }
      AcceptFrame(r, p.frame, PlanOperations(p), tab);
    }
  }

  lemma PlanIsWire(p: Plan)
    requires PlanFits(p)
    ensures WireFrame(p.frame)
  {
  }

  lemma StartMatches(r: Replica, s: Screen, e: Engine, full: bool, features: u32, m: Option<Move>)
    requires Replicable(s, e) && MoveAllowed(s, e, full, features, m) && e.gate.deadline == 0
    requires Settled(r, NO_SCREEN) && (NeedsFull(s, e, full) || Settled(r, s))
    ensures var p := MakePlan(s, e, full, features, m);
      && WireFrame(p.frame) && p.frame.columns == e.columns && p.frame.rows == |e.rows|
      && |StartRows(r.view, p.frame)| == |e.rows| && Uniform(StartRows(r.view, p.frame), e.columns)
      && (!NeedsFull(s, e, full) ==> StartRows(r.view, p.frame) == s.rows)
  {
    hide DeltaUpdates, FullUpdates, Covered, Exact, Resized, ValidRow, Undamaged;
    FrameIsWire(e);
  }

  lemma LookedReplicable(s: Screen, e: Engine, now: int)
    requires Replicable(s, e) && now >= e.gate.now
    ensures Replicable(s, Looked(e, now)) && Looked(e, now).gate.now == now
  {
    hide ValidRow;
  }

  lemma ReplicableEngine(s: Screen, e: Engine)
    requires Replicable(s, e)
    ensures ValidEngine(e)
  {
  }
}
