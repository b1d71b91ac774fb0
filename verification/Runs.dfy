/**
 Whole runs of the service: any interleaving of connections, messages, partial flushes, terminal output,
 expiries, closings, imports and transfers keeps the invariant, and the invariant says what every
 controlling client holds.
 */
module Runs {
  import opened Bytes
  import opened Grids
  import opened Engines
  import opened Framing
  import opened Viewports
  import opened Frames
  import opened Replicas
  import opened Tabs
  import opened Services
  import opened Steps
  import opened Messages
  import Transfers

  /** What a received snapshot contributes: a live terminal or a browser location. */
  datatype Staged = Shell(engine: Engine) | Page(url: seq<byte>)

  datatype Action =
    | Accept
    | Hangup(client: ClientId)
    | Flush(client: ClientId)
    | Receive(client: ClientId, packet: Packet)
    | TerminalWrite(tab: u32, wrote: bool)
    | TerminalRead(tab: u32)
    | TerminalEnd(tab: u32)
    | Import(staged: seq<Staged>)
    | Upgraded
    | Maintain

  // ---- Steps that are not messages ----

  function Ticked(s: Service, now: int): (r: Service)
    requires ValidService(s) && now >= s.clock
    ensures ValidService(r) && Kept(s, r) && r.clock == now && r.tabs == s.tabs && r.clients == s.clients
  {
    hide IdsOk, ClientsOk, Replicable, Follows, ShellTab, PageTab;
    s.(clock := now)
  }

  function Connected(s: Service): (r: Service)
    requires ValidService(s)
    ensures ValidService(r) && Kept(s, r) && r.tabs == s.tabs
  {
    hide IdsOk, HasTab, Follows, Replicable, Quiet, ShellTab, PageTab;
    var c := s.nextClient;
    var client := Client(false, 0, false, None, [], [], []);
    assert c !in s.clients;
    NewClientOk(client);
    ConnectedTabs(s, c, client);
    s.(clients := s.clients[c := client], nextClient := c + 1)
  }

  lemma NewClientOk(client: Client)
    requires client == Client(false, 0, false, None, [], [], [])
    ensures ClientOk(client)
  {
    forall tab: u32
      ensures Quiet([], tab)
    {
      QuietNothing(tab);
      var nothing: seq<Packet> := [];
      assert forall j: nat | Birth(nothing, j) :: nothing[j..] == [];
    }
  }

  lemma ConnectedTabs(s: Service, c: ClientId, client: Client)
    requires ValidService(s) && c !in s.clients
    ensures TabsOk(s.tabs, s.clients[c := client], s.clock)
  {
    hide Follows, Replicable, ClientOk;
    forall i | 0 <= i < |s.tabs|
      ensures TabOk(s.tabs[i], s.clients[c := client], s.clock)
    {
      assert TabOk(s.tabs[i], s.clients, s.clock);
    }
  }

  /** PTY output: the engine moves on, a frame is owed, and an awaited response goes out at once. */
  function Output(s: Service, i: nat, env: Env): (r: Service)
    requires ValidService(s) && i < |s.tabs| && s.tabs[i].terminal.Some?
    ensures ValidService(r) && Kept(s, r)
  {
    hide ValidService, Effects, Answered, ShellTab, PageTab;
    Answered(Owed(Effects(s, i, env), i), i, env.find)
  }

  function Answered(s: Service, i: nat, find: Mover): (r: Service)
    requires ValidService(s) && i < |s.tabs|
    ensures ValidService(r) && Kept(s, r)
  {
    hide ValidService, SendFrame, ShellTab, PageTab;
    var t := s.tabs[i];
    if t.inputFrame || (t.controller.Some? && t.screen.rows == []) then
      var sent := SendFrame(s, i, false, find);
      if sent.1 then ClearInput(sent.0, i) else sent.0
    else s
  }

  function Marked(s: Service, i: nat, pending: bool, input: bool): (r: Service)
    requires ValidService(s) && i < |s.tabs|
    ensures ValidService(r) && Kept(s, r) && SameTabs(s.tabs, r.tabs)
  {
    hide IdsOk, ReplacementsOk, FallbackOk, ClientsOk, Replicable, Follows, ShellTab, PageTab;
    assert TabOk(s.tabs[i], s.clients, s.clock);
    SetTabKeeps(s, i, s.tabs[i].(pendingFrame := pending, inputFrame := input));
    SetTab(s, i, s.tabs[i].(pendingFrame := pending, inputFrame := input))
  }

  function Owed(s: Service, i: nat): (r: Service)
    requires ValidService(s) && i < |s.tabs|
    ensures ValidService(r) && Kept(s, r) && SameTabs(s.tabs, r.tabs)
  {
    hide ValidService, ShellTab, PageTab;
    Marked(s, i, true, s.tabs[i].inputFrame)
  }

  /** The PTY is gone; the tab closes at the next maintenance. */
  function Ended(s: Service, i: nat): (r: Service)
    requires ValidService(s) && i < |s.tabs| && s.tabs[i].terminal.Some?
    ensures ValidService(r) && Kept(s, r)
  {
    hide IdsOk, ReplacementsOk, FallbackOk, ClientsOk, Replicable, Follows, ShellTab, PageTab;
    assert TabOk(s.tabs[i], s.clients, s.clock);
    var t := s.tabs[i].(terminal := Some(s.tabs[i].terminal.value.(open := false)));
    SetTabKeeps(s, i, t);
    SetTab(s, i, t)
  }

  predicate StagedOk(x: Staged, clock: int) {
    x.Shell? ==> Importable(x.engine, clock)
  }

  /** Imported tabs take the next IDs in order. */
  function Appended(s: Service, staged: seq<Staged>): (r: Service)
    requires ValidService(s) && forall x | x in staged :: StagedOk(x, s.clock)
    requires s.nextId + |staged| <= 0xffff_ffff
    ensures ValidService(r) && Kept(s, r) && |r.tabs| == |s.tabs| + |staged| && r.nextId == s.nextId + |staged|
    ensures r.clock == s.clock
    decreases |staged|
  {
    hide ValidService, TabOk, Importable, ShellTab, PageTab;
    if staged == [] then s
    else
      assert staged[0] in staged;
      StagedTabOk(s, staged[0]);
      Appended(PushTab(s, StagedTab(s.nextId, staged[0])), staged[1..])
  }

  /** The received tabs, in order and under consecutive IDs, behind the list as it was. */
  lemma {:induction false} AppendedInOrder(s: Service, staged: seq<Staged>)
    requires ValidService(s) && forall x | x in staged :: StagedOk(x, s.clock)
    requires s.nextId + |staged| <= 0xffff_ffff
    ensures var r := Appended(s, staged);
      && r.clients == s.clients && |r.tabs| == |s.tabs| + |staged| && r.tabs[..|s.tabs|] == s.tabs
      && forall k | 0 <= k < |staged| :: r.tabs[|s.tabs| + k] == StagedTab(s.nextId + k, staged[k])
    decreases |staged|
  {
    hide ValidService, Kept, TabOk, Importable, StagedOk, StagedTab;
    if staged != [] {
      assert staged[0] in staged;
      StagedTabOk(s, staged[0]);
      StagedId(s.nextId, staged[0]);
      var next := PushTab(s, StagedTab(s.nextId, staged[0]));
      PushedClock(s, StagedTab(s.nextId, staged[0]));
      AppendedInOrder(next, staged[1..]);
      var r := Appended(s, staged);
      assert r == Appended(next, staged[1..]);
      assert r.tabs[..|s.tabs|] == r.tabs[..|next.tabs|][..|s.tabs|];
      forall k | 0 <= k < |staged|
        ensures r.tabs[|s.tabs| + k] == StagedTab(s.nextId + k, staged[k])
      {
        if k == 0 {
          assert r.tabs[..|next.tabs|][|s.tabs|] == StagedTab(s.nextId, staged[0]);
        } else {
          assert staged[1..][k - 1] == staged[k];
        }
      }
    }
  }

  lemma StagedId(id: u32, x: Staged)
    ensures StagedTab(id, x).id == id
  {
  }

  lemma PushedClock(s: Service, t: Tab)
    requires ValidService(s) && t.id == s.nextId && s.nextId < 0xffff_ffff && TabOk(t, s.clients, s.clock)
    ensures PushTab(s, t).clock == s.clock
  {
    hide ValidService, TabOk, Kept;
  }

  function StagedTab(id: u32, x: Staged): Tab {
    match x
    case Shell(e) => FreshTab(id, Some(Terminal(e, true)), None)
    case Page(url) => FreshTab(id, None, Some(url))
  }

  lemma StagedTabOk(s: Service, x: Staged)
    requires StagedOk(x, s.clock)
    ensures TabOk(StagedTab(s.nextId, x), s.clients, s.clock)
  {
    hide TabOk, Importable;
    match x
    case Shell(e) =>
      ShellOk(s.nextId, e, None, None, 0, s.clients, s.clock);
      assert StagedTab(s.nextId, x) == FreshShell(s.nextId, e, None, None, 0);
    case Page(url) => BrowserOk(s.nextId, url, s.clients, s.clock);
  }

  function Received(s: Service, staged: seq<Staged>): (r: Service)
    requires ValidService(s)
    ensures ValidService(r) && Kept(s, r)
  {
    hide ValidService, StagedOk, ShellTab, PageTab;
    if s.handin && 1 <= |staged| <= Transfers.HANDOFF_MAX_TABS && s.nextId + |staged| <= 0xffff_ffff &&
       (forall x | x in staged :: StagedOk(x, s.clock))
    then Listening(Appended(s, staged), false)
    else s
  }

  function CloseDead(s: Service, i: nat): (r: Service)
    requires ValidService(s) && i <= |s.tabs|
    ensures ValidService(r) && Kept(s, r) && r.clients == s.clients && r.clock == s.clock
    decreases |s.tabs| - i
  {
    hide ValidService, ShellTab, PageTab;
    if i == |s.tabs| then s
    else if s.tabs[i].terminal.Some? && !s.tabs[i].terminal.value.open then CloseDead(Close(s, i), i)
    else CloseDead(s, i + 1)
  }

  function Paced(s: Service, find: Mover): (r: Service)
    requires ValidService(s)
    ensures ValidService(r) && Kept(s, r)
  {
    hide ValidService, SendPending, ShellTab, PageTab;
    if s.lastFrame == 0 || s.clock - s.lastFrame >= FRAME_INTERVAL then
      var sent := SendPending(s, 0, true, find);
      if sent.1 then LastFrame(sent.0) else sent.0
    else s
  }

  function LastFrame(s: Service): (r: Service)
    requires ValidService(s)
    ensures ValidService(r) && Kept(s, r)
  {
    hide IdsOk, ClientsOk, TabsOk, ShellTab, PageTab;
    s.(lastFrame := s.clock)
  }

  /** Close tabs whose PTY ended, pace frames, publish what changed, resume what drained. */
  function Maintenance(s: Service, env: Env): (r: Service)
    requires ValidService(s)
    ensures ValidService(r) && Kept(s, r)
  {
    hide ValidService, Publish, ShellTab, PageTab;
    var s1 := Paced(CloseDead(s, 0), env.find);
    var s2 := if s1.closed != 0 || env.granted then Publish(s1, env.changed, env.catalog, env.looked, env.find) else s1;
    Resync(s2, env.find)
  }

  // ---- Any step, any run ----

  function OnTerminal(s: Service, id: u32): (i: Option<nat>)
    ensures i.Some? ==> i.value < |s.tabs| && s.tabs[i.value].terminal.Some?
  {
    var i := Position(s.tabs, id);
    if i.Some? && s.tabs[i.value].terminal.Some? then i else None
  }

  /** What one action may do to the tabs: a flush or a replacement request may convert, nothing else does. */
  predicate KeptDuring(s: Service, r: Service, a: Action) {
    || Kept(s, r)
    || (a.Flush? && KeptBy(s, r, a.client))
    || (a.Receive? && a.packet.kind == WIRE_BROWSER_REPLACE && KeptBy(s, r, a.client))
  }

  function Act(s: Service, a: Action, env: Env): (r: Service)
    requires ValidService(s)
    ensures ValidService(r) && KeptDuring(s, r, a)
  {
    hide ValidService, ShellTab, PageTab, Acknowledged, KeptBy, Message, ClientFlush, Maintenance, Received, Output, Tabs.DropClient, NoTabs, Ended, Marked;
    match a
    case Accept => Connected(s)
    case Hangup(c) => DropClient(s, c)
    case Flush(c) => ClientFlush(s, c, env.moved, env.failed)
    case Receive(c, p) => Message(s, c, p, env)
    case TerminalWrite(id, wrote) =>
      var i := OnTerminal(s, id);
      if i.None? || !s.tabs[i.value].terminal.value.open then s
      else if env.failed then Ended(s, i.value)
      else if wrote then Marked(s, i.value, s.tabs[i.value].pendingFrame, true)
      else s
    case TerminalRead(id) =>
      var i := OnTerminal(s, id);
      if i.None? || !s.tabs[i.value].terminal.value.open then s else Output(s, i.value, env)
    case TerminalEnd(id) =>
      var i := OnTerminal(s, id);
      if i.None? then s else Ended(s, i.value)
    case Import(staged) => Received(s, staged)
    case Upgraded =>
      if s.pendingReplace == map[] && s.tabs != [] then Stopped(NoTabs(s))
      else if s.pendingReplace == map[] then Stopped(s)
      else s
    case Maintain => Maintenance(s, env)
  }

  /** One event at its time; a stopped service does nothing, and time never runs backwards. */
  function Step(s: Service, a: Action, env: Env): (r: Service)
    requires ValidService(s)
    ensures ValidService(r) && KeptDuring(s, r, a)
  {
    hide ValidService, Act, ShellTab, PageTab, Acknowledged;
    if !s.running || env.now < s.clock then s else Act(Ticked(s, env.now), a, env)
  }

  function Run(s: Service, events: seq<(Action, Env)>): (r: Service)
    requires ValidService(s)
    ensures ValidService(r)
  {
    hide ValidService, Step;
    if events == [] then s
    else
      var last := |events| - 1;
      Step(Run(s, events[..last]), events[last].0, events[last].1)
  }

  // ---- Where a service starts ----

  /** Restored recipes, or the tabs of an accepted upgrade snapshot: ordered IDs, nobody connected. */
  predicate Initial(s: Service) {
    && IdsOk(s.tabs, s.nextId)
    && s.clients == map[] && s.pendingReplace == map[] && s.closed == 0 && s.fallback == 0 && s.running
    && forall i | 0 <= i < |s.tabs| ::
      && s.tabs[i] == FreshTab(s.tabs[i].id, s.tabs[i].terminal, s.tabs[i].url)
      && (s.tabs[i].url.Some? <==> s.tabs[i].terminal.None?)
      && (s.tabs[i].terminal.Some? ==> Importable(s.tabs[i].terminal.value.engine, s.clock))
  }

  lemma InitialOk(s: Service)
    requires Initial(s)
    ensures ValidService(s)
  {
    hide IdsOk, ValidEngine, Follows;
    forall i | 0 <= i < |s.tabs|
      ensures TabOk(s.tabs[i], s.clients, s.clock)
    {
      assert s.tabs[i].screen == NO_SCREEN;
    }
  }

  // ---- What every run guarantees ----

  /** The state after restoring and then any run at all. */
  function Reached(start: Service, events: seq<(Action, Env)>): (s: Service)
    requires Initial(start)
    ensures ValidService(s)
  {
    InitialOk(start);
    Run(start, events)
  }

  lemma ClientHistory(s: Service, c: ClientId)
    requires ValidService(s) && c in s.clients
    ensures AllSendable(s.clients[c].log)
    ensures s.clients[c].delivered + s.clients[c].output == EncodeAll(s.clients[c].log)
    ensures forall tab: u32 :: Quiet(s.clients[c].log, tab)
  {
    hide TabOk, Quiet;
    assert ClientOk(s.clients[c]);
  }

  /**
   The replica follows the baseline. In every reachable state, the controlling client of a tab with a baseline,
   having read everything queued to it in any pieces, has decoded exactly the packets queued; and its page, which
   reads them from the j-th on and began with anything at all, shows exactly the baseline's cells and header. The
   page may have been created at the start of the connection or by any catalog, but no later than its client took
   control or, for a control that came with a window, than that window was told of the tab.
   */
  lemma ClientHoldsBaseline(start: Service, events: seq<(Action, Env)>, i: nat, j: nat, view: View, chunks: seq<seq<byte>>)
    requires Initial(start)
    requires var s := Reached(start, events);
      && i < |s.tabs| && s.tabs[i].controller.Some? && s.tabs[i].screen.rows != []
      && s.tabs[i].controller.value in s.clients
      && Flat(chunks) == s.clients[s.tabs[i].controller.value].delivered + s.clients[s.tabs[i].controller.value].output
      && Birth(s.clients[s.tabs[i].controller.value].log, j) && j <= s.tabs[i].since
    requires Idle(view)
    ensures var s := Reached(start, events);
      var t, client := s.tabs[i], s.clients[s.tabs[i].controller.value];
      && Parse(Flat(chunks)) == Parsed(client.log, [], false) && j <= |client.log|
      && var replica := Replay(Replica(view, true), client.log[j..], t.id);
         && replica.ok && replica.view.pending.None?
         && replica.view.cells == t.screen.rows && replica.view.frame == t.screen.frame
  {
    hide ValidService, Reached, Initial, Parse, EncodeAll, Replay, ValidView, Flat;
    var s := Reached(start, events);
    var c := s.tabs[i].controller.value;
    TabFollows(s, i);
    ClientHistory(s, c);
    ParseEncodeAll(s.clients[c].log, []);
    assert EncodeAll(s.clients[c].log) + [] == Flat(chunks);
    ParseNothing(s.clients[c].log);
    assert FollowsFrom(s.clients[c].log[j..], s.tabs[i].id, s.tabs[i].screen);
    assert Settled(Replay(Replica(view, true), s.clients[c].log[j..], s.tabs[i].id), s.tabs[i].screen);
  }

  lemma ParseNothing(ps: seq<Packet>)
    ensures Prepend(ps, Parse([])) == Parsed(ps, [], false)
  {
    assert ps + [] == ps;
  }

  lemma {:induction false} OkPrefix(r: Replica, ps: seq<Packet>, n: nat, tab: u32)
    requires ValidView(r.view) && n <= |ps| && Replay(r, ps, tab).ok
    ensures Replay(r, ps[..n], tab).ok
  {
    hide ValidView;
    if n == |ps| {
      assert ps[..n] == ps;
    } else {
      var last := |ps| - 1;
      OkPrefix(r, ps[..last], n, tab);
      assert ps[..last][..n] == ps[..n];
    }
  }

  /** Nothing the service sends is ever refused: at any point of its stream, for any tab, by a page created anywhere. */
  lemma NothingIsRefused(start: Service, events: seq<(Action, Env)>, c: ClientId, received: seq<byte>, tab: u32, j: nat, view: View)
    requires Initial(start)
    requires var s := Reached(start, events); c in s.clients && received <= s.clients[c].delivered + s.clients[c].output
    requires Idle(view) && j <= |Parse(received).packets| && Birth(Parse(received).packets, j)
    ensures var log := Reached(start, events).clients[c].log;
      && !Parse(received).failed
      && Parse(received).packets <= log
      && Replay(Replica(view, true), Parse(received).packets[j..], tab).ok
  {
    hide ValidService, Reached, Initial, Parse, EncodeAll, Replay, ValidView;
    var client := Reached(start, events).clients[c];
    var stream := client.delivered + client.output;
    ClientHistory(Reached(start, events), c);
    ParseEncodeAll(client.log, []);
    assert EncodeAll(client.log) + [] == stream;
    ParseNothing(client.log);
    assert received + stream[|received|..] == stream;
    ParseAppend(received, stream[|received|..]);
    var n := |Parse(received).packets|;
    assert Parse(received).packets == client.log[..n];
    assert Birth(client.log, j);
    assert Quiet(client.log, tab);
    assert QuietFrom(client.log[j..], tab);
    assert Settled(Replay(Replica(view, true), client.log[j..], tab), NO_SCREEN);
    OkPrefix(Replica(view, true), client.log[j..], n - j, tab);
    assert client.log[j..][..n - j] == client.log[..n][j..];
  }

  /** A tab whose frame can go out now: a ready, uncongested controller and no held redraw. */
  predicate FrameCanGo(s: Service, i: nat) {
    && Attemptable(s, i) && ValidEngine(s.tabs[i].terminal.value.engine)
    && s.clock >= s.tabs[i].terminal.value.engine.gate.now
    && Looked(s.tabs[i].terminal.value.engine, s.clock).gate.deadline == 0
  }

  /** A frame request that can go out makes the baseline current and acknowledges all damage, sent or not. */
  lemma FrameMakesCurrent(s: Service, i: nat, full: bool, find: Mover)
    requires ValidService(s) && FrameCanGo(s, i)
    ensures var after := SendFrame(s, i, full, find).0.tabs[i];
      var seen := Looked(s.tabs[i].terminal.value.engine, s.clock);
      && after.terminal.Some? && after.terminal.value.engine == Cleaned(seen)
      && Current(after.screen, seen)
  {
    hide ValidService, Replicable, MoveAllowed, Replicate, SameTabs, ValidEngine, Looked, Cleaned, Current;
    TakenOk(s, i, 0);
    LookedTab(s, i);
    var t := s.tabs[i];
    var seen := Looked(t.terminal.value.engine, s.clock);
    var client := s.clients[t.controller.value];
    ReplicableEngine(t.screen, seen);
    var m := find(t.screen, seen, full, client.features);
    AttemptKeeps(s, i, full, m);
    ReplicateKeeps(t.screen, seen, CLIENT_QUEUE - |client.output|, t.id, full, client.features, t.frameReply, m);
  }

  /** A held, gated or unready request for a controlled tab loses no damage and moves no baseline forward. */
  lemma FrameKeepsDamage(s: Service, i: nat, full: bool, find: Mover)
    requires ValidService(s) && i < |s.tabs| && s.tabs[i].terminal.Some? && s.tabs[i].controller.Some?
    requires !FrameCanGo(s, i)
    ensures var r := SendFrame(s, i, full, find);
      var t, after := s.tabs[i], r.0.tabs[i];
      && !r.1 && after.terminal.Some?
      && after.terminal.value.engine.rows == t.terminal.value.engine.rows
      && after.terminal.value.engine.dirty == t.terminal.value.engine.dirty
      && (after.screen == t.screen || (full && after.screen == t.screen.(rows := [])))
  {
    TakenOk(s, i, 0);
    LookedTab(s, i);
    LookedDamage(s.tabs[i].terminal.value.engine, s.clock);
    hide ValidService, ValidEngine, Looked, SendFrame;
    if Attemptable(s, i) {
      HeldAttempt(s, i, full, find);
    } else {
      GatedRequest(s, i, full, find);
    }
  }

  lemma GatedRequest(s: Service, i: nat, full: bool, find: Mover)
    requires ValidService(s) && i < |s.tabs| && s.tabs[i].terminal.Some? && s.tabs[i].controller.Some?
    requires !Attemptable(s, i)
    ensures var r := SendFrame(s, i, full, find);
      var t, after := s.tabs[i], r.0.tabs[i];
      && !r.1 && after.terminal == t.terminal
      && (after.screen == t.screen || (full && after.screen == t.screen.(rows := [])))
  {
    hide ValidService, Replicate, SameTabs, ValidEngine, Looked, MoveAllowed, Replicable;
    TakenOk(s, i, 0);
  }

  lemma LookedDamage(e: Engine, now: int)
    requires ValidEngine(e) && now >= e.gate.now
    ensures Looked(e, now).rows == e.rows && Looked(e, now).dirty == e.dirty
  {
  }

  lemma HeldAttempt(s: Service, i: nat, full: bool, find: Mover)
    requires ValidService(s) && Attemptable(s, i) && !FrameCanGo(s, i)
    ensures var r := SendFrame(s, i, full, find);
      var t, after := s.tabs[i], r.0.tabs[i];
      && !r.1 && ValidEngine(t.terminal.value.engine) && s.clock >= t.terminal.value.engine.gate.now
      && after.terminal.Some? && after.terminal.value.engine == Looked(t.terminal.value.engine, s.clock)
      && after.screen == if full then t.screen.(rows := []) else t.screen
  {
    hide ValidService, Replicable, MoveAllowed, Replicate, SameTabs, ValidEngine, Looked;
    TakenOk(s, i, 0);
    LookedTab(s, i);
    var t := s.tabs[i];
    var seen := Looked(t.terminal.value.engine, s.clock);
    var client := s.clients[t.controller.value];
    ReplicableEngine(t.screen, seen);
    var m := find(t.screen, seen, full, client.features);
    AttemptKeeps(s, i, full, m);
    ReplicateKeeps(t.screen, seen, CLIENT_QUEUE - |client.output|, t.id, full, client.features, t.frameReply, m);
  }

  // ---- What becomes of a tab over a run ----

  /**
   A shell is taken only from the front of a delivered acknowledgement: if a tab is a shell after n events and
   a page after one more, that event is a flush or the request of some client whose queue is then empty and
   whose delivered bytes are exactly its packets, this tab's acknowledgement among them.
   */
  lemma ConvertedAfterAck(start: Service, events: seq<(Action, Env)>, n: nat, id: u32) returns (c: ClientId)
    requires Initial(start) && n < |events|
    requires ShellTab(Reached(start, events[..n]).tabs, id) && PageTab(Reached(start, events[..n + 1]).tabs, id)
    ensures var r := Reached(start, events[..n + 1]);
      && c in r.clients && r.clients[c].output == []
      && Packet(WIRE_COMMAND_DONE, id, []) in r.clients[c].log
      && AllSendable(r.clients[c].log) && r.clients[c].delivered == EncodeAll(r.clients[c].log)
      && (events[n].0 == Flush(c) || (events[n].0.Receive? && events[n].0.client == c && events[n].0.packet.kind == WIRE_BROWSER_REPLACE))
  {
    hide ValidService, Initial, Reached, Run, Step, ShellTab, PageTab, EncodeAll, Quiet;
    var s, r := Reached(start, events[..n]), Reached(start, events[..n + 1]);
    OneMore(start, events, n);
    KnownTab(s, id);
    assert events[n].0.Flush? || events[n].0.Receive?;
    c := events[n].0.client;
    assert Acknowledged(r.clients, c, id);
    ClientHistory(r, c);
    assert r.clients[c].delivered + [] == r.clients[c].delivered;
  }

  lemma OneMore(start: Service, events: seq<(Action, Env)>, n: nat)
    requires Initial(start) && n < |events|
    ensures Reached(start, events[..n + 1]) == Step(Reached(start, events[..n]), events[n].0, events[n].1)
    ensures KeptDuring(Reached(start, events[..n]), Reached(start, events[..n + 1]), events[n].0)
  {
    hide ValidService, Initial, Step, KeptDuring;
    assert events[..n + 1][..n] == events[..n];
  }

  /** A shell's ID has been given out, and names nothing else. */
  lemma KnownTab(s: Service, id: u32)
    requires ValidService(s)
    ensures ShellTab(s.tabs, id) || PageTab(s.tabs, id) ==> 0 < id < s.nextId
    ensures !(ShellTab(s.tabs, id) && PageTab(s.tabs, id))
  {
    hide ClientsOk, TabsOk, ReplacementsOk, FallbackOk;
  }

  /**
   An ID never changes hands: once given out, it means the tab it was given to, as a shell or as the page that
   shell became, or nothing; a page never becomes a shell, and a tab that is gone never returns.
   */
  lemma {:induction false} IdsNeverReturn(start: Service, events: seq<(Action, Env)>, n: nat, m: nat, id: u32)
    requires Initial(start) && n <= m <= |events|
    requires id < Reached(start, events[..n]).nextId
    ensures var s, r := Reached(start, events[..n]), Reached(start, events[..m]);
      && s.nextId <= r.nextId
      && (ShellTab(r.tabs, id) ==> ShellTab(s.tabs, id))
      && (PageTab(r.tabs, id) ==> PageTab(s.tabs, id) || ShellTab(s.tabs, id))
    decreases m - n
  {
    hide ValidService, Initial, Reached, Step, ShellTab, PageTab, Acknowledged;
    if n < m {
      IdsNeverReturn(start, events, n, m - 1, id);
      OneMore(start, events, m - 1);
    }
  }

  /** Who and what the service's references name, in every reachable state. */
  lemma ReferencesHold(start: Service, events: seq<(Action, Env)>)
    requires Initial(start)
    ensures var s := Reached(start, events);
      && (forall i | 0 <= i < |s.tabs| ::
            && 0 < s.tabs[i].id < s.nextId
            && (s.tabs[i].url.Some? <==> s.tabs[i].terminal.None?)
            && (s.tabs[i].controller.Some? ==> s.tabs[i].controller.value in s.clients)
            && (s.tabs[i].printClient.Some? ==> s.tabs[i].printClient.value in s.clients))
      && (forall i, j | 0 <= i < j < |s.tabs| :: s.tabs[i].id < s.tabs[j].id)
      && (forall c | c in s.pendingReplace ::
            c in s.clients && HasTab(s.tabs, s.pendingReplace[c].0) && Packet(WIRE_COMMAND_DONE, s.pendingReplace[c].0, []) in s.clients[c].log)
      && (s.fallback != 0 ==> HasTab(s.tabs, s.fallback))
  {
    hide Initial, Reached, HasTab, ClientsOk, Follows, Replicable;
    var s := Reached(start, events);
    forall i | 0 <= i < |s.tabs|
      ensures TabOk(s.tabs[i], s.clients, s.clock)
    {
    }
  }

  /**
   Damage is never lost: in every reachable state an engine row not marked dirty equals its baseline row, and
   a tab nobody controls has no baseline for its damage to matter to.
   */
  lemma DamageIsKept(start: Service, events: seq<(Action, Env)>, i: nat)
    requires Initial(start)
    requires var s := Reached(start, events); i < |s.tabs| && s.tabs[i].terminal.Some?
    ensures var t := Reached(start, events).tabs[i];
      var e := t.terminal.value.engine;
      && (t.controller.None? ==> t.screen.rows == [])
      && (t.screen.rows != [] && t.screen.frame.columns == e.columns && |t.screen.rows| == |e.rows| ==>
            |e.dirty| == |e.rows| && forall r | 0 <= r < |e.rows| && !e.dirty[r] :: t.screen.rows[r] == e.rows[r])
  {
    hide Initial, Reached, ClientsOk, Follows, IdsOk, ReplacementsOk, FallbackOk;
    var s := Reached(start, events);
    assert TabOk(s.tabs[i], s.clients, s.clock);
  }
}
