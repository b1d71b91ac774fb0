/**
 The service's building steps on values: control, replication with its congestion gate, publication,
 resumption, closing and conversion. Each keeps the service invariant; that is part of its contract.
 */
module Services {
  import opened Bytes
  import opened Engines
  import opened Framing
  import opened Deltas
  import opened Viewports
  import opened Moves
  import opened Frames
  import opened Replicas
  import opened Tabs

  const WIRE_CLIPBOARD: u32 := 11
  const WIRE_BELL: u32 := 12
  const WIRE_PRINT: u32 := 14
  const WIRE_ERROR: u32 := 16
  const FRAME_INTERVAL: int := 16_000_000

  /** Any move search: whatever it prefers, what it returns has been confirmed row by row. */
  type Mover = f: (Screen, Engine, bool, u32) -> Option<Move> |
    forall s, e, full, features | ValidEngine(e) :: MoveAllowed(s, e, full, features, f(s, e, full, features))
    witness (s: Screen, e: Engine, full: bool, features: u32) => None

  // ---- Control ----

  /** The tab under a new controller, if that is connected; its history begins with what that has been queued. */
  function Granted(t: Tab, c: ClientId, clients: map<ClientId, Client>): (r: Tab) {
    if c in clients then Released(t).(controller := Some(c), since := |clients[c].log|, anchor := |clients[c].log|)
    else Released(t)
  }

  function Taken(s: Service, i: nat, c: ClientId): (r: Service)
    requires ValidService(s) && i < |s.tabs|
    ensures ValidService(r) && Kept(s, r) && SameTabs(s.tabs, r.tabs) && r.clients == s.clients
    ensures r.tabs[i].controller == if c in s.clients then Some(c) else None
  {
    hide ClientOk, TabOk, IdsOk, ClientsOk, TabsOk, ReplacementsOk, FallbackOk, ShellTab, PageTab;
    var taken := Granted(s.tabs[i], c, s.clients);
    TakenOk(s, i, c);
    SetTabKeeps(s, i, taken);
    SetTab(s, i, taken)
  }

  /** Control passes only to a connected client; the previous one is told, and the baseline starts over. */
  function TakeControl(s: Service, i: nat, c: ClientId): (r: Service)
    requires ValidService(s) && i < |s.tabs|
    ensures ValidService(r) && Kept(s, r) && SameTabs(s.tabs, r.tabs)
    ensures c in s.clients ==> c in r.clients && r.tabs[i].controller == Some(c)
  {
    hide ValidService, SetTab, ShellTab, PageTab;
    var previous := s.tabs[i].controller;
    if previous == Some(c) then TakenOk(s, i, c); s
    else
      var s1 := Taken(s, i, c);
      if previous.None? then s1
      else
        OnlyTab(s1, i);
        ControlSurvives(s1, i, previous.value, s.tabs[i].id);
        Queue(s1, previous.value, WIRE_RELEASE, s.tabs[i].id, [])
  }

  /**
   What a change of control does: the tab's baseline and pending reply start over under the new controller, and
   the previous one is told by one packet or dropped.
   */
  lemma ControlMoves(s: Service, i: nat, c: ClientId)
    requires ValidService(s) && i < |s.tabs| && s.tabs[i].controller != Some(c)
    ensures var r, previous := TakeControl(s, i, c), s.tabs[i].controller;
      && |r.tabs| == |s.tabs| && r.tabs[i].screen == NO_SCREEN && !r.tabs[i].frameReply
      && r.tabs[i].controller == (if c in s.clients then Some(c) else None)
      && r.tabs[i].terminal == s.tabs[i].terminal && (c in s.clients ==> r.tabs[i].since == r.tabs[i].anchor == |s.clients[c].log|)
      && (previous.Some? && previous.value in r.clients ==>
            previous.value in s.clients &&
            r.clients[previous.value].log == s.clients[previous.value].log + [Packet(WIRE_RELEASE, s.tabs[i].id, [])])
  {
    TakenOnly(s, i, c);
    GrantedIs(s.tabs[i], c, s.clients);
    ControlBy(s, i, c);
    hide ValidService, TakeControl, Taken, Granted, Tabs.Queue, DropClient, EncodeAll, Kept, SameTabs;
    var s1, previous := Taken(s, i, c), s.tabs[i].controller;
    if previous.Some? {
      QueueAddsOnly(s1, previous.value, WIRE_RELEASE, s.tabs[i].id, []);
      DropForgetsOnly(s1, previous.value);
    }
  }

  /** What it leaves alone: every other client, and every other tab unless a dropped client had it. */
  lemma ControlSpares(s: Service, i: nat, c: ClientId)
    requires ValidService(s) && i < |s.tabs| && s.tabs[i].controller != Some(c)
    ensures var r, previous := TakeControl(s, i, c), s.tabs[i].controller;
      && (forall d | d in s.clients && Some(d) != previous :: d in r.clients && r.clients[d] == s.clients[d])
      && |r.tabs| == |s.tabs| && forall j | 0 <= j < |s.tabs| && j != i ::
           previous.None? || previous.value in r.clients || (s.tabs[j].controller != previous && s.tabs[j].printClient != previous) ==>
           r.tabs[j] == s.tabs[j]
  {
    TakenOnly(s, i, c);
    ControlBy(s, i, c);
    hide ValidService, TakeControl, Taken, Tabs.Queue, DropClient, EncodeAll, Kept, SameTabs, Granted, Logged;
    var s1, previous := Taken(s, i, c), s.tabs[i].controller;
    if previous.Some? {
      QueueAddsOnly(s1, previous.value, WIRE_RELEASE, s.tabs[i].id, []);
      DropForgetsOnly(s1, previous.value);
    }
  }

  lemma GrantedIs(t: Tab, c: ClientId, clients: map<ClientId, Client>)
    ensures var r := Granted(t, c, clients);
      && r.screen == NO_SCREEN && !r.frameReply && r.terminal == t.terminal && r.id == t.id
      && r.controller == (if c in clients then Some(c) else None)
      && (c in clients ==> r.since == r.anchor == |clients[c].log|)
  {
  }

  lemma TakenOnly(s: Service, i: nat, c: ClientId)
    requires ValidService(s) && i < |s.tabs|
    ensures Taken(s, i, c) == SetTab(s, i, Granted(s.tabs[i], c, s.clients))
  {
    hide ValidService, Kept, SameTabs;
  }

  lemma ControlBy(s: Service, i: nat, c: ClientId)
    requires ValidService(s) && i < |s.tabs|
    ensures s.tabs[i].controller == Some(c) ==> TakeControl(s, i, c) == s
    ensures s.tabs[i].controller != Some(c) ==>
      var s1, previous := Taken(s, i, c), s.tabs[i].controller;
      && (previous.Some? ==> previous.value in s.clients && forall j | 0 <= j < |s1.tabs| && s1.tabs[j].id == s.tabs[i].id :: s1.tabs[j].controller != previous)
      && TakeControl(s, i, c) == if previous.None? then s1 else Queue(s1, previous.value, WIRE_RELEASE, s.tabs[i].id, [])
  {
    if s.tabs[i].controller != Some(c) {
      OnlyTab(Taken(s, i, c), i);
    }
    TakenOk(s, i, c);
    hide ValidService, Taken, Tabs.Queue, Kept;
  }

  lemma TakenOk(s: Service, i: nat, c: ClientId)
    requires ValidService(s) && i < |s.tabs|
    ensures TabOk(s.tabs[i], s.clients, s.clock)
    ensures s.tabs[i].controller.Some? ==> s.tabs[i].controller.value in s.clients
    ensures TabOk(Granted(s.tabs[i], c, s.clients), s.clients, s.clock)
  {
    hide Follows, ValidEngine;
  }

  lemma OnlyTab(s: Service, i: nat)
    requires ValidService(s) && i < |s.tabs|
    ensures forall j | 0 <= j < |s.tabs| && s.tabs[j].id == s.tabs[i].id :: j == i
  {
    hide TabOk, ClientOk;
    forall j | 0 <= j < |s.tabs| && s.tabs[j].id == s.tabs[i].id
      ensures j == i
    {
    }
  }

  /** Telling one client, even dropping it, leaves a tab controlled by another alone. */
  lemma ControlSurvives(s: Service, i: nat, c: ClientId, tab: u32)
    requires ValidService(s) && i < |s.tabs| && s.tabs[i].controller != Some(c)
    requires forall j | 0 <= j < |s.tabs| && s.tabs[j].id == tab :: s.tabs[j].controller != Some(c)
    ensures var r := Queue(s, c, WIRE_RELEASE, tab, []);
      |r.tabs| == |s.tabs| && r.tabs[i].controller == s.tabs[i].controller
  {
    hide ValidService, ClientOk, TabOk, EncodeAll, Logged;
  }

  // ---- One frame for one tab ----

  /** An engine that has been looked at, and cleaned when nobody needs its damage. */
  lemma EngineTabOk(t: Tab, e: Engine, clients: map<ClientId, Client>, clock: int, pending: bool)
    requires TabOk(t, clients, clock) && t.terminal.Some?
    requires e.gate.now <= clock && Replicable(t.screen, e)
    ensures TabOk(t.(terminal := Some(t.terminal.value.(engine := e)), pendingFrame := pending), clients, clock)
  {
    hide Replicable, Follows;
  }

  /** Nobody sees the tab: its damage is acknowledged as soon as no redraw is held. */
  function LookUncontrolled(s: Service, i: nat): (r: Service)
    requires ValidService(s) && i < |s.tabs| && s.tabs[i].terminal.Some? && s.tabs[i].controller.None?
    ensures ValidService(r) && Kept(s, r) && SameTabs(s.tabs, r.tabs) && r.clients == s.clients
  {
    hide ValidService, TabOk, SameTabs, ValidEngine, Looked, Cleaned, ShellTab, PageTab;
    UncontrolledOk(s, i);
    var t := s.tabs[i];
    var seen := Looked(t.terminal.value.engine, s.clock);
    var done := seen.gate.deadline == 0;
    var next := t.(terminal := Some(t.terminal.value.(engine := if done then Cleaned(seen) else seen)),
                   pendingFrame := t.pendingFrame && !done);
    SetTabKeeps(s, i, next);
    SetTab(s, i, next)
  }

  /** The client is congested: queued bytes and their baseline stay, and one later delta catches up. */
  function Gate(s: Service, i: nat, full: bool): (r: Service)
    requires ValidService(s) && i < |s.tabs| && s.tabs[i].terminal.Some? && s.tabs[i].controller.Some?
    requires s.tabs[i].controller.value in s.clients
    ensures ValidService(r) && Kept(s, r) && SameTabs(s.tabs, r.tabs) && r.clients.Keys == s.clients.Keys
  {
    hide ValidService, TabOk, ReplacementsOk, SameTabs, Kept;
    var t, c := s.tabs[i], s.tabs[i].controller.value;
    var next := t.(screen := if full then t.screen.(rows := []) else t.screen, pendingFrame := false);
    GatedOk(s, i, full);
    SetTabKeeps(s, i, next);
    GatedClient(SetTab(s, i, next), c);
    SetClientKept(s, SetTab(s, i, next), c, s.clients[c].(needsResync := true));
    SetClient(SetTab(s, i, next), c, s.clients[c].(needsResync := true))
  }

  /** What one frame request does; the flag says whether a frame was queued. */
  function SendFrame(s: Service, i: nat, full: bool, find: Mover): (r: (Service, bool))
    requires ValidService(s) && i < |s.tabs|
    ensures ValidService(r.0) && Kept(s, r.0) && SameTabs(s.tabs, r.0.tabs) && r.0.clients.Keys == s.clients.Keys
  {
    hide ValidService, Replicable, ValidEngine, MoveAllowed, EncodeAll, Looked, Replicate, Quiet, NeedsFull, ShellTab, PageTab;
    SameTabsSelf(s.tabs);
    TakenOk(s, i, 0);
    var t := s.tabs[i];
    if t.terminal.None? then (s, false)
    else if t.controller.None? then (LookUncontrolled(s, i), false)
    else
      var client := s.clients[t.controller.value];
      if !client.ready then (s, false)
      else if client.needsResync || |client.output| >= FRAME_BACKLOG then (Gate(s, i, full), false)
      else
        LookedTab(s, i);
        var seen := Looked(t.terminal.value.engine, s.clock);
        ReplicableEngine(t.screen, seen);
        var m := find(t.screen, seen, full, client.features);
        AttemptKeeps(s, i, full, m);
        var sent := Replicate(t.screen, seen, CLIENT_QUEUE - |client.output|, t.id, full, client.features, t.frameReply, m);
        (Attempted(s, i, sent, NeedsFull(t.screen, seen, full)), sent.outcome == Sent)
  }

  lemma SameTabsSelf(tabs: seq<Tab>)
    ensures SameTabs(tabs, tabs)
  {
  }

  /** A ready tab with a controlling client below the congestion gate. */
  predicate Attemptable(s: Service, i: nat) {
    && i < |s.tabs| && s.tabs[i].terminal.Some? && s.tabs[i].controller.Some?
    && s.tabs[i].controller.value in s.clients
    && var client := s.clients[s.tabs[i].controller.value];
       client.ready && !client.needsResync && |client.output| < FRAME_BACKLOG
  }

  /** What the service does with the outcome of a replication attempt; `whole`: the frame needs no earlier one. */
  function Attempted(s: Service, i: nat, sent: Replicated, whole: bool): (r: Service)
    requires i < |s.tabs| && s.tabs[i].terminal.Some? && s.tabs[i].controller.Some?
    requires s.tabs[i].controller.value in s.clients
    requires AllSendable(sent.packets)
  {
    var t, c := s.tabs[i], s.tabs[i].controller.value;
    SetClient(SetTab(s, i, TabAfter(t, sent, AnchorAfter(t, s.clients[c].log, sent, whole))), c, Logged(s.clients[c], sent.packets))
  }

  /** A whole frame that goes out is one every page created so far can follow. */
  function AnchorAfter(t: Tab, log: seq<Packet>, sent: Replicated, whole: bool): (anchor: nat) {
    if whole && sent.outcome == Sent then |log| else t.anchor
  }

  function TabAfter(t: Tab, sent: Replicated, anchor: nat): (r: Tab)
    requires t.terminal.Some?
  {
    t.(terminal := Some(t.terminal.value.(engine := sent.engine)), screen := sent.screen,
       pendingFrame := sent.outcome == Held, frameReply := t.frameReply && sent.outcome != Sent, anchor := anchor)
  }

  lemma LookedTab(s: Service, i: nat)
    requires ValidService(s) && i < |s.tabs| && s.tabs[i].terminal.Some?
    ensures var e := s.tabs[i].terminal.value.engine;
      ValidEngine(e) && s.clock >= e.gate.now && Replicable(s.tabs[i].screen, Looked(e, s.clock)) &&
      Looked(e, s.clock).gate.now == s.clock
  {
    hide Follows, ValidRow, ClientOk;
    assert TabOk(s.tabs[i], s.clients, s.clock);
    LookedReplicable(s.tabs[i].screen, s.tabs[i].terminal.value.engine, s.clock);
  }

  /** Cleaning an uncontrolled tab loses nothing: it has no baseline that its damage could explain. */
  lemma UncontrolledOk(s: Service, i: nat)
    requires ValidService(s) && i < |s.tabs| && s.tabs[i].terminal.Some? && s.tabs[i].controller.None?
    ensures var t := s.tabs[i];
      var e := t.terminal.value.engine;
      && ValidEngine(e) && s.clock >= e.gate.now
      && var seen := Looked(e, s.clock);
         TabOk(t.(terminal := Some(t.terminal.value.(engine := if seen.gate.deadline == 0 then Cleaned(seen) else seen)),
                  pendingFrame := t.pendingFrame && seen.gate.deadline != 0), s.clients, s.clock)
  {
    hide Follows, ClientOk;
    assert TabOk(s.tabs[i], s.clients, s.clock);
    LookedTab(s, i);
  }

  lemma GatedOk(s: Service, i: nat, full: bool)
    requires ValidService(s) && i < |s.tabs|
    ensures var t := s.tabs[i];
      TabOk(t.(screen := if full then t.screen.(rows := []) else t.screen, pendingFrame := false), s.clients, s.clock)
  {
    hide Follows, ClientOk, ValidEngine;
    assert TabOk(s.tabs[i], s.clients, s.clock);
  }

  lemma GatedClient(s: Service, c: ClientId)
    requires ValidService(s) && c in s.clients
    ensures ValidService(SetClient(s, c, s.clients[c].(needsResync := true)))
    ensures ValidService(SetClient(s, c, s.clients[c].(needsResync := false)))
  {
    hide Quiet, Follows, Replicable, EncodeAll;
    assert ClientOk(s.clients[c]);
    forall i | 0 <= i < |s.tabs| && s.tabs[i].controller == Some(c) && s.tabs[i].screen.rows != []
      ensures Follows(s.clients[c].log, s.tabs[i].id, s.tabs[i].screen, s.tabs[i].anchor)
    {
      assert TabOk(s.tabs[i], s.clients, s.clock);
    }
    SetClientKeeps(s, c, s.clients[c].(needsResync := true));
    SetClientKeeps(s, c, s.clients[c].(needsResync := false));
  }

  lemma SetClientKept(start: Service, s: Service, c: ClientId, client: Client)
    requires Kept(start, s) && c in s.clients
    ensures Kept(start, SetClient(s, c, client)) && SetClient(s, c, client).clients.Keys == s.clients.Keys
  {
    hide ShellTab, PageTab;
  }

  /** The packets of an attempt all belong to its tab. */
  lemma PacketsOfTab(s: Screen, e: Engine, room: nat, tab: u32, full: bool, features: u32, reply: bool, m: Option<Move>)
    requires Replicable(s, e) && MoveAllowed(s, e, full, features, m)
    ensures forall p | p in Replicate(s, e, room, tab, full, features, reply, m).packets :: p.tab == tab && FrameKind(p.kind)
    ensures |EncodeAll(Replicate(s, e, room, tab, full, features, reply, m).packets)| <= room
  {
    hide MakePlan, PlanFits, PlanOperations, EncodeAll, Commit, MoveAllowed, ValidEngine, Undamaged, OperationPacket, FrameBody;
    if Prepare(s, e, full, features, reply, m).Changed? {
      PlanIsSized(s, e, full, features, m);
    }
    EncodeNothing();
  }

  /** From every idle start, the attempt's packets carry the replica from one baseline to the next. */
  lemma ReaderFollows(log: seq<Packet>, s: Screen, e: Engine, room: nat, tab: u32, full: bool, features: u32, reply: bool, m: Option<Move>)
    requires Replicable(s, e) && MoveAllowed(s, e, full, features, m)
    ensures var sent := Replicate(s, e, room, tab, full, features, reply, m);
      && (QuietFrom(log, tab) ==> QuietFrom(log + sent.packets, tab))
      && (FollowsFrom(log, tab, s) ==> FollowsFrom(log + sent.packets, tab, sent.screen))
      && (QuietFrom(log, tab) && NeedsFull(s, e, full) && sent.outcome == Sent ==> FollowsFrom(log + sent.packets, tab, sent.screen))
  {
    hide Replicate, Replicable, Settled, MoveAllowed, NeedsFull;
    var sent := Replicate(s, e, room, tab, full, features, reply, m);
    forall v | Idle(v)
      ensures QuietFrom(log, tab) ==> Settled(Replay(Replica(v, true), log + sent.packets, tab), NO_SCREEN)
      ensures FollowsFrom(log, tab, s) || (QuietFrom(log, tab) && NeedsFull(s, e, full) && sent.outcome == Sent) ==>
        Settled(Replay(Replica(v, true), log + sent.packets, tab), sent.screen)
    {
      var r := Replay(Replica(v, true), log, tab);
      ReplayConcat(Replica(v, true), log, sent.packets, tab);
      if QuietFrom(log, tab) {
        assert Settled(r, NO_SCREEN);
        ClientAccepts(r, s, e, room, tab, full, features, reply, m);
        if NeedsFull(s, e, full) && sent.outcome == Sent {
          FrameArrives(r, s, e, room, tab, full, features, reply, m);
        }
      }
      if FollowsFrom(log, tab, s) {
        assert Settled(r, s);
        ClientFollows(r, s, e, room, tab, full, features, reply, m);
      }
    }
  }

  /**
   Wherever a page was born, the attempt keeps it quiet; born before the anchor it goes on following, and a whole
   frame moves the anchor to here.
   */
  lemma LogFollows(log: seq<Packet>, s: Screen, e: Engine, room: nat, tab: u32, full: bool, features: u32, reply: bool, m: Option<Move>, anchor: nat)
    requires Replicable(s, e) && MoveAllowed(s, e, full, features, m) && Quiet(log, tab) && Follows(log, tab, s, anchor)
    ensures var sent := Replicate(s, e, room, tab, full, features, reply, m);
      && Quiet(log + sent.packets, tab)
      && Follows(log + sent.packets, tab, sent.screen, if NeedsFull(s, e, full) && sent.outcome == Sent then |log| else anchor)
  {
    hide Replicate, Replicable, MoveAllowed, NeedsFull, QuietFrom, FollowsFrom;
    var sent := Replicate(s, e, room, tab, full, features, reply, m);
    PacketsOfTab(s, e, room, tab, full, features, reply, m);
    forall j: nat | Birth(log + sent.packets, j)
      ensures QuietFrom((log + sent.packets)[j..], tab)
      ensures j <= (if NeedsFull(s, e, full) && sent.outcome == Sent then |log| else anchor) ==>
        FollowsFrom((log + sent.packets)[j..], tab, sent.screen)
    {
      NoneBorn(log, sent.packets, j);
      BornBefore(log, sent.packets, j);
      ReaderFollows(log[j..], s, e, room, tab, full, features, reply, m);
    }
  }

  lemma TabFollows(s: Service, i: nat)
    requires ValidService(s) && i < |s.tabs| && s.tabs[i].controller.Some?
    ensures s.tabs[i].controller.value in s.clients
    ensures Follows(s.clients[s.tabs[i].controller.value].log, s.tabs[i].id, s.tabs[i].screen, s.tabs[i].anchor)
    ensures Quiet(s.clients[s.tabs[i].controller.value].log, s.tabs[i].id)
    ensures s.tabs[i].since <= |s.clients[s.tabs[i].controller.value].log| && s.tabs[i].anchor <= |s.clients[s.tabs[i].controller.value].log|
    ensures s.tabs[i].screen.rows != [] ==> s.tabs[i].since <= s.tabs[i].anchor
  {
    hide Replicable, EncodeAll, QuietFrom, FollowsFrom;
    assert TabOk(s.tabs[i], s.clients, s.clock);
    var t, log := s.tabs[i], s.clients[s.tabs[i].controller.value].log;
    assert ClientOk(s.clients[t.controller.value]);
    assert Quiet(log, t.id);
    if t.screen.rows == [] {
      forall j: nat | Birth(log, j)
        ensures FollowsFrom(log[j..], t.id, t.screen)
      {
        QuietIsFollowing(log[j..], t.id, t.screen);
      }
    }
  }

  /** An attempt below the gate is never refused, and keeps the whole invariant whatever its outcome. */
  lemma AttemptKeeps(s: Service, i: nat, full: bool, m: Option<Move>)
    requires ValidService(s) && Attemptable(s, i)
    requires ValidEngine(s.tabs[i].terminal.value.engine) && s.clock >= s.tabs[i].terminal.value.engine.gate.now
    requires var seen := Looked(s.tabs[i].terminal.value.engine, s.clock);
      Replicable(s.tabs[i].screen, seen) &&
      MoveAllowed(s.tabs[i].screen, seen, full, s.clients[s.tabs[i].controller.value].features, m)
    ensures var t, client := s.tabs[i], s.clients[s.tabs[i].controller.value];
      |client.output| <= CLIENT_QUEUE &&
      var sent := Replicate(t.screen, Looked(t.terminal.value.engine, s.clock), CLIENT_QUEUE - |client.output|, t.id, full,
                            client.features, t.frameReply, m);
      var r := Attempted(s, i, sent, NeedsFull(t.screen, Looked(t.terminal.value.engine, s.clock), full));
      sent.outcome != Refused && ValidService(r) && SameTabs(s.tabs, r.tabs) && Kept(s, r)
  {
    hide Replicate, MoveAllowed, ValidEngine, Quiet, Follows, EncodeAll, Replicable, Looked, NeedsFull, IdsOk, ReplacementsOk, FallbackOk;
    var t, c := s.tabs[i], s.tabs[i].controller.value;
    var client := s.clients[c];
    assert ClientOk(client);
    assert TabOk(t, s.clients, s.clock);
    var seen := Looked(t.terminal.value.engine, s.clock);
    var room := CLIENT_QUEUE - |client.output|;
    var sent := Replicate(t.screen, seen, room, t.id, full, client.features, t.frameReply, m);
    NeverRefused(t.screen, seen, room, t.id, full, client.features, t.frameReply, m);
    ReplicateKeeps(t.screen, seen, room, t.id, full, client.features, t.frameReply, m);
    PacketsOfTab(t.screen, seen, room, t.id, full, client.features, t.frameReply, m);
    TabFollows(s, i);
    LogFollows(client.log, t.screen, seen, room, t.id, full, client.features, t.frameReply, m, t.anchor);
    LookedNow(t.terminal.value.engine, s.clock);
    EmptyNeedsWhole(t.screen, seen, room, t.id, full, client.features, t.frameReply, m);
    AttemptLogged(s, i, sent, NeedsFull(t.screen, seen, full));
  }

  /** The first frame of a baseline is a whole one. */
  lemma EmptyNeedsWhole(s: Screen, e: Engine, room: nat, tab: u32, full: bool, features: u32, reply: bool, m: Option<Move>)
    requires Replicable(s, e) && MoveAllowed(s, e, full, features, m)
    ensures var sent := Replicate(s, e, room, tab, full, features, reply, m);
      s.rows == [] && sent.screen.rows != [] ==> NeedsFull(s, e, full) && sent.outcome == Sent
  {
    hide MakePlan, PlanFits, PlanPackets, EncodeAll, Commit, MoveAllowed, Undamaged;
    if s.rows == [] {
      ReplicableEngine(s, e);
    }
  }

  /** A frame asked for whole, of a ready client: whatever baseline there is now, every page created so far can follow it. */
  lemma WholeAnchors(s: Service, i: nat, find: Mover)
    requires ValidService(s) && i < |s.tabs| && s.tabs[i].terminal.Some? && s.tabs[i].controller.Some?
    requires s.tabs[i].controller.value in s.clients && s.clients[s.tabs[i].controller.value].ready
    ensures var r, c := SendFrame(s, i, true, find).0, s.tabs[i].controller.value;
      && |r.tabs| == |s.tabs| && r.tabs[i].controller == Some(c) && c in r.clients && |s.clients[c].log| <= |r.clients[c].log|
      && (r.tabs[i].screen.rows != [] ==> r.tabs[i].anchor == |s.clients[c].log|)
      && (forall j: nat | Birth(r.clients[c].log, j) :: j <= |s.clients[c].log|)
  {
    hide ValidService, Replicable, MoveAllowed, Replicate, ValidEngine, Looked, SameTabs, Kept;
    if Attemptable(s, i) {
      LookedTab(s, i);
      var t := s.tabs[i];
      var client, seen := s.clients[t.controller.value], Looked(t.terminal.value.engine, s.clock);
      ReplicableEngine(t.screen, seen);
      var m := find(t.screen, seen, true, client.features);
      AttemptKeeps(s, i, true, m);
      var sent := Replicate(t.screen, seen, CLIENT_QUEUE - |client.output|, t.id, true, client.features, t.frameReply, m);
      PacketsOfTab(t.screen, seen, CLIENT_QUEUE - |client.output|, t.id, true, client.features, t.frameReply, m);
      forall j: nat | Birth(client.log + sent.packets, j)
        ensures j <= |client.log|
      {
        NoneBorn(client.log, sent.packets, j);
      }
      WholeOutcome(t.screen, seen, CLIENT_QUEUE - |client.output|, t.id, client.features, t.frameReply, m);
    }
  }

  lemma WholeOutcome(s: Screen, e: Engine, room: nat, tab: u32, features: u32, reply: bool, m: Option<Move>)
    requires Replicable(s, e) && MoveAllowed(s, e, true, features, m)
    ensures var sent := Replicate(s, e, room, tab, true, features, reply, m);
      sent.outcome == Sent || sent.outcome == Refused || sent.screen.rows == []
  {
    hide MakePlan, PlanFits, PlanPackets, EncodeAll, Commit, MoveAllowed, Undamaged;
    assert MakePlan(s, e, true, features, m).full by { WholePlan(s, e, features, m); }
  }

  lemma WholePlan(s: Screen, e: Engine, features: u32, m: Option<Move>)
    requires Replicable(s, e) && MoveAllowed(s, e, true, features, m)
    ensures MakePlan(s, e, true, features, m).full
  {
    hide FullUpdates, DeltaUpdates, MoveAllowed, Replicable;
  }

  lemma LookedNow(e: Engine, now: int)
    requires ValidEngine(e) && now >= e.gate.now
    ensures Looked(e, now).gate.now == now
  {
  }

  lemma AttemptLogged(s: Service, i: nat, sent: Replicated, whole: bool)
    requires ValidService(s) && Attemptable(s, i) && AllSendable(sent.packets)
    requires Replicable(sent.screen, sent.engine) && sent.engine.gate.now <= s.clock
    requires forall p | p in sent.packets :: p.tab == s.tabs[i].id && FrameKind(p.kind)
    requires var client := s.clients[s.tabs[i].controller.value];
      |client.output| <= CLIENT_QUEUE && |EncodeAll(sent.packets)| <= CLIENT_QUEUE - |client.output| &&
      Quiet(client.log + sent.packets, s.tabs[i].id) &&
      Follows(client.log + sent.packets, s.tabs[i].id, sent.screen, AnchorAfter(s.tabs[i], client.log, sent, whole))
    requires s.tabs[i].screen.rows == [] && sent.screen.rows != [] ==> whole && sent.outcome == Sent
    ensures var r := Attempted(s, i, sent, whole); ValidService(r) && SameTabs(s.tabs, r.tabs) && Kept(s, r)
  {
    hide ClientOk, TabOk, IdsOk, ReplacementsOk, FallbackOk, ClientsOk, TabsOk, EncodeAll, Replicable, Follows;
    var t, c := s.tabs[i], s.tabs[i].controller.value;
    var client := Logged(s.clients[c], sent.packets);
    TakenOk(s, i, 0);
    ClearedOk(t, s.clients, s.clock);
    var cleared := t.(screen := NO_SCREEN);
    SetTabKeeps(s, i, cleared);
    var s1 := SetTab(s, i, cleared);
    OthersFollow(s, i, sent);
    SetClientKeeps(s1, c, client);
    var s2 := SetClient(s1, c, client);
    var anchor := AnchorAfter(t, s.clients[c].log, sent, whole);
    AnchorOk(s, i, sent, whole);
    var next := TabAfter(t, sent, anchor);
    NextOk(t, next, s.clients, s2.clients, s.clock);
    SetTabKeeps(s2, i, next);
    assert SetTab(s2, i, next) == Attempted(s, i, sent, whole);
  }

  lemma NextOk(t: Tab, next: Tab, clients: map<ClientId, Client>, after: map<ClientId, Client>, clock: int)
    requires TabOk(t, clients, clock) && t.terminal.Some? && after.Keys == clients.Keys
    requires next.terminal.Some? && next.controller == t.controller && next.controller.Some?
    requires next.id == t.id && next.url == t.url && next.printClient == t.printClient
    requires next.terminal.value.engine.gate.now <= clock && Replicable(next.screen, next.terminal.value.engine)
    requires next.controller.value in after && Follows(after[next.controller.value].log, next.id, next.screen, next.anchor)
    requires next.since <= |after[next.controller.value].log| && next.anchor <= |after[next.controller.value].log|
    requires next.screen.rows != [] ==> next.since <= next.anchor
    ensures TabOk(next, after, clock)
  {
    hide Replicable, Follows;
  }

  lemma AnchorOk(s: Service, i: nat, sent: Replicated, whole: bool)
    requires ValidService(s) && Attemptable(s, i)
    requires s.tabs[i].screen.rows == [] && sent.screen.rows != [] ==> whole && sent.outcome == Sent
    ensures var t, log := s.tabs[i], s.clients[s.tabs[i].controller.value].log;
      && t.since <= |log| && AnchorAfter(t, log, sent, whole) <= |log|
      && (sent.screen.rows != [] ==> t.since <= AnchorAfter(t, log, sent, whole))
  {
    hide Quiet, Follows, EncodeAll, Replicable, ClientOk;
    assert TabOk(s.tabs[i], s.clients, s.clock);
  }

  lemma OthersFollow(s: Service, i: nat, sent: Replicated)
    requires ValidService(s) && Attemptable(s, i) && AllSendable(sent.packets)
    requires forall p | p in sent.packets :: p.tab == s.tabs[i].id && FrameKind(p.kind)
    requires var client := s.clients[s.tabs[i].controller.value];
      |client.output| <= CLIENT_QUEUE && |EncodeAll(sent.packets)| <= CLIENT_QUEUE - |client.output| &&
      Quiet(client.log + sent.packets, s.tabs[i].id)
    ensures var c := s.tabs[i].controller.value;
      var client := Logged(s.clients[c], sent.packets);
      && ClientOk(client)
      && forall j | 0 <= j < |s.tabs| && j != i && s.tabs[j].controller == Some(c) && s.tabs[j].screen.rows != [] ::
           Follows(client.log, s.tabs[j].id, s.tabs[j].screen, s.tabs[j].anchor)
  {
    hide Quiet, Follows, EncodeAll, Replicable;
    var c := s.tabs[i].controller.value;
    var log := s.clients[c].log;
    assert ClientOk(s.clients[c]);
    AttemptQuiet(log, sent.packets, s.tabs[i].id);
    LoggedOk(s.clients[c], sent.packets);
    OnlyTab(s, i);
    forall j | 0 <= j < |s.tabs| && j != i && s.tabs[j].controller == Some(c) && s.tabs[j].screen.rows != []
      ensures Follows(log + sent.packets, s.tabs[j].id, s.tabs[j].screen, s.tabs[j].anchor)
    {
      assert TabOk(s.tabs[j], s.clients, s.clock);
      FollowsOther(log, sent.packets, s.tabs[j].id, s.tabs[j].screen, s.tabs[j].anchor);
    }
  }

  lemma ClearedOk(t: Tab, clients: map<ClientId, Client>, clock: int)
    requires TabOk(t, clients, clock)
    ensures TabOk(t.(screen := NO_SCREEN), clients, clock)
  {
    hide ValidEngine, Follows;
  }

  lemma AttemptQuiet(log: seq<Packet>, ps: seq<Packet>, tab: u32)
    requires forall other: u32 :: Quiet(log, other)
    requires forall p | p in ps :: p.tab == tab && FrameKind(p.kind)
    requires Quiet(log + ps, tab)
    ensures forall other: u32 :: Quiet(log + ps, other)
  {
    hide Quiet;
    forall other: u32
      ensures Quiet(log + ps, other)
    {
      assert Quiet(log, other);
      if other != tab {
        QuietOther(log, ps, other);
      }
    }
  }
}
