/**
 The service as an object: its fields are replaced by methods and loops, and every method leaves exactly the
 state the specification functions give, so that what is proved of those and of their runs holds of it.
 */
module Workspaces {
  import opened Bytes
  import Grids
  import opened Engines
  import opened Framing
  import opened Deltas
  import opened Frames
  import opened Replicas
  import opened Tabs
  import opened Services
  import opened Steps
  import opened Paging
  import Transfers
  import Messages
  import Runs

  class Workspace {
    var tabs: seq<Tab>
    var clients: map<ClientId, Client>
    var nextId: u32
    var nextClient: ClientId
    var running: bool
    var restoredLaunch: bool
    var pendingReplace: map<ClientId, (u32, seq<byte>)>
    var handin: bool
    var closed: u32
    var fallback: u32
    var lastFrame: int
    var clock: int

    ghost function Value(): Service
      reads this
    {
      Service(tabs, clients, nextId, nextClient, running, restoredLaunch, pendingReplace, handin, closed, fallback, lastFrame, clock)
    }

    ghost predicate Valid()
      reads this
    {
      ValidService(Value())
    }

    constructor (s: Service)
      requires ValidService(s)
      ensures Value() == s && Valid()
    {
      tabs, clients, nextId, nextClient := s.tabs, s.clients, s.nextId, s.nextClient;
      running, restoredLaunch, pendingReplace, handin := s.running, s.restoredLaunch, s.pendingReplace, s.handin;
      closed, fallback, lastFrame, clock := s.closed, s.fallback, s.lastFrame, s.clock;
    }

    /** Replace one tab. */
    method PutTab(i: nat, t: Tab)
      requires i < |tabs|
      modifies this`tabs
      ensures Value() == SetTab(old(Value()), i, t)
    {
      tabs := tabs[i := t];
    }

    /** Replace one client's record. */
    method PutClient(c: ClientId, client: Client)
      modifies this`clients
      ensures Value() == SetClient(old(Value()), c, client)
    {
      clients := clients[c := client];
    }

    method Release(i: nat)
      requires Valid() && i < |tabs|
      modifies this`tabs
      ensures Valid() && Value() == Tabs.Release(old(Value()), i)
    {
      ghost var next := Tabs.Release(Value(), i);
      hide ValidService, Kept, SameTabs;
      PutTab(i, Released(tabs[i]));
    }

    /** Forget a client: its record, its promise, and in one pass every control and printer it held. */
    method Forget(c: ClientId)
      modifies this`clients, this`pendingReplace, this`tabs
      ensures var s := old(Value());
        && Value() == s.(clients := s.clients - {c}, pendingReplace := s.pendingReplace - {c}, tabs := tabs)
        && |tabs| == |s.tabs| && forall i | 0 <= i < |s.tabs| :: tabs[i] == Forgotten(s.tabs[i], c)
    {
      ghost var s := Value();
      clients := clients - {c};
      pendingReplace := pendingReplace - {c};
      for i := 0 to |tabs|
        invariant clients == s.clients - {c} && pendingReplace == s.pendingReplace - {c} && |tabs| == |s.tabs|
        invariant forall k | 0 <= k < |tabs| :: tabs[k] == if k < i then Forgotten(s.tabs[k], c) else s.tabs[k]
      {
        if tabs[i].controller == Some(c) {
          tabs := tabs[i := Released(tabs[i])];
        }
        if tabs[i].printClient == Some(c) {
          tabs := tabs[i := tabs[i].(printClient := None)];
        }
      }
    }

    method DropClient(c: ClientId)
      requires Valid()
      modifies this`clients, this`pendingReplace, this`tabs
      ensures Valid() && Value() == Tabs.DropClient(old(Value()), c)
    {
      hide ValidService, Kept, Forgotten, SameTabs;
      ghost var s := Value();
      Forget(c);
      assert tabs == Tabs.DropClient(s, c).tabs;
    }

    /** Encode against what the client's queue can still take; a client that cannot take it is dropped. */
    method Queue(c: ClientId, kind: u32, tab: u32, body: seq<byte>)
      requires Valid() && !FrameKind(kind)
      requires kind == WIRE_RELEASE ==> forall i | 0 <= i < |tabs| && tabs[i].id == tab :: tabs[i].controller != Some(c)
      modifies this`clients, this`pendingReplace, this`tabs
      ensures Valid() && Value() == Tabs.Queue(old(Value()), c, kind, tab, body)
    {
      hide ValidService, Kept, Tabs.Queue, Tabs.DropClient, EncodeAll, SameTabs;
      QueuedIs(Value(), c, kind, tab, body);
      if c in clients {
        OutputBound(Value(), c);
        var client := clients[c];
        var bytes := Encoded(CLIENT_QUEUE - |client.output|, kind, tab, body);
        if bytes.Some? {
          PutClient(c, client.(output := client.output + bytes.value, log := client.log + [Packet(kind, tab, body)]));
        } else {
          DropClient(c);
        }
      }
    }

    /** Control passes to a connected client; whoever had it is told. */
    method TakeControl(i: nat, c: ClientId)
      requires Valid() && i < |tabs|
      modifies this`clients, this`pendingReplace, this`tabs
      ensures Valid() && Value() == Services.TakeControl(old(Value()), i, c)
    {
      TakenOnly(Value(), i, c);
      ControlBy(Value(), i, c);
      hide ValidService, Kept, Services.TakeControl, Taken, Granted, Tabs.Queue, SameTabs;
      if tabs[i].controller != Some(c) {
        var previous, id := tabs[i].controller, tabs[i].id;
        PutTab(i, Granted(tabs[i], c, clients));
        if previous.Some? {
          Queue(previous.value, WIRE_RELEASE, id, []);
        }
      }
    }

    /** Nobody sees the tab: its damage is acknowledged unless a redraw is held. */
    method LookOnly(i: nat)
      requires Valid() && i < |tabs| && tabs[i].terminal.Some? && tabs[i].controller.None?
      modifies this`tabs
      ensures Valid() && Value() == LookUncontrolled(old(Value()), i)
    {
      hide ValidService, Kept, LookUncontrolled, Looked, Cleaned, ValidEngine, SameTabs;
      LookIs(Value(), i);
      var t := tabs[i];
      var seen := Looked(t.terminal.value.engine, clock);
      var done := seen.gate.deadline == 0;
      PutTab(i, t.(terminal := Some(t.terminal.value.(engine := if done then Cleaned(seen) else seen)), pendingFrame := t.pendingFrame && !done));
    }

    /** The client is congested: remember that it is, and whether a full frame was asked for. */
    method HoldBack(i: nat, full: bool)
      requires Valid() && i < |tabs| && tabs[i].terminal.Some? && tabs[i].controller.Some? && tabs[i].controller.value in clients
      modifies this`clients, this`tabs
      ensures Valid() && Value() == Services.Gate(old(Value()), i, full)
    {
      ghost var next := Services.Gate(Value(), i, full);
      hide ValidService, Kept, SameTabs;
      var t, c := tabs[i], tabs[i].controller.value;
      var client := clients[c];
      PutTab(i, t.(screen := if full then t.screen.(rows := []) else t.screen, pendingFrame := false));
      PutClient(c, client.(needsResync := true));
    }

    /** Replicate, and take over what the attempt did to tab and client. */
    method Attempt(i: nat, full: bool, find: Mover) returns (sent: bool)
      requires Valid() && Attemptable(Value(), i)
      modifies this`clients, this`tabs
      ensures Valid() && (Value(), sent) == Services.SendFrame(old(Value()), i, full, find)
    {
      AttemptIs(Value(), i, full, find);
      AttemptShape(Value(), i);
      hide ValidService, Kept, Services.SendFrame, Replicate, Replicable, MoveAllowed, Looked, ValidEngine, SameTabs, Attemptable, Sending, SentBy, Whole, TabAfter, AnchorAfter, Logged;
      var c := tabs[i].controller.value;
      var client := clients[c];
      var r := SentBy(tabs[i], client, clock, full, find);
      PutTab(i, TabAfter(tabs[i], r, AnchorAfter(tabs[i], client.log, r, Whole(tabs[i], clock, full))));
      PutClient(c, Logged(client, r.packets));
      sent := r.outcome == Sent;
    }

    /** One frame for one tab, or the reason there is none. */
    method SendFrame(i: nat, full: bool, find: Mover) returns (sent: bool)
      requires Valid() && i < |tabs|
      modifies this`clients, this`tabs
      ensures Valid() && (Value(), sent) == Services.SendFrame(old(Value()), i, full, find)
    {
      FrameIs(Value(), i, full, find);
      hide ValidService, Kept, Services.SendFrame, SameTabs, LookUncontrolled, Services.Gate;
      var t := tabs[i];
      sent := false;
      if t.terminal.None? {
        return;
      }
      if t.controller.None? {
        LookOnly(i);
        return;
      }
      var client := clients[t.controller.value];
      if !client.ready {
        return;
      }
      if client.needsResync || |client.output| >= FRAME_BACKLOG {
        HoldBack(i, full);
        return;
      }
      sent := Attempt(i, full, find);
    }

    method Clear(i: nat)
      requires Valid() && i < |tabs|
      modifies this`tabs
      ensures Valid() && Value() == ClearInput(old(Value()), i)
    {
      ghost var next := ClearInput(Value(), i);
      hide ValidService, Kept, SameTabs;
      PutTab(i, tabs[i].(inputFrame := false));
    }

    /** A delta for every tab that owes one, in list order. */
    method SendPending(upkeep: bool, find: Mover) returns (any: bool)
      requires Valid()
      modifies this`clients, this`tabs
      ensures Valid() && |tabs| == |old(tabs)|
      ensures (Value(), any) == Steps.SendPending(old(Value()), 0, upkeep, find)
    {
      hide ValidService, Kept, Steps.SendPending, Services.SendFrame, SameTabs, ClearInput;
      ghost var s := Value();
      any := false;
      for i := 0 to |tabs|
        invariant Valid() && |tabs| == |s.tabs|
        invariant var rest := Steps.SendPending(Value(), i, upkeep, find);
          Steps.SendPending(s, 0, upkeep, find) == (rest.0, any || rest.1)
      {
        PendingNext(Value(), i, upkeep, find);
        if tabs[i].pendingFrame {
          var sent := SendFrame(i, false, find);
          if sent && upkeep {
            Clear(i);
          }
          any := any || sent;
        }
      }
      PendingNext(Value(), |tabs|, upkeep, find);
    }

    /** Building the catalog looks at the engines whose entry is refreshed. */
    method Look(ids: set<u32>)
      requires Valid()
      modifies this`tabs
      ensures Valid() && Value() == LookTabs(old(Value()), ids)
    {
      ghost var s := Value();
      hide ValidService, Kept, LookedAt, SameTabs;
      LookEach(ids);
      assert tabs == LookTabs(s, ids).tabs;
    }

    method LookEach(ids: set<u32>)
      modifies this`tabs
      ensures var s := old(Value());
        Value() == s.(tabs := tabs) && |tabs| == |s.tabs| && forall k | 0 <= k < |tabs| :: tabs[k] == LookedAt(s.tabs[k], ids, s.clock)
    {
      hide LookedAt;
      ghost var s := Value();
      for i := 0 to |tabs|
        invariant |tabs| == |s.tabs|
        invariant forall k | 0 <= k < |tabs| :: tabs[k] == if k < i then LookedAt(s.tabs[k], ids, s.clock) else s.tabs[k]
      {
        tabs := tabs[i := LookedAt(tabs[i], ids, clock)];
      }
    }

    method SendCatalog(c: ClientId, catalog: seq<byte>, looked: set<u32>, find: Mover)
      requires Valid()
      modifies this`clients, this`pendingReplace, this`tabs
      ensures Valid() && Value() == Steps.SendCatalog(old(Value()), c, catalog, looked, find)
    {
      hide ValidService, Kept, Steps.SendPending, LookTabs, Tabs.Queue, SameTabs;
      var any := SendPending(false, find);
      Look(looked);
      Queue(c, WIRE_CATALOG, 0, catalog);
    }

    method Ready() returns (ids: seq<ClientId>)
      ensures ids == ReadyClients(clients, nextClient)
    {
      ids := [];
      for c := 0 to nextClient
        invariant ids == ReadyClients(clients, c)
      {
        if c in clients && clients[c].ready {
          ids := ids + [c];
        }
      }
    }

    /** Corresponding frames precede the catalog they explain; every client ready at that moment gets it. */
    method Publish(changed: bool, catalog: seq<byte>, looked: set<u32>, find: Mover)
      requires Valid()
      modifies this`clients, this`pendingReplace, this`tabs, this`closed, this`fallback
      ensures Valid() && Value() == Steps.Publish(old(Value()), changed, catalog, looked, find)
    {
      hide ValidService, Kept, Steps.SendPending, LookTabs, QueueEach, SameTabs, Announced, ReadyClients;
      Look(looked);
      if changed {
        var any := SendPending(false, find);
        var ids := Ready();
        SendEach(ids, WIRE_CATALOG, catalog);
        Settle();
      }
    }

    method Settle()
      requires Valid()
      modifies this`closed, this`fallback
      ensures Valid() && Value() == Announced(old(Value()))
    {
      ghost var next := Announced(Value());
      hide ValidService, Kept;
      closed, fallback := 0, 0;
    }

    method SendEach(ids: seq<ClientId>, kind: u32, body: seq<byte>)
      requires Valid() && !FrameKind(kind) && kind != WIRE_RELEASE
      modifies this`clients, this`pendingReplace, this`tabs
      ensures Valid() && Value() == QueueEach(old(Value()), ids, kind, 0, body)
    {
      hide ValidService, Kept, QueueEach, Tabs.Queue, SameTabs;
      ghost var s := Value();
      assert ids[0..] == ids;
      for k := 0 to |ids|
        invariant Valid() && QueueEach(s, ids, kind, 0, body) == QueueEach(Value(), ids[k..], kind, 0, body)
      {
        EachNext(Value(), ids, k, kind, body);
        Queue(ids[k], kind, 0, body);
      }
      EachNext(Value(), ids, |ids|, kind, body);
      assert ids[|ids|..] == [];
    }

    /** Remove a tab, with every promise made about it, and name the tab to turn to. */
    method Close(i: nat)
      requires Valid() && i < |tabs|
      modifies this`tabs, this`closed, this`fallback, this`pendingReplace
      ensures Valid() && Value() == Steps.Close(old(Value()), i)
    {
      ghost var next := Steps.Close(Value(), i);
      hide ValidService, Kept, Closed;
      Remove(i);
    }

    method Remove(i: nat)
      requires i < |tabs|
      modifies this`tabs, this`closed, this`fallback, this`pendingReplace
      ensures Value() == Closed(old(Value()), i)
    {
      var id := tabs[i].id;
      closed := id;
      pendingReplace := map c | c in pendingReplace && pendingReplace[c].0 != id :: pendingReplace[c];
      fallback := if i + 1 < |tabs| then tabs[i + 1].id else if i > 0 then tabs[i - 1].id else 0;
      tabs := tabs[..i] + tabs[i + 1..];
    }

    /** Take the drained clients off the congested list, oldest first. */
    method TakeDrained() returns (ids: seq<ClientId>)
      requires Valid()
      modifies this`clients
      ensures Valid() && ids == Drained(old(clients), nextClient) && Value() == Resumed(old(Value()), ids)
    {
      hide ValidService, Kept, Resumed;
      ghost var s := Value();
      ids := [];
      ResumedNone(s);
      for c := 0 to nextClient
        invariant Valid() && ids == Drained(s.clients, c) && Value() == Resumed(s, ids)
        invariant clients.Keys == s.clients.Keys && forall d | d in s.clients && d >= c :: clients[d] == s.clients[d]
      {
        if c in clients && clients[c].needsResync && |clients[c].output| < RESYNC_BACKLOG {
          ResumedNext(s, ids, c);
          ids := ids + [c];
          PutClient(c, clients[c].(needsResync := false));
        }
      }
    }

    /** A client that drained resumes each of its tabs from its queued baseline. */
    method Resync(find: Mover)
      requires Valid()
      modifies this`clients, this`tabs
      ensures Valid() && Value() == Steps.Resync(old(Value()), find)
    {
      hide ValidService, Kept, Resumed, ResumeClients, ResumeTabs, SameTabs, Drained;
      ghost var s := Value();
      var ids := TakeDrained();
      assert ids[0..] == ids;
      for k := 0 to |ids|
        invariant Valid() && Steps.Resync(s, find) == ResumeClients(Value(), ids[k..], find)
      {
        ResumeNext(Value(), ids, k, find);
        ResumeOne(ids[k], find);
      }
      assert ids[|ids|..] == [];
      ResumeNext(Value(), ids, |ids|, find);
    }

    method ResumeOne(c: ClientId, find: Mover)
      requires Valid()
      modifies this`clients, this`tabs
      ensures Valid() && Value() == ResumeTabs(old(Value()), c, 0, find)
    {
      hide ValidService, Kept, ResumeTabs, Services.SendFrame, SameTabs;
      ghost var s := Value();
      for i := 0 to |tabs|
        invariant Valid() && |tabs| == |s.tabs|
        invariant ResumeTabs(s, c, 0, find) == ResumeTabs(Value(), c, i, find)
      {
        TabsNext(Value(), c, i, find);
        if tabs[i].controller == Some(c) {
          var sent := SendFrame(i, false, find);
        }
      }
      TabsNext(Value(), c, |tabs|, find);
    }

    /** The first tab with an ID. */
    method Index(id: u32) returns (i: Option<nat>)
      ensures i == Position(tabs, id)
    {
      var k: nat := 0;
      while k < |tabs|
        invariant k <= |tabs| && forall j | 0 <= j < k :: tabs[j].id != id
        invariant Position(tabs, id) == PositionFrom(tabs, id, k)
      {
        if tabs[k].id == id {
          return Some(k);
        }
        k := k + 1;
      }
      i := None;
    }

    method Unpromise(c: ClientId)
      modifies this`pendingReplace
      ensures Value() == old(Value()).(pendingReplace := old(pendingReplace) - {c})
    {
      pendingReplace := pendingReplace - {c};
    }

    /** Only when everything queued has left, the acknowledgement with it, does the shell give way. */
    method FinishReplacement(c: ClientId)
      requires Valid()
      modifies this`tabs, this`pendingReplace
      ensures Valid() && Value() == Steps.FinishReplacement(old(Value()), c)
    {
      FinishIs(Value(), c);
      hide ValidService, Kept, Steps.FinishReplacement, Steps.Convert, Converted, Position;
      if c !in clients || clients[c].output != [] {
        return;
      }
      if c !in pendingReplace {
        return;
      }
      var (id, url) := pendingReplace[c];
      Unpromise(c);
      var i := Index(id);
      if i.Some? {
        PutTab(i.value, Converted(tabs[i.value], url));
      }
    }

    /** One write attempt, whose outcome the socket decides, and what its completion releases. */
    method ClientFlush(c: ClientId, moved: nat, failed: bool)
      requires Valid()
      modifies this`clients, this`tabs, this`pendingReplace
      ensures Valid() && Value() == Steps.ClientFlush(old(Value()), c, moved, failed)
    {
      FlushIs(Value(), c, moved, failed);
      hide ValidService, Kept, Steps.FinishReplacement, Steps.ClientFlush, Tabs.DropClient, SameTabs;
      if c in clients {
        var client := clients[c];
        var count := Min(moved, |client.output|);
        PutClient(c, client.(output := client.output[count..], delivered := client.delivered + client.output[..count]));
        if failed {
          DropClient(c);
        }
      }
      FinishReplacement(c);
    }

    /** What a terminal has to tell, to whoever is to be told, in order. */
    method Notices(tab: u32, ns: seq<(ClientId, Notice)>)
      requires Valid()
      modifies this`clients, this`pendingReplace, this`tabs
      ensures Valid() && Value() == Notify(old(Value()), tab, ns)
    {
      hide ValidService, Kept, Notify, Tabs.Queue, SameTabs, NoticeKind, NoticeBody;
      ghost var s := Value();
      assert ns[0..] == ns;
      for k := 0 to |ns|
        invariant Valid() && Notify(s, tab, ns) == Notify(Value(), tab, ns[k..])
      {
        NotifyNext(Value(), tab, ns, k);
        Queue(ns[k].0, NoticeKind(ns[k].1), tab, NoticeBody(ns[k].1));
      }
      assert ns[|ns|..] == [];
      NotifyNext(Value(), tab, ns, |ns|);
    }

    /** Close every tab whose PTY is gone. */
    method CloseDead()
      requires Valid()
      modifies this`tabs, this`closed, this`fallback, this`pendingReplace
      ensures Valid() && Value() == Runs.CloseDead(old(Value()), 0)
    {
      hide ValidService, Kept, Runs.CloseDead, Steps.Close;
      ghost var s := Value();
      var i: nat := 0;
      while i < |tabs|
        invariant Valid() && i <= |tabs| && Runs.CloseDead(s, 0) == Runs.CloseDead(Value(), i)
        decreases |tabs| - i
      {
        DeadNext(Value(), i);
        if tabs[i].terminal.Some? && !tabs[i].terminal.value.open {
          Close(i);
        } else {
          i := i + 1;
        }
      }
      DeadNext(Value(), |tabs|);
    }

    method Paced()
      requires Valid()
      modifies this`lastFrame
      ensures Valid() && Value() == Runs.LastFrame(old(Value()))
    {
      ghost var next := Runs.LastFrame(Value());
      hide ValidService, Kept;
      lastFrame := clock;
    }

    /** At most one round of pending frames in each interval. */
    method Pace(find: Mover)
      requires Valid()
      modifies this
      ensures Valid() && Value() == Runs.Paced(old(Value()), find)
    {
      hide ValidService, Kept, Steps.SendPending, Runs.LastFrame, SameTabs;
      if lastFrame == 0 || clock - lastFrame >= FRAME_INTERVAL {
        var any := SendPending(true, find);
        if any {
          Paced();
        }
      }
    }

    /** Upkeep between polls: dead tabs, paced frames, the catalog, and clients that drained. */
    method Maintain(env: Messages.Env)
      requires Valid()
      modifies this
      ensures Valid() && Value() == Runs.Maintenance(old(Value()), env)
    {
      hide ValidService, Kept, Runs.CloseDead, Runs.Paced, Steps.Publish, Steps.Resync, SameTabs;
      CloseDead();
      Pace(env.find);
      if closed != 0 || env.granted {
        Publish(env.changed, env.catalog, env.looked, env.find);
      }
      Resync(env.find);
    }

    // ---- Single fields ----

    method Stop()
      requires Valid()
      modifies this`running
      ensures Valid() && Value() == Messages.Stopped(old(Value()))
    {
      running := false;
    }

    method NoRestore()
      requires Valid()
      modifies this`restoredLaunch
      ensures Valid() && Value() == Messages.NoRestore(old(Value()))
    {
      restoredLaunch := false;
    }

    method Listen(on: bool)
      requires Valid()
      modifies this`handin
      ensures Valid() && Value() == Messages.Listening(old(Value()), on)
    {
      handin := on;
    }

    /** An ID taken for a tab that could not be started is not used again. */
    method SkipId()
      requires Valid() && nextId < 0xffff_ffff
      modifies this`nextId
      ensures Valid() && Value() == Messages.SkipId(old(Value()))
    {
      nextId := nextId + 1;
    }

    /** The tabs were handed over. */
    method Empty()
      requires Valid() && pendingReplace == map[] && tabs != []
      modifies this`tabs, this`closed, this`fallback
      ensures Valid() && Value() == Messages.NoTabs(old(Value()))
    {
      ghost var next := Messages.NoTabs(Value());
      hide ValidService, Kept;
      closed := tabs[|tabs| - 1].id;
      fallback := 0;
      tabs := [];
    }

    /** A client's flags and its selection. */
    method Adjust(c: ClientId, ready: bool, features: u32, selection: Option<Selection>)
      requires Valid() && c in clients && ValidSelection(selection)
      modifies this`clients
      ensures Valid() && Value() == Messages.Adjusted(old(Value()), c, ready, features, selection)
    {
      ghost var next := Messages.Adjusted(Value(), c, ready, features, selection);
      hide ValidService, Kept;
      PutClient(c, clients[c].(ready := ready, features := features, selection := selection));
    }

    method MakeReady(c: ClientId)
      requires Valid() && c in clients
      modifies this`clients
      ensures Valid() && Value() == Messages.Ready(old(Value()), c)
    {
      Messages.ClientSelection(Value(), c);
      hide ValidService, Kept, Messages.Adjusted;
      Adjust(c, true, clients[c].features, clients[c].selection);
    }

    /** A new tab goes last, under the next unused ID. */
    method Add(t: Tab)
      requires Valid() && t.id == nextId && nextId < 0xffff_ffff && TabOk(t, clients, clock)
      modifies this`tabs, this`nextId
      ensures Valid() && Value() == Messages.PushTab(old(Value()), t)
    {
      ghost var next := Messages.PushTab(Value(), t);
      hide ValidService, Kept, TabOk;
      nextId := nextId + 1;
      tabs := tabs + [t];
    }

    /** Parsing, resizing or scrolling: the engine moves on within its contract. */
    method Change(i: nat, wish: Engine)
      requires Valid() && i < |tabs| && tabs[i].terminal.Some?
      modifies this`tabs
      ensures Valid() && Value() == ChangeEngine(old(Value()), i, wish)
    {
      ChangeIs(Value(), i, wish);
      hide ValidService, Kept, SameTabs, ChangeEngine, Changes, WireSized, AfterEngine;
      PutTab(i, tabs[i].(terminal := Some(tabs[i].terminal.value.(engine := AfterEngine(tabs[i].terminal.value.engine, wish, clock)))));
    }

    method Effects(i: nat, env: Messages.Env)
      requires Valid() && i < |tabs| && tabs[i].terminal.Some?
      modifies this`clients, this`pendingReplace, this`tabs
      ensures Valid() && Value() == Messages.Effects(old(Value()), i, env)
    {
      hide ValidService, Kept, ChangeEngine, Notify, Addressed;
      Change(i, env.engine);
      Notices(tabs[i].id, Addressed(tabs[i], env.notices));
    }

    // ---- Messages that need no tab ----

    method Capabilities(c: ClientId, p: Packet)
      requires Valid() && c in clients
      modifies this`clients, this`pendingReplace, this`tabs
      ensures Valid() && Value() == Messages.Capabilities(old(Value()), c, p)
    {
      Messages.ClientSelection(Value(), c);
      hide ValidService, Kept, SameTabs, Messages.Adjusted, Tabs.Queue, Messages.Integer, Messages.Wanted, PutU32;
      var features := Messages.Integer(p.body);
      if clients[c].ready || p.tab != 0 || features.None? {
        return;
      }
      Adjust(c, false, Messages.Wanted(features.value), clients[c].selection);
      Queue(c, Messages.WIRE_CAPABILITIES, 0, PutU32(FEATURE_COPY_ROWS + Messages.FEATURE_SELECT_ALL + FEATURE_ROW_SPAN));
    }

    /** A transfer starts only while no conversion is promised; whether it succeeds is the environment's choice. */
    method HandoffCommand(c: ClientId, kind: u32, body: seq<byte>, env: Messages.Env)
      requires Valid()
      modifies this
      ensures Valid() && Value() == Messages.HandoffCommand(old(Value()), c, kind, body, env)
    {
      hide ValidService, Kept, SameTabs, Messages.NoTabs, Messages.Listening, Tabs.Queue, Messages.WholeString, PutU32;
      var allowed := Messages.WholeString(body).Some? && pendingReplace == map[] && env.granted;
      if kind == Messages.WIRE_HANDIN && allowed && !handin {
        Listen(true);
        Queue(c, WIRE_COMMAND_DONE, 0, PutU32(0));
      } else if kind == Messages.WIRE_HANDOFF && allowed && 1 <= |tabs| <= Transfers.HANDOFF_MAX_TABS {
        Empty();
        Queue(c, WIRE_COMMAND_DONE, 0, PutU32(0));
      } else {
        Queue(c, WIRE_ERROR, 0, env.message);
      }
    }

    /** Acknowledge first, promise after, and only to a client that could take the acknowledgement. */
    method Promise(c: ClientId, i: nat, url: seq<byte>)
      requires Valid() && c in clients && i < |tabs|
      modifies this`clients, this`pendingReplace, this`tabs
      ensures Valid() && Value() == Messages.Promise(old(Value()), c, i, url)
    {
      ghost var next := Messages.Promise(Value(), c, i, url);
      hide ValidService, Kept, SameTabs, Tabs.Queue;
      var id := tabs[i].id;
      Queue(c, WIRE_COMMAND_DONE, id, []);
      if c in clients {
        Pledge(c, id, url);
      }
    }

    method Pledge(c: ClientId, id: u32, url: seq<byte>)
      modifies this`pendingReplace
      ensures Value() == old(Value()).(pendingReplace := old(pendingReplace)[c := (id, url)])
    {
      pendingReplace := pendingReplace[c := (id, url)];
    }

    method BrowserReplace(c: ClientId, body: seq<byte>, env: Messages.Env)
      requires Valid() && c in clients
      modifies this`clients, this`pendingReplace, this`tabs
      ensures Valid() && Value() == Messages.BrowserReplace(old(Value()), c, body, env)
    {
      hide ValidService, Kept, KeptBy, SameTabs, Messages.Promise, Steps.ClientFlush, Tabs.Queue, Messages.Url, Position;
      var i: Option<nat> := None;
      if env.shell.Some? {
        i := Index(env.shell.value);
      }
      if i.None? || tabs[i.value].terminal.None? {
        Queue(c, WIRE_ERROR, 0, env.message);
        return;
      }
      var url := Messages.Url(body);
      if url.None? {
        Queue(c, WIRE_ERROR, 0, env.message);
        return;
      }
      if c in pendingReplace {
        return;
      }
      Promise(c, i.value, url.value);
      ClientFlush(c, env.moved, env.failed);
    }

    method Attach(c: ClientId, env: Messages.Env)
      requires Valid() && c in clients
      modifies this
      ensures Valid() && Value() == Messages.Attach(old(Value()), c, env)
    {
      hide ValidService, Kept, SameTabs, Messages.Ready, Messages.NoRestore, Steps.SendCatalog;
      NoRestore();
      MakeReady(c);
      SendCatalog(c, env.catalog, env.looked, env.find);
    }

    method Browser(c: ClientId, p: Packet, env: Messages.Env)
      requires Valid() && c in clients
      modifies this
      ensures Valid() && Value() == Messages.Browser(old(Value()), c, p, env)
    {
      hide ValidService, Kept, SameTabs, Messages.NewPage, Messages.Navigated, Messages.Stopped, Steps.Publish, Messages.Url, Position;
      var url := Messages.Url(p.body);
      if url.None? {
        return;
      }
      if p.kind == Messages.WIRE_BROWSER {
        if nextId == 0xffff_ffff {
          Stop();
        } else {
          NewPage(c, url.value, env);
        }
        return;
      }
      var i := Index(p.tab);
      if i.Some? {
        if !clients[c].ready || tabs[i.value].url.None? {
          return;
        }
        Navigate(i.value, url.value);
      }
      Publish(env.changed, env.catalog, env.looked, env.find);
    }

    /** The client is told its tab, and everyone the catalog that has it. */
    method Announce(c: ClientId, id: u32, env: Messages.Env)
      requires Valid()
      modifies this
      ensures Valid() && Value() == Messages.Created(old(Value()), c, id, env)
    {
      hide ValidService, Kept, SameTabs, Tabs.Queue, Steps.Publish;
      Queue(c, Messages.WIRE_CREATED, id, []);
      Publish(env.changed, env.catalog, env.looked, env.find);
    }

    method NewPage(c: ClientId, url: seq<byte>, env: Messages.Env)
      requires Valid() && c in clients && nextId < 0xffff_ffff
      modifies this
      ensures Valid() && Value() == Messages.NewPage(old(Value()), c, url, env)
    {
      ghost var s := Value();
      Messages.NewPageOk(s, url);
      hide ValidService, Kept, SameTabs, TabOk, Messages.NoRestore, Messages.PushTab, Messages.Ready, Messages.Created;
      var id := nextId;
      NoRestore();
      Add(Messages.FreshTab(id, None, Some(url)));
      MakeReady(c);
      Announce(c, id, env);
    }

    method Navigate(i: nat, url: seq<byte>)
      requires Valid() && i < |tabs| && tabs[i].url.Some?
      modifies this`tabs
      ensures Valid() && Value() == Messages.Navigated(old(Value()), i, url)
    {
      ghost var next := Messages.Navigated(Value(), i, url);
      hide ValidService, Kept, SameTabs;
      PutTab(i, tabs[i].(url := Some(url)));
    }

    /** A first window adopts the restored workspace; any other gets a shell of its own. */
    method Hello(c: ClientId, p: Packet, env: Messages.Env)
      requires Valid() && c in clients
      modifies this
      ensures Valid() && Value() == Messages.Hello(old(Value()), c, p, env)
    {
      hide ValidService, Kept, SameTabs, Messages.Ready, Messages.Adopt, Messages.Start, Messages.Stopped, Messages.SkipId, Messages.Importable, Tabs.DropClient;
      if env.launch.BadLaunch? {
        DropClient(c);
        return;
      }
      var restored := restoredLaunch && tabs != [] && p.kind == Messages.WIRE_HELLO && env.launch.plain;
      MakeReady(c);
      if restored {
        Adopt(c, env);
      } else if nextId == 0xffff_ffff {
        Stop();
      } else if env.launch.shell.None? || !Messages.Importable(env.launch.shell.value, clock) {
        SkipId();
        if env.failed {
          DropClient(c);
        } else {
          Stop();
        }
      } else {
        Begin(c, env.launch.shell.value, env);
      }
    }

    method Adopt(c: ClientId, env: Messages.Env)
      requires Valid() && c in clients && tabs != []
      modifies this
      ensures Valid() && Value() == Messages.Adopt(old(Value()), c, env)
    {
      hide ValidService, Kept, Services.TakeControl, Messages.NoRestore, Messages.Created, Steps.SendCatalog, Messages.Shown;
      if tabs[0].terminal.Some? {
        TakeControl(0, c);
      }
      var id := tabs[0].id;
      NoRestore();
      Announce(c, id, env);
      SendCatalog(c, env.catalog, env.looked, env.find);
      Show(0, env.find);
    }

    /** The first frame for a window that has been told of its tab. */
    method Show(i: nat, find: Mover)
      requires Valid() && i < |tabs|
      modifies this`clients, this`tabs
      ensures Valid() && Value() == Messages.Shown(old(Value()), i, find)
    {
      ghost var next := Messages.Shown(Value(), i, find);
      TakenOk(Value(), i, 0);
      hide ValidService, Kept, TabOk, Services.SendFrame;
      var t := tabs[i];
      if t.terminal.None? || t.controller.None? || !clients[t.controller.value].ready {
        var sent := SendFrame(i, true, find);
        return;
      }
      var told := |clients[t.controller.value].log|;
      var sent := SendFrame(i, true, find);
      PutTab(i, tabs[i].(since := told));
    }

    method Begin(c: ClientId, shell: Engine, env: Messages.Env)
      requires Valid() && c in clients && nextId < 0xffff_ffff && Messages.Importable(shell, clock)
      modifies this
      ensures Valid() && Value() == Messages.Start(old(Value()), c, shell, env)
    {
      hide ValidService, Kept, TabOk, Messages.NewShell, Messages.NoRestore, Messages.Created, Messages.Shown, Messages.Importable;
      var id, last := nextId, |tabs|;
      AddShell(c, shell, env.launch.Launch? && env.launch.printing);
      NoRestore();
      Announce(c, id, env);
      Show(last, env.find);
    }

    method AddShell(c: ClientId, shell: Engine, printing: bool)
      requires Valid() && c in clients && nextId < 0xffff_ffff && Messages.Importable(shell, clock)
      modifies this`tabs, this`nextId
      ensures Valid() && Value() == Messages.NewShell(old(Value()), c, shell, printing)
    {
      var printer := if printing then Some(c) else None;
      Messages.ShellOk(nextId, shell, Some(c), printer, |clients[c].log|, clients, clock);
      hide ValidService, Kept, TabOk, Messages.PushTab, Messages.Importable;
      Add(Messages.FreshShell(nextId, shell, Some(c), printer, |clients[c].log|));
    }

    // ---- Messages for one shell tab ----

    method SelectAll(c: ClientId, i: nat, p: Packet, env: Messages.Env)
      requires Valid() && c in clients && i < |tabs|
      modifies this`clients, this`pendingReplace, this`tabs
      ensures Valid() && Value() == Messages.SelectAll(old(Value()), c, i, p, env)
    {
      Messages.ClientSelection(Value(), c);
      hide ValidService, Kept, SameTabs, Messages.Adjusted, Tabs.Queue, Messages.Pair, Request, PutU32;
      var words := Messages.Pair(p.body);
      if words.None? {
        return;
      }
      var (generation, operation) := words.value;
      var (selection, page) := Request(clients[c].selection, p.tab, generation, operation, env.text);
      Adjust(c, clients[c].ready, clients[c].features, selection);
      if page.Some? {
        Queue(c, Messages.WIRE_SELECT_ALL, p.tab,
              PutU32(generation) + PutU32(if page.value.done then 1 else 0) + page.value.bytes);
      }
    }

    method SetPrinter(i: nat, c: ClientId)
      requires Valid() && i < |tabs| && c in clients
      modifies this`tabs
      ensures Valid() && Value() == Messages.SetPrinter(old(Value()), i, c)
    {
      ghost var next := Messages.SetPrinter(Value(), i, c);
      hide ValidService, Kept, SameTabs;
      PutTab(i, tabs[i].(printClient := Some(c)));
    }

    method Control(c: ClientId, i: nat, p: Packet, env: Messages.Env)
      requires Valid() && c in clients && i < |tabs| && tabs[i].terminal.Some?
      modifies this
      ensures Valid() && Value() == Messages.Control(old(Value()), c, i, p, env)
    {
      hide ValidService, Kept, Services.TakeControl, Messages.SetPrinter, Messages.Effects, Messages.Stopped, Messages.Integer;
      var direction := Messages.Integer(p.body);
      if direction.None? || direction.value > 2 {
        return;
      }
      TakeControl(i, c);
      SetPrinter(i, c);
      if direction.value != 2 {
        Effects(i, env);
      } else if env.failed {
        Stop();
      }
    }

    method FocusState(c: ClientId, i: nat, p: Packet, env: Messages.Env)
      requires Valid() && c in clients && i < |tabs| && tabs[i].terminal.Some?
      modifies this`clients, this`pendingReplace, this`tabs
      ensures Valid() && Value() == Messages.FocusState(old(Value()), c, i, p, env)
    {
      hide ValidService, Kept, SameTabs, Messages.Effects, Messages.Integer;
      var direction := Messages.Integer(p.body);
      if tabs[i].controller == Some(c) && env.focusMode && direction.Some? && direction.value <= 1 {
        Effects(i, env);
      }
    }

    /** A claim or a resize asks for a full frame at the new size. */
    method FocusOrResize(c: ClientId, i: nat, p: Packet, env: Messages.Env)
      requires Valid() && c in clients && i < |tabs| && tabs[i].terminal.Some?
      modifies this
      ensures Valid() && Value() == Messages.FocusOrResize(old(Value()), c, i, p, env)
    {
      hide ValidService, Kept, Services.TakeControl, Messages.Sized, Messages.Pair;
      var claim := tabs[i].controller != Some(c);
      if p.kind == Messages.WIRE_RESIZE && claim {
        return;
      }
      var size := Messages.Pair(p.body);
      if size.None? || !(0 < size.value.0 <= MAX_COLUMNS && 0 < size.value.1 <= MAX_ROWS) {
        return;
      }
      TakeControl(i, c);
      Resize(i, size.value.0, size.value.1, claim, env);
    }

    method Resize(i: nat, columns: nat, rows: nat, claim: bool, env: Messages.Env)
      requires Valid() && i < |tabs| && tabs[i].terminal.Some?
      modifies this
      ensures Valid() && Value() == Messages.Sized(old(Value()), i, columns, rows, claim, env)
    {
      hide ValidService, Kept, ChangeEngine, Services.SendFrame, Messages.Stopped;
      var e := tabs[i].terminal.value.engine;
      if e.columns != columns || |e.rows| != rows {
        if env.engine.columns == columns && |env.engine.rows| == rows {
          Change(i, env.engine);
        }
        if env.failed {
          Stop();
          return;
        }
      } else if !claim {
        return;
      }
      var sent := SendFrame(i, true, env.find);
    }

    method Input(c: ClientId, i: nat, p: Packet, env: Messages.Env)
      requires Valid() && c in clients && i < |tabs| && tabs[i].terminal.Some?
      modifies this`clients, this`pendingReplace, this`tabs
      ensures Valid() && Value() == Messages.Input(old(Value()), c, i, p, env)
    {
      hide ValidService, Kept, Services.TakeControl, Messages.Effects, Services.SendFrame;
      if |p.body| > Messages.INPUT_LIMIT {
        return;
      }
      TakeControl(i, c);
      Effects(i, env);
      var sent := SendFrame(i, false, env.find);
    }

    method Scroll(c: ClientId, i: nat, p: Packet, env: Messages.Env)
      requires Valid() && c in clients && i < |tabs| && tabs[i].terminal.Some?
      modifies this`clients, this`pendingReplace, this`tabs
      ensures Valid() && Value() == Messages.Scroll(old(Value()), c, i, p, env)
    {
      hide ValidService, Kept, Services.TakeControl, ChangeEngine, Messages.SetReply, Services.SendFrame, Messages.Pair;
      var words := Messages.Pair(p.body);
      if words.None? || words.value.0 > 1 {
        return;
      }
      TakeControl(i, c);
      Change(i, env.engine);
      SetReply(i);
      var sent := SendFrame(i, false, env.find);
    }

    method SetReply(i: nat)
      requires Valid() && i < |tabs|
      modifies this`tabs
      ensures Valid() && Value() == Messages.SetReply(old(Value()), i)
    {
      ghost var next := Messages.SetReply(Value(), i);
      hide ValidService, Kept, SameTabs;
      PutTab(i, tabs[i].(frameReply := true));
    }

    method TabMessage(c: ClientId, i: nat, p: Packet, env: Messages.Env)
      requires Valid() && c in clients && i < |tabs|
      modifies this
      ensures Valid() && Value() == Messages.TabMessage(old(Value()), c, i, p, env)
    {
      Messages.TabKind(Value(), i);
      hide ValidService, Kept, SameTabs, Steps.Close, Messages.SelectAll, Messages.Control, Messages.FocusState, Messages.FocusOrResize,
        Messages.Input, Messages.Scroll, Tabs.Release;
      if tabs[i].url.Some? {
        if p.kind == Messages.WIRE_CLOSE {
          Close(i);
        }
      } else if p.kind == Messages.WIRE_SELECT_ALL {
        SelectAll(c, i, p, env);
      } else if p.kind == Messages.WIRE_CONTROL {
        Control(c, i, p, env);
      } else if p.kind == Messages.WIRE_FOCUS_STATE {
        FocusState(c, i, p, env);
      } else if p.kind == Messages.WIRE_FOCUS || p.kind == Messages.WIRE_RESIZE {
        FocusOrResize(c, i, p, env);
      } else if p.kind == Messages.WIRE_INPUT {
        Input(c, i, p, env);
      } else if p.kind == WIRE_RELEASE {
        if tabs[i].controller == Some(c) {
          Release(i);
        }
      } else if p.kind == Messages.WIRE_CLOSE {
        Close(i);
      } else if p.kind == Messages.WIRE_SCROLL {
        Scroll(c, i, p, env);
      }
    }

    /** The dispatch of one decoded packet. */
    method Message(c: ClientId, p: Packet, env: Messages.Env)
      requires Valid()
      modifies this
      ensures Valid() && Value() == Messages.Message(old(Value()), c, p, env)
    {
      hide ValidService, Kept, KeptBy, SameTabs, Messages.Capabilities, Messages.HandoffCommand, Messages.BrowserReplace, Messages.Attach,
        Messages.Browser, Messages.Hello, Messages.TabMessage, Messages.Stopped, Tabs.Queue, Position;
      if c !in clients {
        return;
      }
      if p.kind == Messages.WIRE_SERVICE_INFO {
        Queue(c, Messages.WIRE_SERVICE_INFO, 0, env.message);
      } else if p.kind == Messages.WIRE_CAPABILITIES {
        Capabilities(c, p);
      } else if p.kind == Messages.WIRE_STOP {
        Stop();
      } else if p.kind == Messages.WIRE_HANDIN || p.kind == Messages.WIRE_HANDOFF {
        HandoffCommand(c, p.kind, p.body, env);
      } else if p.kind == Messages.WIRE_BROWSER_REPLACE {
        BrowserReplace(c, p.body, env);
      } else if p.kind == Messages.WIRE_ATTACH {
        Attach(c, env);
      } else if p.kind == Messages.WIRE_BROWSER || p.kind == Messages.WIRE_BROWSER_NAVIGATE {
        Browser(c, p, env);
      } else if p.kind == Messages.WIRE_HELLO || p.kind == Messages.WIRE_NEW {
        Hello(c, p, env);
      } else {
        var i := Index(p.tab);
        if i.Some? && clients[c].ready {
          TabMessage(c, i.value, p, env);
        }
      }
    }

    // ---- Any event, any run ----

    method Connect()
      requires Valid()
      modifies this`clients, this`nextClient
      ensures Valid() && Value() == Runs.Connected(old(Value()))
    {
      ghost var next := Runs.Connected(Value());
      hide ValidService, Kept;
      clients := clients[nextClient := Client(false, 0, false, None, [], [], [])];
      nextClient := nextClient + 1;
    }

    method Mark(i: nat, pending: bool, input: bool)
      requires Valid() && i < |tabs|
      modifies this`tabs
      ensures Valid() && Value() == Runs.Marked(old(Value()), i, pending, input)
    {
      ghost var next := Runs.Marked(Value(), i, pending, input);
      hide ValidService, Kept, SameTabs;
      PutTab(i, tabs[i].(pendingFrame := pending, inputFrame := input));
    }

    /** The PTY is gone; its tab closes at the next upkeep. */
    method End(i: nat)
      requires Valid() && i < |tabs| && tabs[i].terminal.Some?
      modifies this`tabs
      ensures Valid() && Value() == Runs.Ended(old(Value()), i)
    {
      ghost var next := Runs.Ended(Value(), i);
      hide ValidService, Kept, SameTabs;
      PutTab(i, tabs[i].(terminal := Some(tabs[i].terminal.value.(open := false))));
    }

    /** PTY output: a frame is owed, and an awaited response goes out at once. */
    method Output(i: nat, env: Messages.Env)
      requires Valid() && i < |tabs| && tabs[i].terminal.Some?
      modifies this`clients, this`pendingReplace, this`tabs
      ensures Valid() && Value() == Runs.Output(old(Value()), i, env)
    {
      hide ValidService, Kept, Messages.Effects, Runs.Marked, Services.SendFrame, ClearInput;
      Effects(i, env);
      Mark(i, true, tabs[i].inputFrame);
      var t := tabs[i];
      if t.inputFrame || (t.controller.Some? && t.screen.rows == []) {
        var sent := SendFrame(i, false, env.find);
        if sent {
          Clear(i);
        }
      }
    }

    /** Staged tabs join the list in order, under the next IDs. */
    method Append(staged: seq<Runs.Staged>)
      requires Valid() && forall x | x in staged :: Runs.StagedOk(x, clock)
      requires nextId + |staged| <= 0xffff_ffff
      modifies this`tabs, this`nextId
      ensures Valid() && Value() == Runs.Appended(old(Value()), staged)
    {
      hide ValidService, Kept, Runs.Appended, Runs.StagedOk, Runs.StagedTab, Messages.PushTab, TabOk;
      ghost var s := Value();
      assert staged[0..] == staged;
      for k := 0 to |staged|
        invariant Valid() && clock == s.clock && nextId + |staged| - k <= 0xffff_ffff
        invariant Runs.Appended(s, staged) == Runs.Appended(Value(), staged[k..])
      {
        AppendNext(Value(), staged, k);
        assert staged[k] in staged;
        Add(Runs.StagedTab(nextId, staged[k]));
      }
      AppendNext(Value(), staged, |staged|);
    }

    method Import(staged: seq<Runs.Staged>)
      requires Valid()
      modifies this
      ensures Valid() && Value() == Runs.Received(old(Value()), staged)
    {
      hide ValidService, Kept, Runs.Appended, Runs.StagedOk, Messages.Listening;
      if handin && 1 <= |staged| <= Transfers.HANDOFF_MAX_TABS && nextId + |staged| <= 0xffff_ffff &&
         (forall x | x in staged :: Runs.StagedOk(x, clock))
      {
        Append(staged);
        Listen(false);
      }
    }

    method Act(a: Runs.Action, env: Messages.Env)
      requires Valid()
      modifies this
      ensures Valid() && Value() == Runs.Act(old(Value()), a, env)
    {
      hide ValidService, Kept, KeptBy, Runs.KeptDuring, SameTabs, Runs.Connected, Tabs.DropClient, Steps.ClientFlush, Messages.Message, Runs.Ended,
        Runs.Marked, Runs.Output, Runs.Received, Messages.NoTabs, Messages.Stopped, Runs.Maintenance, Position;
      match a
      case Accept => Connect();
      case Hangup(c) => DropClient(c);
      case Flush(c) => ClientFlush(c, env.moved, env.failed);
      case Receive(c, p) => Message(c, p, env);
      case TerminalWrite(id, wrote) =>
        var i := Index(id);
        if i.Some? && tabs[i.value].terminal.Some? && tabs[i.value].terminal.value.open {
          if env.failed {
            End(i.value);
          } else if wrote {
            Mark(i.value, tabs[i.value].pendingFrame, true);
          }
        }
      case TerminalRead(id) =>
        var i := Index(id);
        if i.Some? && tabs[i.value].terminal.Some? && tabs[i.value].terminal.value.open {
          Output(i.value, env);
        }
      case TerminalEnd(id) =>
        var i := Index(id);
        if i.Some? && tabs[i.value].terminal.Some? {
          End(i.value);
        }
      case Import(staged) => Import(staged);
      case Upgraded =>
        if pendingReplace == map[] {
          if tabs != [] {
            Empty();
          }
          Stop();
        }
      case Maintain => Maintain(env);
    }

    /** One event at its time; a stopped service does nothing, and time never runs backwards. */
    method Step(a: Runs.Action, env: Messages.Env)
      requires Valid()
      modifies this
      ensures Valid() && Value() == Runs.Step(old(Value()), a, env)
    {
      ghost var ticked := if env.now >= clock then Some(Runs.Ticked(Value(), env.now)) else None;
      hide ValidService, Kept, Runs.Act, Runs.KeptDuring;
      if running && env.now >= clock {
        clock := env.now;
        assert Some(Value()) == ticked;
        Act(a, env);
      }
    }

    /** Any run of the object is the run of its value, so all that is proved of runs holds of the object. */
    method Run(events: seq<(Runs.Action, Messages.Env)>)
      requires Valid()
      modifies this
      ensures Valid() && Value() == Runs.Run(old(Value()), events)
    {
      hide ValidService, Kept, Runs.Step;
      ghost var s := Value();
      for k := 0 to |events|
        invariant Valid() && Value() == Runs.Run(s, events[..k])
      {
        assert events[..k + 1][..k] == events[..k];
        Step(events[k].0, events[k].1);
      }
      assert events[..|events|] == events;
    }
  }

  /** A service from its start through any run: the object ends in the state that run reaches. */
  method Serve(start: Service, events: seq<(Runs.Action, Messages.Env)>) returns (w: Workspace)
    requires Runs.Initial(start)
    ensures w.Valid() && w.Value() == Runs.Reached(start, events)
  {
    Runs.InitialOk(start);
    hide ValidService, Runs.Initial, Runs.Run;
    w := new Workspace(start);
    w.Run(events);
  }

  /** One packet's bytes, if they fit. */
  method Encoded(room: nat, kind: u32, tab: u32, body: seq<byte>) returns (b: Option<seq<byte>>)
    ensures b.Some? <==> |body| <= MAX_PAYLOAD && HEADER_BYTES + |body| <= room
    ensures b.Some? ==> AllSendable([Packet(kind, tab, body)]) && b.value == EncodeAll([Packet(kind, tab, body)])
  {
    hide Encode, EncodeAll;
    var encoded := new Buffer(room);
    Grids.FlatOne(body);
    var ok := encoded.AppendPacketParts(kind, tab, [body]);
    if !ok {
      return None;
    }
    EncodeAllOne(Packet(kind, tab, body));
    assert [] + Encode(Packet(kind, tab, body)) == Encode(Packet(kind, tab, body));
    b := Some(encoded.bytes);
  }

  /** What an attempt needs of one tab and its client. */
  predicate Sending(t: Tab, client: Client, clock: int, full: bool, find: Mover) {
    && t.terminal.Some? && ValidEngine(t.terminal.value.engine) && clock >= t.terminal.value.engine.gate.now && |client.output| <= CLIENT_QUEUE
    && var seen := Looked(t.terminal.value.engine, clock);
       Replicable(t.screen, seen) && MoveAllowed(t.screen, seen, full, client.features, find(t.screen, seen, full, client.features))
  }

  /** One replication attempt on one tab and one client. */
  function SentBy(t: Tab, client: Client, clock: int, full: bool, find: Mover): (r: Replicated)
    requires Sending(t, client, clock, full, find)
    ensures AllSendable(r.packets)
  {
    var seen := Looked(t.terminal.value.engine, clock);
    Replicate(t.screen, seen, CLIENT_QUEUE - |client.output|, t.id, full, client.features, t.frameReply,
              find(t.screen, seen, full, client.features))
  }

  /** Whether the attempt needs a whole frame. */
  predicate Whole(t: Tab, clock: int, full: bool)
    requires t.terminal.Some? && ValidEngine(t.terminal.value.engine) && clock >= t.terminal.value.engine.gate.now
  {
    NeedsFull(t.screen, Looked(t.terminal.value.engine, clock), full)
  }

  lemma AttemptShape(s: Service, i: nat)
    requires Attemptable(s, i)
    ensures i < |s.tabs| && s.tabs[i].terminal.Some? && s.tabs[i].controller.Some? && s.tabs[i].controller.value in s.clients
  {
  }

  lemma QueuedIs(s: Service, c: ClientId, kind: u32, tab: u32, body: seq<byte>)
    requires ValidService(s) && !FrameKind(kind)
    requires kind == WIRE_RELEASE ==> forall i | 0 <= i < |s.tabs| && s.tabs[i].id == tab :: s.tabs[i].controller != Some(c)
    ensures c in s.clients ==> |s.clients[c].output| <= CLIENT_QUEUE
    ensures Tabs.Queue(s, c, kind, tab, body) ==
      if c !in s.clients then s
      else if |body| <= MAX_PAYLOAD && HEADER_BYTES + |body| <= CLIENT_QUEUE - |s.clients[c].output|
      then SetClient(s, c, Logged(s.clients[c], [Packet(kind, tab, body)]))
      else Tabs.DropClient(s, c)
  {
    if c in s.clients {
      OutputBound(s, c);
    }
    hide ValidService, Kept, Tabs.DropClient, Logged;
  }

  lemma OutputBound(s: Service, c: ClientId)
    requires ValidService(s) && c in s.clients
    ensures |s.clients[c].output| <= CLIENT_QUEUE
  {
    hide TabOk, Quiet, EncodeAll;
    assert ClientOk(s.clients[c]);
  }

  lemma LookIs(s: Service, i: nat)
    requires ValidService(s) && i < |s.tabs| && s.tabs[i].terminal.Some? && s.tabs[i].controller.None?
    ensures var t := s.tabs[i];
      && ValidEngine(t.terminal.value.engine) && s.clock >= t.terminal.value.engine.gate.now
      && var seen := Looked(t.terminal.value.engine, s.clock); var done := seen.gate.deadline == 0;
         LookUncontrolled(s, i) ==
           SetTab(s, i, t.(terminal := Some(t.terminal.value.(engine := if done then Cleaned(seen) else seen)), pendingFrame := t.pendingFrame && !done))
  {
    LookedTab(s, i);
    hide ValidService, Kept, ValidEngine, Looked, Cleaned, SameTabs;
  }

  lemma AttemptIs(s: Service, i: nat, full: bool, find: Mover)
    requires ValidService(s) && Attemptable(s, i)
    ensures var t, c := s.tabs[i], s.tabs[i].controller.value;
      var client := s.clients[c];
      && Sending(t, client, s.clock, full, find)
      && var r := SentBy(t, client, s.clock, full, find);
         var after := TabAfter(t, r, AnchorAfter(t, client.log, r, Whole(t, s.clock, full)));
         Services.SendFrame(s, i, full, find) == (SetClient(SetTab(s, i, after), c, Logged(client, r.packets)), r.outcome == Sent)
  {
    TakenOk(s, i, 0);
    LookedTab(s, i);
    OutputBound(s, s.tabs[i].controller.value);
    FindAllowed(s.tabs[i].screen, Looked(s.tabs[i].terminal.value.engine, s.clock), full, s.clients[s.tabs[i].controller.value].features, find);
    hide ValidService, Kept, Replicable, ValidEngine, MoveAllowed, Replicate, Looked, SameTabs;
  }

  lemma FindAllowed(s: Screen, e: Engine, full: bool, features: u32, find: Mover)
    requires Replicable(s, e)
    ensures MoveAllowed(s, e, full, features, find(s, e, full, features))
  {
    hide MoveAllowed;
  }

  /** The branches of a frame request. */
  lemma FrameIs(s: Service, i: nat, full: bool, find: Mover)
    requires ValidService(s) && i < |s.tabs|
    ensures var t := s.tabs[i];
      && (t.controller.Some? ==> t.controller.value in s.clients)
      && (t.terminal.None? ==> Services.SendFrame(s, i, full, find) == (s, false))
      && (t.terminal.Some? && t.controller.None? ==> Services.SendFrame(s, i, full, find) == (LookUncontrolled(s, i), false))
      && (t.terminal.Some? && t.controller.Some? ==>
            var client := s.clients[t.controller.value];
            && (!client.ready ==> Services.SendFrame(s, i, full, find) == (s, false))
            && (client.ready && (client.needsResync || |client.output| >= FRAME_BACKLOG) ==>
                  Services.SendFrame(s, i, full, find) == (Services.Gate(s, i, full), false)))
  {
    TakenOk(s, i, 0);
    hide ValidService, Kept, Replicable, ValidEngine, MoveAllowed, Replicate, Looked, SameTabs, Attempted, LookUncontrolled, Services.Gate;
  }

  lemma PendingNext(s: Service, i: nat, upkeep: bool, find: Mover)
    requires ValidService(s) && i <= |s.tabs|
    ensures i == |s.tabs| ==> Steps.SendPending(s, i, upkeep, find) == (s, false)
    ensures i < |s.tabs| ==>
      var sent := if s.tabs[i].pendingFrame then Services.SendFrame(s, i, false, find) else (s, false);
      && |sent.0.tabs| == |s.tabs|
      && var cleared := if sent.1 && upkeep then ClearInput(sent.0, i) else sent.0;
         && |cleared.tabs| == |s.tabs|
         && var rest := Steps.SendPending(cleared, i + 1, upkeep, find);
            Steps.SendPending(s, i, upkeep, find) == (rest.0, sent.1 || rest.1)
  {
    hide ValidService, Kept, Services.SendFrame, ClearInput;
  }

  lemma EachNext(s: Service, ids: seq<ClientId>, k: nat, kind: u32, body: seq<byte>)
    requires ValidService(s) && !FrameKind(kind) && kind != WIRE_RELEASE && k <= |ids|
    ensures k == |ids| ==> QueueEach(s, ids[k..], kind, 0, body) == s
    ensures k < |ids| ==>
      QueueEach(s, ids[k..], kind, 0, body) == QueueEach(Tabs.Queue(s, ids[k], kind, 0, body), ids[k + 1..], kind, 0, body)
  {
    assert k < |ids| ==> ids[k..][1..] == ids[k + 1..];
    hide ValidService, Kept, Tabs.Queue, SameTabs;
  }

  lemma ResumedNone(s: Service)
    requires ValidService(s)
    ensures Resumed(s, []) == s
  {
    hide ValidService, Kept;
  }

  lemma {:induction false} ResumedNext(s: Service, ids: seq<ClientId>, c: ClientId)
    requires ValidService(s) && c in s.clients && c in Resumed(s, ids).clients
    ensures Resumed(s, ids + [c]) == SetClient(Resumed(s, ids), c, Resumed(s, ids).clients[c].(needsResync := false))
    decreases |ids|
  {
    if ids == [] {
      assert [c][1..] == [];
      GatedClient(s, c);
      ResumedNone(s);
      ResumedNone(SetClient(s, c, s.clients[c].(needsResync := false)));
      hide ValidService, Kept;
      assert ids + [c] == [c];
    } else {
      assert (ids + [c])[1..] == ids[1..] + [c];
      if ids[0] !in s.clients {
        hide ValidService, Kept;
        ResumedNext(s, ids[1..], c);
      } else {
        GatedClient(s, ids[0]);
        hide ValidService, Kept;
        ResumedNext(SetClient(s, ids[0], s.clients[ids[0]].(needsResync := false)), ids[1..], c);
      }
    }
  }

  lemma ResumeNext(s: Service, ids: seq<ClientId>, k: nat, find: Mover)
    requires ValidService(s) && k <= |ids|
    ensures k == |ids| ==> ResumeClients(s, ids[k..], find) == s
    ensures k < |ids| ==>
      ResumeClients(s, ids[k..], find) == ResumeClients(ResumeTabs(s, ids[k], 0, find), ids[k + 1..], find)
  {
    assert k < |ids| ==> ids[k..][1..] == ids[k + 1..];
    hide ValidService, Kept, ResumeTabs, SameTabs;
  }

  lemma TabsNext(s: Service, c: ClientId, i: nat, find: Mover)
    requires ValidService(s) && i <= |s.tabs|
    ensures i == |s.tabs| ==> ResumeTabs(s, c, i, find) == s
    ensures i < |s.tabs| ==>
      var next := if s.tabs[i].controller == Some(c) then Services.SendFrame(s, i, false, find).0 else s;
      |next.tabs| == |s.tabs| && ResumeTabs(s, c, i, find) == ResumeTabs(next, c, i + 1, find)
  {
    hide ValidService, Kept, Services.SendFrame;
  }

  lemma FinishIs(s: Service, c: ClientId)
    requires ValidService(s)
    ensures c !in s.clients || s.clients[c].output != [] || c !in s.pendingReplace ==> Steps.FinishReplacement(s, c) == s
    ensures c in s.clients && s.clients[c].output == [] && c in s.pendingReplace ==>
      var (id, url) := s.pendingReplace[c];
      var s1 := s.(pendingReplace := s.pendingReplace - {c});
      var i := Position(s.tabs, id);
      Steps.FinishReplacement(s, c) == if i.None? then s1 else SetTab(s1, i.value, Converted(s.tabs[i.value], url))
  {
    hide ValidService, Kept, Converted, Position;
  }

  lemma FlushIs(s: Service, c: ClientId, moved: nat, failed: bool)
    requires ValidService(s)
    ensures c !in s.clients ==> Steps.ClientFlush(s, c, moved, failed) == Steps.FinishReplacement(s, c)
    ensures c in s.clients ==>
      var client := s.clients[c];
      var count := Min(moved, |client.output|);
      var s1 := SetClient(s, c, client.(output := client.output[count..], delivered := client.delivered + client.output[..count]));
      && ValidService(s1)
      && Steps.ClientFlush(s, c, moved, failed) == Steps.FinishReplacement(if failed then Tabs.DropClient(s1, c) else s1, c)
  {
    hide ValidService, Kept, Steps.FinishReplacement, Tabs.DropClient, SameTabs;
    if c in s.clients {
      var client, count := s.clients[c], Min(moved, |s.clients[c].output|);
      assert Flushed(s, c, count) == SetClient(s, c, client.(output := client.output[count..], delivered := client.delivered + client.output[..count]));
    }
  }

  lemma NotifyNext(s: Service, tab: u32, ns: seq<(ClientId, Notice)>, k: nat)
    requires ValidService(s) && k <= |ns|
    ensures k == |ns| ==> Notify(s, tab, ns[k..]) == s
    ensures k < |ns| ==>
      && !FrameKind(NoticeKind(ns[k].1)) && NoticeKind(ns[k].1) != WIRE_RELEASE
      && Notify(s, tab, ns[k..]) == Notify(Tabs.Queue(s, ns[k].0, NoticeKind(ns[k].1), tab, NoticeBody(ns[k].1)), tab, ns[k + 1..])
  {
    assert k < |ns| ==> ns[k..][1..] == ns[k + 1..];
    hide ValidService, Kept, Tabs.Queue, SameTabs;
  }

  lemma DeadNext(s: Service, i: nat)
    requires ValidService(s) && i <= |s.tabs|
    ensures Runs.CloseDead(s, i) ==
      if i == |s.tabs| then s else if s.tabs[i].terminal.Some? && !s.tabs[i].terminal.value.open then Runs.CloseDead(Steps.Close(s, i), i) else Runs.CloseDead(s, i + 1)
  {
    hide ValidService, Kept, Steps.Close;
  }

  lemma ChangeIs(s: Service, i: nat, wish: Engine)
    requires ValidService(s) && i < |s.tabs| && s.tabs[i].terminal.Some?
    ensures ChangeEngine(s, i, wish) ==
      SetTab(s, i, s.tabs[i].(terminal := Some(s.tabs[i].terminal.value.(engine := AfterEngine(s.tabs[i].terminal.value.engine, wish, s.clock)))))
  {
    hide ValidService, Kept, SameTabs, Changes, WireSized;
    assert s.tabs[i := s.tabs[i]] == s.tabs;
  }

  lemma AppendNext(s: Service, staged: seq<Runs.Staged>, k: nat)
    requires ValidService(s) && k <= |staged| && s.nextId + |staged| - k <= 0xffff_ffff
    requires forall x | x in staged :: Runs.StagedOk(x, s.clock)
    ensures k == |staged| ==> Runs.Appended(s, staged[k..]) == s
    ensures k < |staged| ==>
      && Runs.StagedOk(staged[k], s.clock)
      && var t := Runs.StagedTab(s.nextId, staged[k]);
         && TabOk(t, s.clients, s.clock) && t.id == s.nextId
         && Messages.PushTab(s, t).clock == s.clock
         && Runs.Appended(s, staged[k..]) == Runs.Appended(Messages.PushTab(s, t), staged[k + 1..])
  {
    hide ValidService, Kept, TabOk, Runs.StagedOk;
    if k < |staged| {
      assert staged[k] in staged;
      assert staged[k..][1..] == staged[k + 1..];
      Runs.StagedTabOk(s, staged[k]);
    }
  }
}
