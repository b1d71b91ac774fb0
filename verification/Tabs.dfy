/**
 The service's state on values, the invariant every step keeps, and the primitive changes all steps are
 made of: replacing a tab, queueing a packet, dropping a client, replicating a frame.
 */
module Tabs {
  import opened Bytes
  import opened Engines
  import opened Framing
  import opened Deltas
  import opened Viewports
  import opened Frames
  import opened Replicas
  import opened Paging

  type ClientId = nat

  const WIRE_COMMAND_DONE: u32 := 25

  /**
   A connection. `output` is what its queue still holds; `delivered` and `log` are its history: the
   bytes its socket took and the packets ever queued to it.
   */
  datatype Client = Client(
    ready: bool, features: u32, needsResync: bool, selection: Option<Selection>,
    output: seq<byte>, delivered: seq<byte>, log: seq<Packet>)

  /** `open` says whether the PTY master is still held. */
  datatype Terminal = Terminal(engine: Engine, open: bool)

  /**
   `since` and `anchor` are history: how many packets its controller had been queued when it took control, or when
   the window it opened had been told of the tab, and how many when the last whole frame of the tab went out to it.
   */
  datatype Tab = Tab(
    id: u32, terminal: Option<Terminal>, url: Option<seq<byte>>,
    controller: Option<ClientId>, printClient: Option<ClientId>,
    screen: Screen, pendingFrame: bool, inputFrame: bool, frameReply: bool, since: nat, anchor: nat)

  datatype Service = Service(
    tabs: seq<Tab>, clients: map<ClientId, Client>, nextId: u32, nextClient: ClientId,
    running: bool, restoredLaunch: bool, pendingReplace: map<ClientId, (u32, seq<byte>)>,
    handin: bool, closed: u32, fallback: u32, lastFrame: int, clock: int)

  // ---- What a client's history says ----

  /** A viewport with nothing staged: where any replica may start. */
  predicate Idle(v: View) {
    ValidView(v) && v.pending.None?
  }

  /** Where a page may begin to read its connection: at the start, or behind a catalog, which may have created it. */
  predicate Birth(log: seq<Packet>, j: nat) {
    j <= |log| && (j == 0 || log[j - 1].kind == WIRE_CATALOG)
  }

  /** From any idle start, a replica reading this has refused nothing and stages nothing. */
  ghost predicate QuietFrom(log: seq<Packet>, tab: u32) {
    forall v | Idle(v) :: Settled(Replay(Replica(v, true), log, tab), NO_SCREEN)
  }

  /** From any idle start, a replica reading this shows the baseline where there is one. */
  ghost predicate FollowsFrom(log: seq<Packet>, tab: u32, s: Screen) {
    forall v | Idle(v) :: Settled(Replay(Replica(v, true), log, tab), s)
  }

  /** Whenever its page was created, the tab's replica has refused nothing and stages nothing. */
  ghost predicate Quiet(log: seq<Packet>, tab: u32) {
    forall j: nat | Birth(log, j) :: QuietFrom(log[j..], tab)
  }

  /** If its page was created no later than `anchor`, the tab's replica shows the baseline where there is one. */
  ghost predicate Follows(log: seq<Packet>, tab: u32, s: Screen, anchor: nat) {
    forall j: nat | Birth(log, j) && j <= anchor :: FollowsFrom(log[j..], tab, s)
  }

  /** Packets that no replica showing a baseline has to fear. */
  predicate Harmless(p: Packet) {
    Sendable(p) && !FrameKind(p.kind)
  }

  lemma QuietIsFollowing(log: seq<Packet>, tab: u32, s: Screen)
    requires s.rows == []
    ensures QuietFrom(log, tab) <==> FollowsFrom(log, tab, s)
  {
    hide Replay, ValidView;
    if QuietFrom(log, tab) {
      forall v | Idle(v)
        ensures Settled(Replay(Replica(v, true), log, tab), s)
      {
        assert Settled(Replay(Replica(v, true), log, tab), NO_SCREEN);
      }
    }
    if FollowsFrom(log, tab, s) {
      forall v | Idle(v)
        ensures Settled(Replay(Replica(v, true), log, tab), NO_SCREEN)
      {
        assert Settled(Replay(Replica(v, true), log, tab), s);
      }
    }
  }

  /** Other tabs' packets, and kinds no viewport reads, change nothing for a tab. */
  lemma OthersPass(log: seq<Packet>, ps: seq<Packet>, tab: u32, s: Screen)
    requires FollowsFrom(log, tab, s)
    requires forall p | p in ps :: p.tab != tab || (!FrameKind(p.kind) && p.kind != WIRE_RELEASE)
    ensures FollowsFrom(log + ps, tab, s)
  {
    hide Settled;
    forall v | Idle(v)
      ensures Settled(Replay(Replica(v, true), log + ps, tab), s)
    {
      var r := Replay(Replica(v, true), log, tab);
      ReplayConcat(Replica(v, true), log, ps, tab);
      ReplayOther(r, ps, tab);
      assert Settled(r, s);
    }
  }

  /** A page born in the log as it was reads what was behind its birth and then what came. */
  lemma BornBefore(log: seq<Packet>, ps: seq<Packet>, j: nat)
    requires j <= |log|
    ensures Birth(log + ps, j) <==> Birth(log, j)
    ensures (log + ps)[j..] == log[j..] + ps
  {
  }

  /** Frames create no page. */
  lemma NoneBorn(log: seq<Packet>, ps: seq<Packet>, j: nat)
    requires Birth(log + ps, j) && forall p | p in ps :: p.kind != WIRE_CATALOG
    ensures Birth(log, j)
  {
    assert forall k | |log| <= k < |log + ps| :: (log + ps)[k] == ps[k - |log|];
  }

  lemma FollowsOther(log: seq<Packet>, ps: seq<Packet>, tab: u32, s: Screen, anchor: nat)
    requires Follows(log, tab, s, anchor) && anchor <= |log|
    requires forall p | p in ps :: p.tab != tab || (!FrameKind(p.kind) && p.kind != WIRE_RELEASE)
    ensures Follows(log + ps, tab, s, anchor)
  {
    hide FollowsFrom, Birth;
    forall j: nat | Birth(log + ps, j) && j <= anchor
      ensures FollowsFrom((log + ps)[j..], tab, s)
    {
      BornBefore(log, ps, j);
      OthersPass(log[j..], ps, tab, s);
    }
  }

  /** Other tabs' frames keep every replica quiet. */
  lemma QuietOther(log: seq<Packet>, ps: seq<Packet>, tab: u32)
    requires Quiet(log, tab) && forall p | p in ps :: p.tab != tab && p.kind != WIRE_CATALOG
    ensures Quiet(log + ps, tab)
  {
    hide QuietFrom, FollowsFrom;
    forall j: nat | Birth(log + ps, j)
      ensures QuietFrom((log + ps)[j..], tab)
    {
      NoneBorn(log, ps, j);
      BornBefore(log, ps, j);
      QuietIsFollowing(log[j..], tab, NO_SCREEN);
      OthersPass(log[j..], ps, tab, NO_SCREEN);
      QuietIsFollowing(log[j..] + ps, tab, NO_SCREEN);
    }
  }

  /** A harmless packet, a release included, keeps a replica quiet. */
  lemma HarmlessPasses(log: seq<Packet>, p: Packet, tab: u32)
    requires QuietFrom(log, tab) && Harmless(p)
    ensures QuietFrom(log + [p], tab)
  {
    forall v | Idle(v)
      ensures Settled(Replay(Replica(v, true), log + [p], tab), NO_SCREEN)
    {
      hide Apply, Receive;
      var r := Replay(Replica(v, true), log, tab);
      assert Settled(r, NO_SCREEN);
      assert (log + [p])[..|log|] == log;
    }
  }

  lemma QuietNothing(tab: u32)
    ensures QuietFrom([], tab)
  {
    forall v | Idle(v)
      ensures Settled(Replay(Replica(v, true), [], tab), NO_SCREEN)
    {
    }
  }

  /** The page a catalog creates starts out quiet as well. */
  lemma QuietHarmless(log: seq<Packet>, p: Packet, tab: u32)
    requires Quiet(log, tab) && Harmless(p)
    ensures Quiet(log + [p], tab)
  {
    hide QuietFrom;
    forall j: nat | Birth(log + [p], j)
      ensures QuietFrom((log + [p])[j..], tab)
    {
      if j <= |log| {
        BornBefore(log, [p], j);
        HarmlessPasses(log[j..], p, tab);
      } else {
        assert (log + [p])[j..] == [];
        QuietNothing(tab);
      }
    }
  }

  // ---- The invariant ----

  ghost predicate ClientOk(c: Client) {
    && AllSendable(c.log)
    && c.delivered + c.output == EncodeAll(c.log)
    && |c.output| <= CLIENT_QUEUE
    && ValidSelection(c.selection)
    && forall tab: u32 :: Quiet(c.log, tab)
  }

  /** The tab's history is no longer than what its controller has been queued. */
  predicate Within(t: Tab, log: seq<Packet>) {
    t.since <= |log| && t.anchor <= |log|
  }

  ghost predicate TabOk(t: Tab, clients: map<ClientId, Client>, clock: int) {
    && (t.url.Some? <==> t.terminal.None?)
    && (t.controller.Some? ==> t.controller.value in clients && Within(t, clients[t.controller.value].log))
    && (t.printClient.Some? ==> t.printClient.value in clients)
    && (t.terminal.Some? ==> t.terminal.value.engine.gate.now <= clock && Replicable(t.screen, t.terminal.value.engine))
    && (t.terminal.None? ==> t.screen.rows == [])
    && (t.screen.rows != [] ==> t.controller.Some? && t.since <= t.anchor && Follows(clients[t.controller.value].log, t.id, t.screen, t.anchor))
  }

  /** IDs are nonzero, strictly increasing in list order, and below the next one. */
  predicate IdsOk(tabs: seq<Tab>, nextId: u32) {
    && 0 < nextId
    && (forall i | 0 <= i < |tabs| :: 0 < tabs[i].id < nextId)
    && forall i, j | 0 <= i < j < |tabs| :: tabs[i].id < tabs[j].id
  }

  ghost predicate ClientsOk(clients: map<ClientId, Client>, nextClient: ClientId) {
    forall c | c in clients :: c < nextClient && ClientOk(clients[c])
  }

  ghost predicate TabsOk(tabs: seq<Tab>, clients: map<ClientId, Client>, clock: int) {
    forall i | 0 <= i < |tabs| :: TabOk(tabs[i], clients, clock)
  }

  predicate HasTab(tabs: seq<Tab>, id: u32) {
    exists i | 0 <= i < |tabs| :: tabs[i].id == id
  }

  /** A promised conversion names a connected client, whose acknowledgement is queued, and a tab. */
  predicate ReplacementsOk(s: Service) {
    forall c | c in s.pendingReplace ::
      && c in s.clients
      && HasTab(s.tabs, s.pendingReplace[c].0)
      && Packet(WIRE_COMMAND_DONE, s.pendingReplace[c].0, []) in s.clients[c].log
  }

  predicate FallbackOk(s: Service) {
    s.fallback != 0 ==> HasTab(s.tabs, s.fallback)
  }

  ghost predicate ValidService(s: Service) {
    && IdsOk(s.tabs, s.nextId)
    && ClientsOk(s.clients, s.nextClient)
    && TabsOk(s.tabs, s.clients, s.clock)
    && ReplacementsOk(s)
    && FallbackOk(s)
  }

  /** The same tabs in the same order, each still what it was. */
  predicate SameTabs(a: seq<Tab>, b: seq<Tab>) {
    && |a| == |b|
    && forall i | 0 <= i < |a| ::
      a[i].id == b[i].id && (a[i].terminal.Some? <==> b[i].terminal.Some?)
  }

  // ---- What becomes of a tab over time ----

  predicate ShellTab(tabs: seq<Tab>, id: u32) {
    exists i | 0 <= i < |tabs| :: tabs[i].id == id && tabs[i].terminal.Some?
  }

  predicate PageTab(tabs: seq<Tab>, id: u32) {
    exists i | 0 <= i < |tabs| :: tabs[i].id == id && tabs[i].terminal.None?
  }

  /** Every ID given out so far still means the tab it meant, of the same kind, or nothing. */
  predicate Kept(s: Service, r: Service) {
    && s.nextId <= r.nextId
    && forall id: u32 | id < s.nextId ::
         && (ShellTab(r.tabs, id) ==> ShellTab(s.tabs, id))
         && (PageTab(r.tabs, id) ==> PageTab(s.tabs, id))
  }

  /** The client has been sent everything queued to it, that tab's acknowledgement included. */
  predicate Acknowledged(clients: map<ClientId, Client>, c: ClientId, id: u32) {
    c in clients && clients[c].output == [] && Packet(WIRE_COMMAND_DONE, id, []) in clients[c].log
  }

  /** The same, except that a shell may have become a page once client `c` had its acknowledgement. */
  predicate KeptBy(s: Service, r: Service, c: ClientId) {
    && s.nextId <= r.nextId
    && forall id: u32 | id < s.nextId ::
         && (ShellTab(r.tabs, id) ==> ShellTab(s.tabs, id))
         && (PageTab(r.tabs, id) ==> PageTab(s.tabs, id) || (ShellTab(s.tabs, id) && Acknowledged(r.clients, c, id)))
  }

  lemma SameTabsKeep(s: Service, tabs: seq<Tab>)
    requires SameTabs(s.tabs, tabs)
    ensures Kept(s, s.(tabs := tabs))
    ensures IdsOk(s.tabs, s.nextId) ==> IdsOk(tabs, s.nextId)
    ensures forall id :: HasTab(s.tabs, id) ==> HasTab(tabs, id)
  {
    forall id | HasTab(s.tabs, id)
      ensures HasTab(tabs, id)
    {
      var i :| 0 <= i < |s.tabs| && s.tabs[i].id == id;
      assert tabs[i].id == id;
    }
  }

  // ---- Replacing one tab ----

  function SetTab(s: Service, i: nat, t: Tab): (r: Service)
    requires i < |s.tabs|
  {
    s.(tabs := s.tabs[i := t])
  }

  lemma SetTabKeeps(s: Service, i: nat, t: Tab)
    requires ValidService(s) && i < |s.tabs|
    requires t.id == s.tabs[i].id && (t.terminal.Some? <==> s.tabs[i].terminal.Some?)
    requires TabOk(t, s.clients, s.clock)
    ensures ValidService(SetTab(s, i, t)) && SameTabs(s.tabs, SetTab(s, i, t).tabs) && Kept(s, SetTab(s, i, t))
  {
    hide TabOk, ClientsOk;
    SameTabsKeep(s, s.tabs[i := t]);
  }

  function Released(t: Tab): (r: Tab) {
    t.(controller := None, frameReply := false, screen := NO_SCREEN)
  }

  lemma ReleasedOk(t: Tab, clients: map<ClientId, Client>, clock: int)
    requires TabOk(t, clients, clock)
    ensures TabOk(Released(t), clients, clock)
  {
    hide ValidEngine, Follows;
  }

  function Release(s: Service, i: nat): (r: Service)
    requires ValidService(s) && i < |s.tabs|
    ensures ValidService(r) && Kept(s, r) && SameTabs(s.tabs, r.tabs)
  {
    hide TabOk, ClientsOk, IdsOk, ReplacementsOk, FallbackOk, SameTabs;
    ReleasedOk(s.tabs[i], s.clients, s.clock);
    SetTabKeeps(s, i, Released(s.tabs[i]));
    SetTab(s, i, Released(s.tabs[i]))
  }

  // ---- Dropping a client ----

  function Forgotten(t: Tab, c: ClientId): (r: Tab) {
    var a := if t.controller == Some(c) then Released(t) else t;
    if a.printClient == Some(c) then a.(printClient := None) else a
  }

  lemma ForgottenOk(t: Tab, c: ClientId, clients: map<ClientId, Client>, clock: int)
    requires TabOk(t, clients, clock)
    ensures TabOk(Forgotten(t, c), clients - {c}, clock)
  {
    hide ValidEngine, Follows;
  }

  /** The client, its promises, and every control it held are gone. */
  function DropClient(s: Service, c: ClientId): (r: Service)
    requires ValidService(s)
    ensures ValidService(r) && Kept(s, r) && SameTabs(s.tabs, r.tabs)
    ensures r.clients == s.clients - {c}
  {
    hide TabOk, ClientOk;
    var tabs := seq(|s.tabs|, i requires 0 <= i < |s.tabs| => Forgotten(s.tabs[i], c));
    var r := s.(clients := s.clients - {c}, pendingReplace := s.pendingReplace - {c}, tabs := tabs);
    assert SameTabs(s.tabs, tabs);
    SameTabsKeep(s, tabs);
    assert TabsOk(tabs, r.clients, s.clock) by {
      forall i | 0 <= i < |tabs|
        ensures TabOk(tabs[i], r.clients, s.clock)
      {
        ForgottenOk(s.tabs[i], c, s.clients, s.clock);
      }
    }
    r
  }

  /** What dropping a client leaves as it was: every other client, and every tab it neither controlled nor printed. */
  lemma DropForgetsOnly(s: Service, c: ClientId)
    requires ValidService(s)
    ensures var r := DropClient(s, c);
      && (forall d | d in s.clients && d != c :: d in r.clients && r.clients[d] == s.clients[d])
      && (forall d | d in s.pendingReplace && d != c :: d in r.pendingReplace && r.pendingReplace[d] == s.pendingReplace[d])
      && c !in r.clients && c !in r.pendingReplace && |r.tabs| == |s.tabs|
      && forall i | 0 <= i < |s.tabs| ::
           && (s.tabs[i].controller == Some(c) ==> r.tabs[i].controller == None && r.tabs[i].screen == NO_SCREEN)
           && (s.tabs[i].controller != Some(c) ==>
                 r.tabs[i].controller == s.tabs[i].controller && r.tabs[i].screen == s.tabs[i].screen)
           && r.tabs[i].printClient == (if s.tabs[i].printClient == Some(c) then None else s.tabs[i].printClient)
           && r.tabs[i].terminal == s.tabs[i].terminal && r.tabs[i].url == s.tabs[i].url
           && (s.tabs[i].controller != Some(c) && s.tabs[i].printClient != Some(c) ==> r.tabs[i] == s.tabs[i])
  {
    hide ValidService, ShellTab, PageTab;
  }

  // ---- A client's log grows ----

  function Logged(c: Client, ps: seq<Packet>): (r: Client)
    requires AllSendable(ps)
  {
    c.(output := c.output + EncodeAll(ps), log := c.log + ps)
  }

  function SetClient(s: Service, c: ClientId, client: Client): (r: Service) {
    s.(clients := s.clients[c := client])
  }

  /** Replacing a client by one that says at least as much keeps every promise made to it. */
  lemma SetClientKeeps(s: Service, c: ClientId, client: Client)
    requires ValidService(s) && c in s.clients && ClientOk(client)
    requires s.clients[c].log <= client.log
    requires forall i | 0 <= i < |s.tabs| && s.tabs[i].controller == Some(c) && s.tabs[i].screen.rows != [] ::
      Follows(client.log, s.tabs[i].id, s.tabs[i].screen, s.tabs[i].anchor)
    ensures ValidService(SetClient(s, c, client))
  {
    hide ClientOk, Follows, Replicable, IdsOk;
    var r := SetClient(s, c, client);
    assert TabsOk(r.tabs, r.clients, r.clock) by {
      forall i | 0 <= i < |r.tabs|
        ensures TabOk(r.tabs[i], r.clients, r.clock)
      {
        assert TabOk(s.tabs[i], s.clients, s.clock);
      }
    }
  }

  lemma LoggedOk(c: Client, ps: seq<Packet>)
    requires ClientOk(c) && AllSendable(ps) && |EncodeAll(ps)| <= CLIENT_QUEUE - |c.output|
    requires forall tab: u32 :: Quiet(c.log + ps, tab)
    ensures ClientOk(Logged(c, ps))
  {
    hide Quiet, EncodeAll;
    EncodeAllConcat(c.log, ps);
    assert c.delivered + (c.output + EncodeAll(ps)) == (c.delivered + c.output) + EncodeAll(ps);
  }

  /** One service packet: queued whole, or the client that cannot take it is dropped. */
  function Queue(s: Service, c: ClientId, kind: u32, tab: u32, body: seq<byte>): (r: Service)
    requires ValidService(s) && !FrameKind(kind)
    requires kind == WIRE_RELEASE ==> forall i | 0 <= i < |s.tabs| && s.tabs[i].id == tab :: s.tabs[i].controller != Some(c)
    ensures ValidService(r) && Kept(s, r) && SameTabs(s.tabs, r.tabs)
    ensures r.clients.Keys == s.clients.Keys || r.clients.Keys == s.clients.Keys - {c}
    ensures c in r.clients ==> c in s.clients && Packet(kind, tab, body) in r.clients[c].log
  {
    hide ValidService, ClientOk, TabOk, EncodeAll;
    if c !in s.clients then s
    else if |body| <= MAX_PAYLOAD && HEADER_BYTES + |body| <= CLIENT_QUEUE - |s.clients[c].output| then
      QueuedKeeps(s, c, Packet(kind, tab, body));
      SetClient(s, c, Logged(s.clients[c], [Packet(kind, tab, body)]))
    else DropClient(s, c)
  }

  lemma QueuedKeeps(s: Service, c: ClientId, p: Packet)
    requires ValidService(s) && c in s.clients && Harmless(p)
    requires HEADER_BYTES + |p.body| <= CLIENT_QUEUE - |s.clients[c].output|
    requires p.kind == WIRE_RELEASE ==>
      forall i | 0 <= i < |s.tabs| && s.tabs[i].id == p.tab :: s.tabs[i].controller != Some(c)
    ensures ValidService(SetClient(s, c, Logged(s.clients[c], [p])))
  {
    hide Quiet, Follows, EncodeAll, Replicable, Encode;
    var client := s.clients[c];
    forall tab: u32
      ensures Quiet(client.log + [p], tab)
    {
      QuietHarmless(client.log, p, tab);
    }
    EncodeAllOne(p);
    LoggedOk(client, [p]);
    forall i | 0 <= i < |s.tabs| && s.tabs[i].controller == Some(c) && s.tabs[i].screen.rows != []
      ensures Follows(client.log + [p], s.tabs[i].id, s.tabs[i].screen, s.tabs[i].anchor)
    {
      assert TabOk(s.tabs[i], s.clients, s.clock);
      FollowsOther(client.log, [p], s.tabs[i].id, s.tabs[i].screen, s.tabs[i].anchor);
    }
    SetClientKeeps(s, c, Logged(client, [p]));
  }

  /** A queued packet is the only thing that changes; a dropped client is all that goes. */
  lemma QueueAddsOnly(s: Service, c: ClientId, kind: u32, tab: u32, body: seq<byte>)
    requires ValidService(s) && !FrameKind(kind)
    requires kind == WIRE_RELEASE ==> forall i | 0 <= i < |s.tabs| && s.tabs[i].id == tab :: s.tabs[i].controller != Some(c)
    ensures var r := Queue(s, c, kind, tab, body);
      && (c in r.clients ==> (r.tabs == s.tabs && r.clients.Keys == s.clients.Keys &&
            r.clients[c] == Logged(s.clients[c], [Packet(kind, tab, body)])))
      && (c in s.clients && c !in r.clients ==> r == DropClient(s, c))
      && (forall d | d in s.clients && d != c :: d in r.clients && r.clients[d] == s.clients[d])
  {
    if c in s.clients {
      DropForgetsOnly(s, c);
    }
    hide ValidService, DropClient, EncodeAll, Logged;
  }
}
