/**
 Everything the service does between two polls, composed from the building steps: notices, catalogs,
 publication, resumption, closing, flushing and conversion.
 */
module Steps {
  import opened Bytes
  import opened Engines
  import opened Framing
  import opened Deltas
  import opened Viewports
  import opened Frames
  import opened Replicas
  import opened Tabs
  import opened Services

  // ---- Closing a tab ----

  function Without<T>(s: seq<T>, i: nat): (r: seq<T>)
    requires i < |s|
    ensures |r| == |s| - 1
    ensures forall k | 0 <= k < |r| :: r[k] == s[if k < i then k else k + 1]
  {
    s[..i] + s[i + 1..]
  }

  /** The tab closes; a client showing it should turn to its successor, or else its predecessor. */
  function Close(s: Service, i: nat): (r: Service)
    requires ValidService(s) && i < |s.tabs|
    ensures ValidService(r) && Kept(s, r) && |r.tabs| == |s.tabs| - 1 && r.clients == s.clients
    ensures r.closed == s.tabs[i].id && r.fallback == Successor(s.tabs, i)
  {
    hide ValidService, Successor, ShellTab, PageTab;
    CloseKeeps(s, i);
    Closed(s, i)
  }

  /** The ID of the next tab, of the previous one when there is no next, or zero. */
  function Successor(tabs: seq<Tab>, i: nat): (id: u32)
    requires i < |tabs|
  {
    if i + 1 < |tabs| then tabs[i + 1].id else if i > 0 then tabs[i - 1].id else 0
  }

  function Closed(s: Service, i: nat): (r: Service)
    requires i < |s.tabs|
  {
    var id := s.tabs[i].id;
    s.(tabs := Without(s.tabs, i), closed := id, fallback := Successor(s.tabs, i),
       pendingReplace := map c | c in s.pendingReplace && s.pendingReplace[c].0 != id :: s.pendingReplace[c])
  }

  lemma CloseKeeps(s: Service, i: nat)
    requires ValidService(s) && i < |s.tabs|
    ensures ValidService(Closed(s, i)) && Kept(s, Closed(s, i))
  {
    hide TabOk, ClientsOk, HasTab, IdsOk, ReplacementsOk, ShellTab, PageTab;
    RemainingTabs(s, i);
    RemainingKept(s, i);
    ReplacementsWithout(s, i);
    ReplacementsIgnore(Closed(s, i), s.closed, s.fallback);
    assert TabsOk(Closed(s, i).tabs, s.clients, s.clock);
  }

  lemma ReplacementsIgnore(s: Service, closed: u32, fallback: u32)
    ensures ReplacementsOk(s) <==> ReplacementsOk(s.(closed := closed, fallback := fallback))
  {
    hide HasTab;
  }

  lemma ReplacementsWithout(s: Service, i: nat)
    requires ReplacementsOk(s) && IdsOk(s.tabs, s.nextId) && i < |s.tabs|
    ensures ReplacementsOk(s.(tabs := Without(s.tabs, i),
      pendingReplace := map c | c in s.pendingReplace && s.pendingReplace[c].0 != s.tabs[i].id :: s.pendingReplace[c]))
  {
    hide HasTab, IdsOk, Without;
    RemainingTabs(s, i);
  }

  lemma RemainingTabs(s: Service, i: nat)
    requires IdsOk(s.tabs, s.nextId) && i < |s.tabs|
    ensures IdsOk(Without(s.tabs, i), s.nextId)
    ensures forall id :: HasTab(s.tabs, id) && id != s.tabs[i].id ==> HasTab(Without(s.tabs, i), id)
    ensures Successor(s.tabs, i) != 0 ==> HasTab(Without(s.tabs, i), Successor(s.tabs, i))
  {
    var rest := Without(s.tabs, i);
    forall id | HasTab(s.tabs, id) && id != s.tabs[i].id
      ensures HasTab(rest, id)
    {
      var k :| 0 <= k < |s.tabs| && s.tabs[k].id == id;
      assert rest[if k < i then k else k - 1].id == id;
    }
    assert i + 1 < |s.tabs| ==> rest[i].id == s.tabs[i + 1].id;
    assert i > 0 ==> rest[i - 1].id == s.tabs[i - 1].id;
  }

  lemma RemainingKept(s: Service, i: nat)
    requires i < |s.tabs|
    ensures Kept(s, Closed(s, i))
  {
    hide Successor;
    var rest := Closed(s, i).tabs;
    forall id: u32
      ensures ShellTab(rest, id) ==> ShellTab(s.tabs, id)
      ensures PageTab(rest, id) ==> PageTab(s.tabs, id)
    {
      if ShellTab(rest, id) {
        var k :| 0 <= k < |rest| && rest[k].id == id && rest[k].terminal.Some?;
        assert s.tabs[if k < i then k else k + 1] == rest[k];
      }
      if PageTab(rest, id) {
        var k :| 0 <= k < |rest| && rest[k].id == id && rest[k].terminal.None?;
        assert s.tabs[if k < i then k else k + 1] == rest[k];
      }
    }
  }

  // ---- What parsing changes ----

  /** The engine after some parsing, resizing or scrolling the environment chose, within its contract. */
  function AfterEngine(e: Engine, wish: Engine, clock: int): (r: Engine) {
    if Changes(e, wish) && WireSized(wish) && wish.gate.now <= clock then wish else e
  }

  lemma ChangesReplicable(s: Screen, e: Engine, e': Engine)
    requires Replicable(s, e) && Changes(e, e') && WireSized(e')
    ensures Replicable(s, e')
  {
    hide ValidRow;
  }

  function ChangeEngine(s: Service, i: nat, wish: Engine): (r: Service)
    requires ValidService(s) && i < |s.tabs| && s.tabs[i].terminal.Some?
    ensures ValidService(r) && Kept(s, r) && SameTabs(s.tabs, r.tabs) && r.clients == s.clients
  {
    hide IdsOk, ReplacementsOk, FallbackOk, ClientOk, ClientsOk, Replicable, Changes, Follows, ShellTab, PageTab;
    var t := s.tabs[i];
    assert TabOk(t, s.clients, s.clock);
    var e := AfterEngine(t.terminal.value.engine, wish, s.clock);
    if e == wish && Changes(t.terminal.value.engine, wish) && WireSized(wish) then
      ChangesReplicable(t.screen, t.terminal.value.engine, wish);
      EngineTabOk(t, e, s.clients, s.clock, t.pendingFrame);
      SetTabKeeps(s, i, t.(terminal := Some(t.terminal.value.(engine := e))));
      SetTab(s, i, t.(terminal := Some(t.terminal.value.(engine := e))))
    else
      SameTabsSelf(s.tabs);
      s
  }

  // ---- Notices ----

  datatype Notice = Clipboard(body: seq<byte>) | Bell | Print(body: seq<byte>) | Failure(body: seq<byte>)

  function NoticeKind(n: Notice): (kind: u32)
    ensures !FrameKind(kind) && kind != WIRE_RELEASE
  {
    match n
    case Clipboard(_) => WIRE_CLIPBOARD
    case Bell => WIRE_BELL
    case Print(_) => WIRE_PRINT
    case Failure(_) => WIRE_ERROR
  }

  /** Prints go to the printing client, everything else to the controller, as they are when it happens. */
  function Recipient(t: Tab, n: Notice): Option<ClientId> {
    if n.Print? then t.printClient else t.controller
  }

  function NoticeBody(n: Notice): seq<byte> {
    if n.Bell? then [] else n.body
  }

  function Addressed(t: Tab, ns: seq<Notice>): (a: seq<(ClientId, Notice)>) {
    if ns == [] then []
    else
      var to := Recipient(t, ns[0]);
      (if to.Some? then [(to.value, ns[0])] else []) + Addressed(t, ns[1..])
  }

  function Notify(s: Service, tab: u32, ns: seq<(ClientId, Notice)>): (r: Service)
    requires ValidService(s)
    ensures ValidService(r) && Kept(s, r) && SameTabs(s.tabs, r.tabs)
    decreases |ns|
  {
    hide ValidService, ShellTab, PageTab;
    if ns == [] then SameTabsSelf(s.tabs); s
    else Notify(Queue(s, ns[0].0, NoticeKind(ns[0].1), tab, NoticeBody(ns[0].1)), tab, ns[1..])
  }

  // ---- Frames for several tabs, catalogs, publication ----

  /** A delta for every tab that still owes one, in list order; the flag says whether any was queued. */
  function SendPending(s: Service, i: nat, upkeep: bool, find: Mover): (r: (Service, bool))
    requires ValidService(s) && i <= |s.tabs|
    ensures ValidService(r.0) && Kept(s, r.0) && SameTabs(s.tabs, r.0.tabs) && r.0.clients.Keys == s.clients.Keys
    decreases |s.tabs| - i
  {
    hide ValidService, SendFrame, ShellTab, PageTab;
    if i == |s.tabs| then SameTabsSelf(s.tabs); (s, false)
    else
      SameTabsSelf(s.tabs);
      var sent := if s.tabs[i].pendingFrame then SendFrame(s, i, false, find) else (s, false);
      var cleared := if sent.1 && upkeep then ClearInput(sent.0, i) else sent.0;
      var rest := SendPending(cleared, i + 1, upkeep, find);
      (rest.0, sent.1 || rest.1)
  }

  function ClearInput(s: Service, i: nat): (r: Service)
    requires ValidService(s) && i < |s.tabs|
    ensures ValidService(r) && Kept(s, r) && SameTabs(s.tabs, r.tabs) && r.clients == s.clients
  {
    hide IdsOk, ReplacementsOk, FallbackOk, ClientOk, ClientsOk, Replicable, Follows, ShellTab, PageTab;
    var t := s.tabs[i];
    assert TabOk(t, s.clients, s.clock);
    SetTabKeeps(s, i, t.(inputFrame := false));
    SetTab(s, i, t.(inputFrame := false))
  }

  /** Building the catalog looks at the engines whose entry is refreshed; their gate may expire. */
  function LookedAt(t: Tab, ids: set<u32>, clock: int): (r: Tab) {
    if t.id in ids && t.terminal.Some? && ValidEngine(t.terminal.value.engine) && t.terminal.value.engine.gate.now <= clock
    then t.(terminal := Some(t.terminal.value.(engine := Looked(t.terminal.value.engine, clock))))
    else t
  }

  lemma LookedAtOk(t: Tab, ids: set<u32>, clients: map<ClientId, Client>, clock: int)
    requires TabOk(t, clients, clock)
    ensures TabOk(LookedAt(t, ids, clock), clients, clock)
  {
    hide Follows, Replicable, ValidEngine, Looked;
    if t.id in ids && t.terminal.Some? {
      var e := t.terminal.value.engine;
      if ValidEngine(e) && e.gate.now <= clock {
        LookedReplicable(t.screen, e, clock);
        EngineTabOk(t, Looked(e, clock), clients, clock, t.pendingFrame);
      }
    }
  }

  function LookTabs(s: Service, ids: set<u32>): (r: Service)
    requires ValidService(s)
    ensures ValidService(r) && Kept(s, r) && SameTabs(s.tabs, r.tabs) && r.clients == s.clients
  {
    hide TabOk, ClientOk, IdsOk, LookedAt, ReplacementsOk, ShellTab, PageTab;
    var tabs := seq(|s.tabs|, i requires 0 <= i < |s.tabs| => LookedAt(s.tabs[i], ids, s.clock));
    LookedTabsSame(s, ids);
    SameTabsKeep(s, tabs);
    assert TabsOk(tabs, s.clients, s.clock) by {
      forall i | 0 <= i < |tabs|
        ensures TabOk(tabs[i], s.clients, s.clock)
      {
        LookedAtOk(s.tabs[i], ids, s.clients, s.clock);
      }
    }
    ReplacementsKept(s, tabs);
    s.(tabs := tabs)
  }

  lemma LookedTabsSame(s: Service, ids: set<u32>)
    ensures SameTabs(s.tabs, seq(|s.tabs|, i requires 0 <= i < |s.tabs| => LookedAt(s.tabs[i], ids, s.clock)))
  {
    hide ValidEngine, Looked;
  }

  lemma ReplacementsKept(s: Service, tabs: seq<Tab>)
    requires ReplacementsOk(s) && SameTabs(s.tabs, tabs)
    ensures ReplacementsOk(s.(tabs := tabs))
  {
    SameTabsKeep(s, tabs);
  }

  function SendCatalog(s: Service, c: ClientId, catalog: seq<byte>, looked: set<u32>, find: Mover): (r: Service)
    requires ValidService(s)
    ensures ValidService(r) && Kept(s, r) && SameTabs(s.tabs, r.tabs)
  {
    hide ValidService, SendPending, ShellTab, PageTab;
    Queue(LookTabs(SendPending(s, 0, false, find).0, looked), c, WIRE_CATALOG, 0, catalog)
  }

  /** The ready clients, oldest first. */
  function ReadyClients(clients: map<ClientId, Client>, bound: ClientId): (ids: seq<ClientId>) {
    if bound == 0 then []
    else
      var c := bound - 1;
      ReadyClients(clients, c) + (if c in clients && clients[c].ready then [c] else [])
  }

  function QueueEach(s: Service, ids: seq<ClientId>, kind: u32, tab: u32, body: seq<byte>): (r: Service)
    requires ValidService(s) && !FrameKind(kind) && kind != WIRE_RELEASE
    ensures ValidService(r) && Kept(s, r) && SameTabs(s.tabs, r.tabs)
    decreases |ids|
  {
    hide ValidService, ShellTab, PageTab;
    if ids == [] then SameTabsSelf(s.tabs); s
    else QueueEach(Queue(s, ids[0], kind, tab, body), ids[1..], kind, tab, body)
  }

  /** A changed catalog goes to every ready client after the frames it describes. */
  function Publish(s: Service, changed: bool, catalog: seq<byte>, looked: set<u32>, find: Mover): (r: Service)
    requires ValidService(s)
    ensures ValidService(r) && Kept(s, r) && SameTabs(s.tabs, r.tabs)
    ensures changed ==> r.closed == 0 && r.fallback == 0
  {
    hide ValidService, SendPending, ShellTab, PageTab;
    var s1 := LookTabs(s, looked);
    if !changed then s1
    else
      var s2 := SendPending(s1, 0, false, find).0;
      var s3 := QueueEach(s2, ReadyClients(s2.clients, s2.nextClient), WIRE_CATALOG, 0, catalog);
      Announced(s3)
  }

  function Announced(s: Service): (r: Service)
    requires ValidService(s)
    ensures ValidService(r) && Kept(s, r) && r.tabs == s.tabs && r.clients == s.clients && r.closed == 0 && r.fallback == 0
  {
    hide TabOk, ClientOk, IdsOk, ClientsOk, TabsOk, ShellTab, PageTab;
    s.(closed := 0, fallback := 0)
  }

  // ---- Resumption after congestion ----

  /** The congested clients whose backlog has drained enough, oldest first. */
  function Drained(clients: map<ClientId, Client>, bound: ClientId): (ids: seq<ClientId>)
    ensures forall c | c in ids :: c in clients
  {
    if bound == 0 then []
    else
      var c := bound - 1;
      Drained(clients, c) +
      (if c in clients && clients[c].needsResync && |clients[c].output| < RESYNC_BACKLOG then [c] else [])
  }

  function Resumed(s: Service, ids: seq<ClientId>): (r: Service)
    requires ValidService(s)
    ensures ValidService(r) && Kept(s, r) && r.tabs == s.tabs && r.clients.Keys == s.clients.Keys
    decreases |ids|
  {
    hide ValidService, ShellTab, PageTab;
    if ids == [] then s
    else if ids[0] !in s.clients then Resumed(s, ids[1..])
    else
      GatedClient(s, ids[0]);
      Resumed(SetClient(s, ids[0], s.clients[ids[0]].(needsResync := false)), ids[1..])
  }

  /** No queued byte was discarded, so each of the client's tabs resumes from its queued baseline. */
  function ResumeTabs(s: Service, c: ClientId, i: nat, find: Mover): (r: Service)
    requires ValidService(s) && i <= |s.tabs|
    ensures ValidService(r) && Kept(s, r) && SameTabs(s.tabs, r.tabs) && r.clients.Keys == s.clients.Keys
    decreases |s.tabs| - i
  {
    hide ValidService, SendFrame, ShellTab, PageTab;
    SameTabsSelf(s.tabs);
    if i == |s.tabs| then s
    else if s.tabs[i].controller == Some(c) then ResumeTabs(SendFrame(s, i, false, find).0, c, i + 1, find)
    else ResumeTabs(s, c, i + 1, find)
  }

  function ResumeClients(s: Service, ids: seq<ClientId>, find: Mover): (r: Service)
    requires ValidService(s)
    ensures ValidService(r) && Kept(s, r) && SameTabs(s.tabs, r.tabs) && r.clients.Keys == s.clients.Keys
    decreases |ids|
  {
    hide ValidService, ShellTab, PageTab;
    if ids == [] then SameTabsSelf(s.tabs); s
    else ResumeClients(ResumeTabs(s, ids[0], 0, find), ids[1..], find)
  }

  function Resync(s: Service, find: Mover): (r: Service)
    requires ValidService(s)
    ensures ValidService(r) && Kept(s, r) && SameTabs(s.tabs, r.tabs) && r.clients.Keys == s.clients.Keys
  {
    hide ValidService, ShellTab, PageTab;
    var ids := Drained(s.clients, s.nextClient);
    ResumeClients(Resumed(s, ids), ids, find)
  }

  // ---- Flushing and the conversion it may complete ----

  /** The socket took the front of the queue. */
  function Flushed(s: Service, c: ClientId, moved: nat): (r: Service)
    requires ValidService(s) && c in s.clients && moved <= |s.clients[c].output|
    ensures ValidService(r) && Kept(s, r) && r.tabs == s.tabs && r.clients.Keys == s.clients.Keys
    ensures r.pendingReplace == s.pendingReplace && r.clients[c].log == s.clients[c].log
  {
    hide TabOk, IdsOk, TabsOk, FallbackOk, ReplacementsOk, EncodeAll, Quiet, Follows, ShellTab, PageTab;
    var client := s.clients[c];
    assert ClientOk(client);
    var next := client.(output := client.output[moved..], delivered := client.delivered + client.output[..moved]);
    assert next.delivered + next.output == client.delivered + client.output by {
      assert client.output == client.output[..moved] + client.output[moved..];
      assert next.delivered + next.output == client.delivered + (client.output[..moved] + client.output[moved..]);
    }
    assert ClientOk(next);
    LogKept(s, c);
    SetClientKeeps(s, c, next);
    SetClient(s, c, next)
  }

  lemma LogKept(s: Service, c: ClientId)
    requires ValidService(s) && c in s.clients
    ensures forall i | 0 <= i < |s.tabs| && s.tabs[i].controller == Some(c) && s.tabs[i].screen.rows != [] ::
      Follows(s.clients[c].log, s.tabs[i].id, s.tabs[i].screen, s.tabs[i].anchor)
  {
    hide ClientOk, Follows, Replicable;
    forall i | 0 <= i < |s.tabs| && s.tabs[i].controller == Some(c) && s.tabs[i].screen.rows != []
      ensures Follows(s.clients[c].log, s.tabs[i].id, s.tabs[i].screen, s.tabs[i].anchor)
    {
      assert TabOk(s.tabs[i], s.clients, s.clock);
    }
  }

  function Position(tabs: seq<Tab>, id: u32): (i: Option<nat>)
    ensures i.Some? ==> i.value < |tabs| && tabs[i.value].id == id
    ensures i.None? ==> !HasTab(tabs, id)
  {
    PositionFrom(tabs, id, 0)
  }

  function PositionFrom(tabs: seq<Tab>, id: u32, k: nat): (i: Option<nat>)
    requires k <= |tabs| && forall j | 0 <= j < k :: tabs[j].id != id
    ensures i.Some? ==> i.value < |tabs| && tabs[i.value].id == id
    ensures i.None? ==> !HasTab(tabs, id)
    decreases |tabs| - k
  {
    if k == |tabs| then None else if tabs[k].id == id then Some(k) else PositionFrom(tabs, id, k + 1)
  }

  /** A shell tab becomes a browser tab: its terminal, baseline and controller are gone. */
  function Converted(t: Tab, url: seq<byte>): (r: Tab) {
    Released(t).(terminal := None, printClient := None, pendingFrame := false, inputFrame := false, url := Some(url))
  }

  function Convert(s: Service, i: nat, url: seq<byte>): (r: Service)
    requires ValidService(s) && i < |s.tabs|
    ensures ValidService(r) && r.clients == s.clients && |r.tabs| == |s.tabs| && r.nextId == s.nextId
    ensures r.tabs[i].id == s.tabs[i].id && forall j | 0 <= j < |s.tabs| && j != i :: r.tabs[j] == s.tabs[j]
  {
    hide TabOk, ClientOk, ClientsOk;
    var tabs := s.tabs[i := Converted(s.tabs[i], url)];
    assert TabOk(tabs[i], s.clients, s.clock) by {
      ConvertedOk(s.tabs[i], url, s.clients, s.clock);
    }
    SameIds(s.tabs, tabs);
    s.(tabs := tabs)
  }

  lemma ConvertedOk(t: Tab, url: seq<byte>, clients: map<ClientId, Client>, clock: int)
    ensures TabOk(Converted(t, url), clients, clock)
  {
    hide Follows, Replicable;
  }

  lemma SameIds(a: seq<Tab>, b: seq<Tab>)
    requires |a| == |b| && forall i | 0 <= i < |a| :: a[i].id == b[i].id
    ensures forall id :: HasTab(a, id) ==> HasTab(b, id)
  {
    forall id | HasTab(a, id)
      ensures HasTab(b, id)
    {
      var i :| 0 <= i < |a| && a[i].id == id;
      assert b[i].id == id;
    }
  }

  function ForgetReplacement(s: Service, c: ClientId): (r: Service)
    requires ValidService(s)
    ensures ValidService(r) && Kept(s, r) && r.tabs == s.tabs && r.clients == s.clients
  {
    hide TabOk, ClientOk, IdsOk, ClientsOk, TabsOk, ShellTab, PageTab;
    s.(pendingReplace := s.pendingReplace - {c})
  }

  /** Only the converted tab changes its kind. */
  lemma ConvertKeeps(s: Service, i: nat, url: seq<byte>)
    requires ValidService(s) && i < |s.tabs|
    ensures var r := Convert(s, i, url);
      forall id: u32 ::
        && (ShellTab(r.tabs, id) ==> ShellTab(s.tabs, id))
        && (PageTab(r.tabs, id) ==> PageTab(s.tabs, id) || (id == s.tabs[i].id && ShellTab(s.tabs, id)))
  {
    hide ValidService;
    var r := Convert(s, i, url);
    forall id: u32
      ensures ShellTab(r.tabs, id) ==> ShellTab(s.tabs, id)
      ensures PageTab(r.tabs, id) ==> PageTab(s.tabs, id) || (id == s.tabs[i].id && ShellTab(s.tabs, id))
    {
      assert s.tabs[i].terminal.Some? || s.tabs[i].terminal.None?;
    }
  }

  lemma PromiseQueued(s: Service, c: ClientId)
    requires ValidService(s) && c in s.pendingReplace
    ensures c in s.clients && Packet(WIRE_COMMAND_DONE, s.pendingReplace[c].0, []) in s.clients[c].log
  {
    hide TabOk, ClientOk, HasTab;
  }

  /** Ownership changes only after the complete acknowledgement has left the queue. */
  function FinishReplacement(s: Service, c: ClientId): (r: Service)
    requires ValidService(s)
    ensures ValidService(r) && r.clients == s.clients && |r.tabs| == |s.tabs| && KeptBy(s, r, c)
    ensures c !in s.clients ==> r == s
  {
    hide ValidService, HasTab, Converted, ShellTab, PageTab;
    if c !in s.clients || s.clients[c].output != [] || c !in s.pendingReplace then s
    else
      var (id, url) := s.pendingReplace[c];
      var s1 := ForgetReplacement(s, c);
      var i := Position(s.tabs, id);
      PromiseQueued(s, c);
      if i.None? then s1
      else
        ConvertKeeps(s1, i.value, url);
        Convert(s1, i.value, url)
  }

  /** One write attempt on a client's socket, and what its completion releases. */
  function ClientFlush(s: Service, c: ClientId, moved: nat, failed: bool): (r: Service)
    requires ValidService(s)
    ensures ValidService(r) && |r.tabs| == |s.tabs| && KeptBy(s, r, c)
  {
    hide ValidService, FinishReplacement, Flushed, DropClient, ShellTab, PageTab;
    FinishReplacement(Wrote(s, c, moved, failed), c)
  }

  function Wrote(s: Service, c: ClientId, moved: nat, failed: bool): (r: Service)
    requires ValidService(s)
    ensures ValidService(r) && Kept(s, r) && SameTabs(s.tabs, r.tabs)
  {
    hide ValidService, ShellTab, PageTab;
    SameTabsSelf(s.tabs);
    if c !in s.clients then s
    else
      var s1 := Flushed(s, c, Min(moved, |s.clients[c].output|));
      if failed then DropClient(s1, c) else s1
  }
}
