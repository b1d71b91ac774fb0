/** What one client message does. Bodies that do not parse, and messages from unready clients, change nothing. */
module Messages {
  import opened Bytes
  import opened Engines
  import opened Framing
  import opened Deltas
  import opened Viewports
  import opened Frames
  import opened Replicas
  import opened Paging
  import opened Tabs
  import opened Services
  import opened Steps
  import Transfers

  const WIRE_HELLO: u32 := 1
  const WIRE_NEW: u32 := 2
  const WIRE_INPUT: u32 := 3
  const WIRE_FOCUS: u32 := 4
  const WIRE_CLOSE: u32 := 5
  const WIRE_SCROLL: u32 := 6
  const WIRE_STOP: u32 := 13
  const WIRE_BROWSER: u32 := 17
  const WIRE_BROWSER_NAVIGATE: u32 := 18
  const WIRE_ATTACH: u32 := 19
  const WIRE_CREATED: u32 := 20
  const WIRE_FOCUS_STATE: u32 := 21
  const WIRE_CONTROL: u32 := 22
  const WIRE_RESIZE: u32 := 23
  const WIRE_BROWSER_REPLACE: u32 := 24
  const WIRE_HANDIN: u32 := 26
  const WIRE_HANDOFF: u32 := 27
  const WIRE_CAPABILITIES: u32 := 28
  const WIRE_SERVICE_INFO: u32 := 30
  const WIRE_SELECT_ALL: u32 := 31
  const FEATURE_SELECT_ALL: u32 := 4
  const URL_LIMIT: nat := 65536
  const INPUT_LIMIT: nat := 65536

  // ---- Bodies ----

  function Integer(body: seq<byte>): (v: Option<u32>) {
    if |body| == 4 then Some(GetU32(body)) else None
  }

  function Pair(body: seq<byte>): (v: Option<(u32, u32)>) {
    if |body| == 8 then Some((WordAt(body, 0), WordAt(body, 4))) else None
  }

  function WholeString(body: seq<byte>): (s: Option<seq<byte>>) {
    if |body| >= 4 && |body| == 4 + WordAt(body, 0) then Some(UpToNul(body[4..])) else None
  }

  function Url(body: seq<byte>): (u: Option<seq<byte>>) {
    var s := WholeString(body);
    if s.Some? && s.value != [] && |s.value| <= URL_LIMIT then s else None
  }

  // ---- What the environment decides ----

  /** A decoded launch request: whether it asks for nothing special, and the shell it would start, if any. */
  datatype Launch = BadLaunch | Launch(plain: bool, printing: bool, shell: Option<Engine>)

  datatype Env = Env(
    now: int, find: Mover, engine: Engine, notices: seq<Notice>, launch: Launch,
    catalog: seq<byte>, changed: bool, looked: set<u32>, moved: nat, failed: bool,
    text: seq<byte>, message: seq<byte>, focusMode: bool, shell: Option<u32>, granted: bool)

  // ---- Small changes to the service and its clients ----

  function Stopped(s: Service): (r: Service)
    requires ValidService(s)
    ensures ValidService(r) && Kept(s, r) && r.tabs == s.tabs
  {
    hide IdsOk, ClientsOk, TabsOk, ShellTab, PageTab;
    s.(running := false)
  }

  function NoRestore(s: Service): (r: Service)
    requires ValidService(s)
    ensures ValidService(r) && Kept(s, r) && r.tabs == s.tabs && r.clients == s.clients && r.nextId == s.nextId
  {
    hide IdsOk, ClientsOk, TabsOk, ShellTab, PageTab;
    s.(restoredLaunch := false)
  }

  /** Flags and the selection of a client, never its history. */
  function Adjusted(s: Service, c: ClientId, ready: bool, features: u32, selection: Option<Selection>): (r: Service)
    requires ValidService(s) && c in s.clients && ValidSelection(selection)
    ensures ValidService(r) && Kept(s, r) && r.tabs == s.tabs && r.clients.Keys == s.clients.Keys && r.nextId == s.nextId
  {
    hide IdsOk, TabsOk, TabOk, ReplacementsOk, FallbackOk, Quiet, Follows, EncodeAll, ShellTab, PageTab;
    var client := s.clients[c];
    assert ClientOk(client);
    var next := client.(ready := ready, features := features, selection := selection);
    assert ClientOk(next);
    LogKept(s, c);
    SetClientKeeps(s, c, next);
    SetClient(s, c, next)
  }

  function Ready(s: Service, c: ClientId): (r: Service)
    requires ValidService(s) && c in s.clients
    ensures ValidService(r) && Kept(s, r) && r.tabs == s.tabs && r.clients.Keys == s.clients.Keys && r.nextId == s.nextId
  {
    ClientSelection(s, c);
    hide ValidService, ShellTab, PageTab;
    Adjusted(s, c, true, s.clients[c].features, s.clients[c].selection)
  }

  lemma ClientSelection(s: Service, c: ClientId)
    requires ValidService(s) && c in s.clients
    ensures ValidSelection(s.clients[c].selection)
  {
    hide TabOk, Quiet, EncodeAll;
    assert ClientOk(s.clients[c]);
  }

  // ---- New tabs ----

  function FreshTab(id: u32, terminal: Option<Terminal>, url: Option<seq<byte>>): (t: Tab) {
    Tab(id, terminal, url, None, None, NO_SCREEN, false, false, false, 0, 0)
  }

  /** A new shell tab, perhaps already controlled by a client that has been queued so many packets. */
  function FreshShell(id: u32, e: Engine, controller: Option<ClientId>, printer: Option<ClientId>, queued: nat): (t: Tab) {
    FreshTab(id, Some(Terminal(e, true)), None).(controller := controller, printClient := printer, since := queued, anchor := queued)
  }

  predicate Importable(e: Engine, clock: int) {
    ValidEngine(e) && WireSized(e) && e.gate.now <= clock
  }

  /** A new tab goes last, under the next unused ID. */
  function PushTab(s: Service, t: Tab): (r: Service)
    requires ValidService(s) && t.id == s.nextId && s.nextId < 0xffff_ffff && TabOk(t, s.clients, s.clock)
    ensures ValidService(r) && Kept(s, r) && r.tabs == s.tabs + [t] && r.nextId == s.nextId + 1 && r.clients == s.clients
  {
    hide TabOk, ClientOk, ClientsOk, HasTab;
    PushedTabs(s, t);
    s.(tabs := s.tabs + [t], nextId := s.nextId + 1)
  }

  lemma PushedTabs(s: Service, t: Tab)
    ensures forall id :: HasTab(s.tabs, id) ==> HasTab(s.tabs + [t], id)
  {
    forall id | HasTab(s.tabs, id)
      ensures HasTab(s.tabs + [t], id)
    {
      var i :| 0 <= i < |s.tabs| && s.tabs[i].id == id;
      assert (s.tabs + [t])[i].id == id;
    }
  }

  /** An ID taken for a tab that could not be started is not used again. */
  function SkipId(s: Service): (r: Service)
    requires ValidService(s) && s.nextId < 0xffff_ffff
    ensures ValidService(r) && Kept(s, r) && r.tabs == s.tabs && r.clients == s.clients && r.nextId == s.nextId + 1
  {
    hide ClientsOk, TabsOk, ShellTab, PageTab;
    s.(nextId := s.nextId + 1)
  }

  lemma ShellOk(id: u32, e: Engine, controller: Option<ClientId>, printer: Option<ClientId>, queued: nat, clients: map<ClientId, Client>, clock: int)
    requires Importable(e, clock)
    requires controller.Some? ==> controller.value in clients && queued <= |clients[controller.value].log|
    requires printer.Some? ==> printer.value in clients
    ensures TabOk(FreshShell(id, e, controller, printer, queued), clients, clock)
  {
    hide ValidEngine, Follows;
  }

  lemma BrowserOk(id: u32, url: seq<byte>, clients: map<ClientId, Client>, clock: int)
    ensures TabOk(FreshTab(id, None, Some(url)), clients, clock)
  {
    hide Replicable, Follows;
  }

  // ---- Messages that need no tab ----

  /** The features of a request that the service honours. */
  function Wanted(features: u32): (wanted: u32)
    ensures Has(wanted, FEATURE_COPY_ROWS) <==> Has(features, FEATURE_COPY_ROWS)
    ensures Has(wanted, FEATURE_ROW_SPAN) <==> Has(features, FEATURE_ROW_SPAN)
    ensures wanted <= FEATURE_COPY_ROWS + FEATURE_ROW_SPAN
  {
    (if Has(features, FEATURE_COPY_ROWS) then FEATURE_COPY_ROWS else 0) + (if Has(features, FEATURE_ROW_SPAN) then FEATURE_ROW_SPAN else 0)
  }

  function Capabilities(s: Service, c: ClientId, p: Packet): (r: Service)
    requires ValidService(s) && c in s.clients
    ensures ValidService(r) && Kept(s, r)
  {
    ClientSelection(s, c);
    hide Has, Wanted, Integer, Tabs.Queue, Adjusted, PutU32, ValidService, ShellTab, PageTab;
    var features := Integer(p.body);
    if s.clients[c].ready || p.tab != 0 || features.None? then s
    else
      var s1 := Adjusted(s, c, false, Wanted(features.value), s.clients[c].selection);
      Queue(s1, c, WIRE_CAPABILITIES, 0, PutU32(FEATURE_COPY_ROWS + FEATURE_SELECT_ALL + FEATURE_ROW_SPAN))
  }

  function NoTabs(s: Service): (r: Service)
    requires ValidService(s) && s.pendingReplace == map[] && s.tabs != []
    ensures ValidService(r) && Kept(s, r) && r.tabs == [] && r.clients == s.clients
  {
    hide TabOk, ClientOk, ClientsOk;
    s.(tabs := [], closed := s.tabs[|s.tabs| - 1].id, fallback := 0)
  }

  function Listening(s: Service, on: bool): (r: Service)
    requires ValidService(s)
    ensures ValidService(r) && Kept(s, r) && r.tabs == s.tabs && r.clients == s.clients && r.nextId == s.nextId
  {
    hide IdsOk, ClientsOk, TabsOk, ShellTab, PageTab;
    s.(handin := on)
  }

  /** A transfer starts only while no conversion is promised; success of a send empties this service. */
  function HandoffCommand(s: Service, c: ClientId, kind: u32, body: seq<byte>, env: Env): (r: Service)
    requires ValidService(s)
    ensures ValidService(r) && Kept(s, r)
  {
    hide ValidService, ShellTab, PageTab;
    var allowed := WholeString(body).Some? && s.pendingReplace == map[] && env.granted;
    if kind == WIRE_HANDIN && allowed && !s.handin then
      Queue(Listening(s, true), c, WIRE_COMMAND_DONE, 0, PutU32(0))
    else if kind == WIRE_HANDOFF && allowed && 1 <= |s.tabs| <= Transfers.HANDOFF_MAX_TABS then
      Queue(NoTabs(s), c, WIRE_COMMAND_DONE, 0, PutU32(0))
    else Queue(s, c, WIRE_ERROR, 0, env.message)
  }

  /** Promise to turn the caller's shell into a browser tab once the acknowledgement is out. */
  function BrowserReplace(s: Service, c: ClientId, body: seq<byte>, env: Env): (r: Service)
    requires ValidService(s) && c in s.clients
    ensures ValidService(r) && KeptBy(s, r, c)
  {
    hide ValidService, Acknowledged, Promise, ClientFlush, Tabs.Queue, Url, Position, ShellTab, PageTab;
    var i := if env.shell.None? then None else Position(s.tabs, env.shell.value);
    if i.None? || s.tabs[i.value].terminal.None? then Queue(s, c, WIRE_ERROR, 0, env.message)
    else
      var url := Url(body);
      if url.None? then Queue(s, c, WIRE_ERROR, 0, env.message)
      else if c in s.pendingReplace then s
      else ClientFlush(Promise(s, c, i.value, url.value), c, env.moved, env.failed)
  }

  /** The promise and its acknowledgement; a client that cannot take the acknowledgement is dropped. */
  function Promise(s: Service, c: ClientId, i: nat, url: seq<byte>): (r: Service)
    requires ValidService(s) && c in s.clients && i < |s.tabs|
    ensures ValidService(r) && Kept(s, r) && SameTabs(s.tabs, r.tabs)
  {
    hide ValidService, ShellTab, PageTab;
    var id := s.tabs[i].id;
    var s1 := Queue(s, c, WIRE_COMMAND_DONE, id, []);
    if c !in s1.clients then s1
    else
      PromiseKeeps(s1, c, i, url);
      s1.(pendingReplace := s1.pendingReplace[c := (id, url)])
  }

  lemma PromiseKeeps(s: Service, c: ClientId, i: nat, url: seq<byte>)
    requires ValidService(s) && c in s.clients && i < |s.tabs|
    requires Packet(WIRE_COMMAND_DONE, s.tabs[i].id, []) in s.clients[c].log
    ensures ValidService(s.(pendingReplace := s.pendingReplace[c := (s.tabs[i].id, url)]))
  {
    hide TabOk, ClientOk, IdsOk;
    assert HasTab(s.tabs, s.tabs[i].id);
  }

  function Attach(s: Service, c: ClientId, env: Env): (r: Service)
    requires ValidService(s) && c in s.clients
    ensures ValidService(r) && Kept(s, r)
  {
    hide ValidService, ShellTab, PageTab;
    SendCatalog(Ready(NoRestore(s), c), c, env.catalog, env.looked, env.find)
  }

  function Browser(s: Service, c: ClientId, p: Packet, env: Env): (r: Service)
    requires ValidService(s) && c in s.clients
    ensures ValidService(r) && Kept(s, r)
  {
    hide ValidService, Publish, NewPage, ShellTab, PageTab;
    var url := Url(p.body);
    if url.None? then s
    else if p.kind == WIRE_BROWSER then
      if s.nextId == 0xffff_ffff then Stopped(s)
      else NewPage(s, c, url.value, env)
    else
      var i := Position(s.tabs, p.tab);
      if i.None? then Publish(s, env.changed, env.catalog, env.looked, env.find)
      else if !s.clients[c].ready || s.tabs[i.value].url.None? then s
      else Publish(Navigated(s, i.value, url.value), env.changed, env.catalog, env.looked, env.find)
  }

  function NewPage(s: Service, c: ClientId, url: seq<byte>, env: Env): (r: Service)
    requires ValidService(s) && c in s.clients && s.nextId < 0xffff_ffff
    ensures ValidService(r) && Kept(s, r)
  {
    hide ValidService, AddPage, Ready, Created, ShellTab, PageTab;
    Created(Ready(AddPage(s, url), c), c, s.nextId, env)
  }

  function AddPage(s: Service, url: seq<byte>): (r: Service)
    requires ValidService(s) && s.nextId < 0xffff_ffff
    ensures ValidService(r) && Kept(s, r) && r.clients == s.clients
  {
    NewPageOk(s, url);
    hide ValidService, TabOk, PushTab, NoRestore, FreshTab, ShellTab, PageTab;
    PushTab(NoRestore(s), FreshTab(s.nextId, None, Some(url)))
  }

  /** The client is told its tab, and everyone the catalog that has it. */
  function Created(s: Service, c: ClientId, id: u32, env: Env): (r: Service)
    requires ValidService(s)
    ensures ValidService(r) && Kept(s, r) && SameTabs(s.tabs, r.tabs)
  {
    hide ValidService, Publish, Tabs.Queue, ShellTab, PageTab;
    Publish(Queue(s, c, WIRE_CREATED, id, []), env.changed, env.catalog, env.looked, env.find)
  }

  lemma NewPageOk(s: Service, url: seq<byte>)
    requires ValidService(s)
    ensures NoRestore(s).clock == s.clock
    ensures var t := FreshTab(s.nextId, None, Some(url)); t.id == s.nextId && TabOk(t, s.clients, s.clock)
  {
    hide ValidService, Replicable, Follows;
  }

  function Navigated(s: Service, i: nat, url: seq<byte>): (r: Service)
    requires ValidService(s) && i < |s.tabs| && s.tabs[i].url.Some?
    ensures ValidService(r) && Kept(s, r) && SameTabs(s.tabs, r.tabs)
  {
    hide IdsOk, ReplacementsOk, FallbackOk, ClientsOk, Replicable, Follows, ShellTab, PageTab;
    assert TabOk(s.tabs[i], s.clients, s.clock);
    SetTabKeeps(s, i, s.tabs[i].(url := Some(url)));
    SetTab(s, i, s.tabs[i].(url := Some(url)))
  }

  /** A first window may adopt the restored workspace; otherwise it gets a shell of its own. */
  function Hello(s: Service, c: ClientId, p: Packet, env: Env): (r: Service)
    requires ValidService(s) && c in s.clients
    ensures ValidService(r) && Kept(s, r)
  {
    hide ValidService, Adopt, Start, ShellTab, PageTab;
    if env.launch.BadLaunch? then DropClient(s, c)
    else
      var s0 := Ready(s, c);
      if s.restoredLaunch && s.tabs != [] && p.kind == WIRE_HELLO && env.launch.plain then Adopt(s0, c, env)
      else if s.nextId == 0xffff_ffff then Stopped(s0)
      else if env.launch.shell.None? || !Importable(env.launch.shell.value, s0.clock) then
        (if env.failed then DropClient(SkipId(s0), c) else Stopped(SkipId(s0)))
      else Start(s0, c, env.launch.shell.value, env)
  }

  /** The window takes the first restored tab, and is told of all of them. */
  function Adopt(s: Service, c: ClientId, env: Env): (r: Service)
    requires ValidService(s) && c in s.clients && s.tabs != []
    ensures ValidService(r) && Kept(s, r)
  {
    hide ValidService, TabOk, Created, Shown, SendCatalog, ShellTab, PageTab;
    var s1 := if s.tabs[0].terminal.Some? then TakeControl(s, 0, c) else (SameTabsSelf(s.tabs); s);
    var s2 := Created(NoRestore(s1), c, s1.tabs[0].id, env);
    var s3 := SendCatalog(s2, c, env.catalog, env.looked, env.find);
    Shown(s3, 0, env.find)
  }

  /**
   The first frame for a window that has been told of its tab. From here on its page exists, which the tab's
   history records.
   */
  function Shown(s: Service, i: nat, find: Mover): (r: Service)
    requires ValidService(s) && i < |s.tabs|
    ensures ValidService(r) && Kept(s, r) && SameTabs(s.tabs, r.tabs)
  {
    hide ValidService, SendFrame, TabOk, ShellTab, PageTab;
    TakenOk(s, i, 0);
    var r, t := SendFrame(s, i, true, find).0, s.tabs[i];
    if t.terminal.None? || t.controller.None? || !s.clients[t.controller.value].ready then r
    else
      var since := |s.clients[t.controller.value].log|;
      WholeAnchors(s, i, find);
      SinceOk(r, i, since);
      SetTabKeeps(r, i, r.tabs[i].(since := since));
      SetTab(r, i, r.tabs[i].(since := since))
  }

  /** Every catalog the window has been sent, and with it every page it may have, precedes its first frame. */
  lemma ShownKnows(s: Service, i: nat, find: Mover)
    requires ValidService(s) && i < |s.tabs| && s.tabs[i].terminal.Some? && s.tabs[i].controller.Some?
    requires s.tabs[i].controller.value in s.clients && s.clients[s.tabs[i].controller.value].ready
    ensures var r, c := Shown(s, i, find), s.tabs[i].controller.value;
      && |r.tabs| == |s.tabs| && r.tabs[i].controller == Some(c) && c in r.clients
      && r.tabs[i].since == |s.clients[c].log|
      && forall j: nat | Birth(r.clients[c].log, j) :: j <= r.tabs[i].since
  {
    hide ValidService, SendFrame, TabOk, Kept, Birth;
    WholeAnchors(s, i, find);
  }

  lemma SinceOk(s: Service, i: nat, since: nat)
    requires ValidService(s) && i < |s.tabs|
    requires s.tabs[i].controller.Some? ==> s.tabs[i].controller.value in s.clients && since <= |s.clients[s.tabs[i].controller.value].log|
    requires s.tabs[i].screen.rows != [] ==> since <= s.tabs[i].anchor
    ensures TabOk(s.tabs[i].(since := since), s.clients, s.clock)
  {
    hide ClientOk, Follows, Replicable;
    assert TabOk(s.tabs[i], s.clients, s.clock);
  }

  function Start(s: Service, c: ClientId, shell: Engine, env: Env): (r: Service)
    requires ValidService(s) && c in s.clients && s.nextId < 0xffff_ffff && Importable(shell, s.clock)
    ensures ValidService(r) && Kept(s, r)
  {
    hide ValidService, TabOk, Importable, Created, Shown, ShellTab, PageTab;
    var s1 := NewShell(s, c, shell, env.launch.Launch? && env.launch.printing);
    var s2 := Created(NoRestore(s1), c, s.nextId, env);
    Shown(s2, |s.tabs|, env.find)
  }

  function NewShell(s: Service, c: ClientId, e: Engine, printing: bool): (r: Service)
    requires ValidService(s) && c in s.clients && s.nextId < 0xffff_ffff && Importable(e, s.clock)
    ensures ValidService(r) && Kept(s, r) && |r.tabs| == |s.tabs| + 1 && r.clients == s.clients
  {
    hide ValidService, TabOk, Importable, ShellTab, PageTab;
    var printer := if printing then Some(c) else None;
    ShellOk(s.nextId, e, Some(c), printer, |s.clients[c].log|, s.clients, s.clock);
    PushTab(s, FreshShell(s.nextId, e, Some(c), printer, |s.clients[c].log|))
  }

  // ---- Messages for one shell tab ----

  function SelectAll(s: Service, c: ClientId, i: nat, p: Packet, env: Env): (r: Service)
    requires ValidService(s) && c in s.clients && i < |s.tabs|
    ensures ValidService(r) && Kept(s, r)
  {
    ClientSelection(s, c);
    hide ValidService, Pair, Adjusted, Tabs.Queue, PutU32, ShellTab, PageTab;
    var words := Pair(p.body);
    if words.None? then s
    else
      var (generation, operation) := words.value;
      var (selection, page) := Request(s.clients[c].selection, p.tab, generation, operation, env.text);
      var s1 := Adjusted(s, c, s.clients[c].ready, s.clients[c].features, selection);
      if page.None? then s1
      else Queue(s1, c, WIRE_SELECT_ALL, p.tab,
                 PutU32(generation) + PutU32(if page.value.done then 1 else 0) + page.value.bytes)
  }

  function SetPrinter(s: Service, i: nat, c: ClientId): (r: Service)
    requires ValidService(s) && i < |s.tabs| && c in s.clients
    ensures ValidService(r) && Kept(s, r) && SameTabs(s.tabs, r.tabs) && r.clients == s.clients
  {
    hide IdsOk, ReplacementsOk, FallbackOk, ClientsOk, Replicable, Follows, ShellTab, PageTab;
    assert TabOk(s.tabs[i], s.clients, s.clock);
    SetTabKeeps(s, i, s.tabs[i].(printClient := Some(c)));
    SetTab(s, i, s.tabs[i].(printClient := Some(c)))
  }

  /** Input, printing and replies: the engine moves on and its notices are queued. */
  function Effects(s: Service, i: nat, env: Env): (r: Service)
    requires ValidService(s) && i < |s.tabs| && s.tabs[i].terminal.Some?
    ensures ValidService(r) && Kept(s, r) && SameTabs(s.tabs, r.tabs)
  {
    hide ValidService, ChangeEngine, ShellTab, PageTab;
    var s1 := ChangeEngine(s, i, env.engine);
    Notify(s1, s1.tabs[i].id, Addressed(s1.tabs[i], env.notices))
  }

  function Control(s: Service, c: ClientId, i: nat, p: Packet, env: Env): (r: Service)
    requires ValidService(s) && c in s.clients && i < |s.tabs| && s.tabs[i].terminal.Some?
    ensures ValidService(r) && Kept(s, r)
  {
    hide ValidService, TakePrinter, Effects, Stopped, Integer, ShellTab, PageTab;
    var direction := Integer(p.body);
    if direction.None? || direction.value > 2 then s
    else
      var s1 := TakePrinter(s, i, c);
      if direction.value == 2 then (if env.failed then Stopped(s1) else s1) else Effects(s1, i, env)
  }

  function TakePrinter(s: Service, i: nat, c: ClientId): (r: Service)
    requires ValidService(s) && i < |s.tabs| && c in s.clients
    ensures ValidService(r) && Kept(s, r) && SameTabs(s.tabs, r.tabs)
  {
    hide ValidService, TakeControl, SetPrinter, ShellTab, PageTab;
    SetPrinter(TakeControl(s, i, c), i, c)
  }

  function FocusState(s: Service, c: ClientId, i: nat, p: Packet, env: Env): (r: Service)
    requires ValidService(s) && c in s.clients && i < |s.tabs| && s.tabs[i].terminal.Some?
    ensures ValidService(r) && Kept(s, r)
  {
    hide ValidService, ShellTab, PageTab;
    var direction := Integer(p.body);
    if s.tabs[i].controller == Some(c) && env.focusMode && direction.Some? && direction.value <= 1 then Effects(s, i, env)
    else s
  }

  /** A claim or a resize asks for a full frame at the new size. */
  function FocusOrResize(s: Service, c: ClientId, i: nat, p: Packet, env: Env): (r: Service)
    requires ValidService(s) && c in s.clients && i < |s.tabs| && s.tabs[i].terminal.Some?
    ensures ValidService(r) && Kept(s, r)
  {
    hide ValidService, TakeControl, ShellTab, PageTab;
    var size := Pair(p.body);
    var claim := s.tabs[i].controller != Some(c);
    if p.kind == WIRE_RESIZE && claim then s
    else if size.None? || !(0 < size.value.0 <= MAX_COLUMNS && 0 < size.value.1 <= MAX_ROWS) then s
    else Sized(TakeControl(s, i, c), i, size.value.0, size.value.1, claim, env)
  }

  function Sized(s: Service, i: nat, columns: nat, rows: nat, claim: bool, env: Env): (r: Service)
    requires ValidService(s) && i < |s.tabs| && s.tabs[i].terminal.Some?
    ensures ValidService(r) && Kept(s, r)
  {
    hide ValidService, SendFrame, Resize, ShellTab, PageTab;
    var e := s.tabs[i].terminal.value.engine;
    if e.columns == columns && |e.rows| == rows then (if claim then SendFrame(s, i, true, env.find).0 else s)
    else
      var resized := Resize(s, i, columns, rows, env);
      if env.failed then Stopped(resized) else SendFrame(resized, i, true, env.find).0
  }

  function Resize(s: Service, i: nat, columns: nat, rows: nat, env: Env): (r: Service)
    requires ValidService(s) && i < |s.tabs| && s.tabs[i].terminal.Some?
    ensures ValidService(r) && Kept(s, r) && SameTabs(s.tabs, r.tabs)
  {
    hide ValidService, ChangeEngine, ShellTab, PageTab;
    SameTabsSelf(s.tabs);
    if env.engine.columns == columns && |env.engine.rows| == rows then ChangeEngine(s, i, env.engine) else s
  }

  function Input(s: Service, c: ClientId, i: nat, p: Packet, env: Env): (r: Service)
    requires ValidService(s) && c in s.clients && i < |s.tabs| && s.tabs[i].terminal.Some?
    ensures ValidService(r) && Kept(s, r)
  {
    hide ValidService, TakeControl, Typed, ShellTab, PageTab;
    if |p.body| > INPUT_LIMIT then s else Typed(TakeControl(s, i, c), i, env)
  }

  function Typed(s: Service, i: nat, env: Env): (r: Service)
    requires ValidService(s) && i < |s.tabs| && s.tabs[i].terminal.Some?
    ensures ValidService(r) && Kept(s, r)
  {
    hide ValidService, SendFrame, Effects, ShellTab, PageTab;
    SendFrame(Effects(s, i, env), i, false, env.find).0
  }

  function SetReply(s: Service, i: nat): (r: Service)
    requires ValidService(s) && i < |s.tabs|
    ensures ValidService(r) && Kept(s, r) && SameTabs(s.tabs, r.tabs)
  {
    hide IdsOk, ReplacementsOk, FallbackOk, ClientsOk, Replicable, Follows, ShellTab, PageTab;
    assert TabOk(s.tabs[i], s.clients, s.clock);
    SetTabKeeps(s, i, s.tabs[i].(frameReply := true));
    SetTab(s, i, s.tabs[i].(frameReply := true))
  }

  function Scroll(s: Service, c: ClientId, i: nat, p: Packet, env: Env): (r: Service)
    requires ValidService(s) && c in s.clients && i < |s.tabs| && s.tabs[i].terminal.Some?
    ensures ValidService(r) && Kept(s, r)
  {
    hide ValidService, TakeControl, Scrolled, ShellTab, PageTab;
    var words := Pair(p.body);
    if words.None? || words.value.0 > 1 then s else Scrolled(TakeControl(s, i, c), i, env)
  }

  function Scrolled(s: Service, i: nat, env: Env): (r: Service)
    requires ValidService(s) && i < |s.tabs| && s.tabs[i].terminal.Some?
    ensures ValidService(r) && Kept(s, r)
  {
    hide ValidService, SendFrame, ChangeEngine, SetReply, ShellTab, PageTab;
    SendFrame(SetReply(ChangeEngine(s, i, env.engine), i), i, false, env.find).0
  }

  function TabMessage(s: Service, c: ClientId, i: nat, p: Packet, env: Env): (r: Service)
    requires ValidService(s) && c in s.clients && i < |s.tabs|
    ensures ValidService(r) && Kept(s, r)
  {
    TabKind(s, i);
    hide ValidService, ShellTab, PageTab;
    if s.tabs[i].url.Some? then (if p.kind == WIRE_CLOSE then Close(s, i) else s)
    else if p.kind == WIRE_SELECT_ALL then SelectAll(s, c, i, p, env)
    else if p.kind == WIRE_CONTROL then Control(s, c, i, p, env)
    else if p.kind == WIRE_FOCUS_STATE then FocusState(s, c, i, p, env)
    else if p.kind == WIRE_FOCUS || p.kind == WIRE_RESIZE then FocusOrResize(s, c, i, p, env)
    else if p.kind == WIRE_INPUT then Input(s, c, i, p, env)
    else if p.kind == WIRE_RELEASE then (if s.tabs[i].controller == Some(c) then Release(s, i) else s)
    else if p.kind == WIRE_CLOSE then Close(s, i)
    else if p.kind == WIRE_SCROLL then Scroll(s, c, i, p, env)
    else s
  }

  lemma TabKind(s: Service, i: nat)
    requires ValidService(s) && i < |s.tabs|
    ensures s.tabs[i].url.Some? <==> s.tabs[i].terminal.None?
  {
    hide ClientOk, Follows, Replicable;
    assert TabOk(s.tabs[i], s.clients, s.clock);
  }

  /** The dispatch of one decoded packet from a connected client. */
  function Message(s: Service, c: ClientId, p: Packet, env: Env): (r: Service)
    requires ValidService(s)
    ensures ValidService(r) && KeptBy(s, r, c)
    ensures p.kind != WIRE_BROWSER_REPLACE ==> Kept(s, r)
  {
    hide ValidService, Capabilities, HandoffCommand, BrowserReplace, Attach, Browser, Hello, TabMessage, Tabs.Queue, Acknowledged, ShellTab, PageTab;
    if c !in s.clients then s
    else if p.kind == WIRE_SERVICE_INFO then Queue(s, c, WIRE_SERVICE_INFO, 0, env.message)
    else if p.kind == WIRE_CAPABILITIES then Capabilities(s, c, p)
    else if p.kind == WIRE_STOP then Stopped(s)
    else if p.kind == WIRE_HANDIN || p.kind == WIRE_HANDOFF then HandoffCommand(s, c, p.kind, p.body, env)
    else if p.kind == WIRE_BROWSER_REPLACE then BrowserReplace(s, c, p.body, env)
    else if p.kind == WIRE_ATTACH then Attach(s, c, env)
    else if p.kind == WIRE_BROWSER || p.kind == WIRE_BROWSER_NAVIGATE then Browser(s, c, p, env)
    else if p.kind == WIRE_HELLO || p.kind == WIRE_NEW then Hello(s, c, p, env)
    else
      var i := Position(s.tabs, p.tab);
      if i.None? || !s.clients[c].ready then s else TabMessage(s, c, i.value, p, env)
  }
}
