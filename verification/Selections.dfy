/**
 Select-all over one connection: each tab's view asks for a snapshot of its tab's whole text and collects it
 page by page, while views start, clear and restart, other tabs share the connection's one snapshot, and
 messages are in flight both ways. `serial` counts a view's selections without wrapping; the wire carries it
 modulo 2^32.
 */
module Selections {
  import opened Bytes
  import opened Paging

  const WRAP: nat := 0x1_0000_0000

  function Generation(serial: nat): (g: u32) {
    serial % WRAP
  }

  lemma GenerationInjective(a: nat, b: nat)
    requires Generation(a) == Generation(b) && a <= b < a + WRAP
    ensures a == b
  {
  }

  // ---- One view ----

  datatype View = View(serial: nat, text: Option<seq<byte>>, pending: bool, nexts: nat)

  datatype Ask = Ask(tab: u32, serial: nat, operation: u32)

  datatype Answer = Answer(tab: u32, serial: nat, page: Page)

  const NEW_VIEW: View := View(0, None, false, 0)

  function Cleared(v: View): (r: View) {
    View(v.serial + 1, None, false, 0)
  }

  /** A page counts only for the pending selection of its generation. */
  function Wanted(v: View, page: Page): bool {
    v.pending && page.generation == Generation(v.serial)
  }

  function Collected(v: View, page: Page): (r: View)
    requires Wanted(v, page) && v.text.Some?
  {
    View(v.serial, Some(v.text.value + page.bytes), !page.done, if page.done then v.nexts else v.nexts + 1)
  }

  // ---- A connection ----

  /** The daemon's snapshot, with the serial of the request that made it. */
  datatype Held = Held(selection: Selection, serial: nat)

  /** `started` is what each selection's START found, whatever became of it. */
  datatype World = World(
    views: map<u32, View>, toDaemon: seq<Ask>, held: Option<Held>, toClient: seq<Answer>, started: map<(u32, nat), seq<byte>>)

  function Send(w: World, asks: seq<Ask>): World {
    w.(toDaemon := w.toDaemon + asks)
  }

  function ClearAll(w: World, tab: u32): (r: World) {
    if tab !in w.views then w
    else
      var v := w.views[tab];
      Send(w.(views := w.views[tab := Cleared(v)]), if v.pending then [Ask(tab, v.serial, SELECTION_CANCEL)] else [])
  }

  function SelectAll(w: World, tab: u32): (r: World) {
    if tab !in w.views then w
    else
      var c := ClearAll(w, tab);
      var v := c.views[tab];
      Send(c.(views := c.views[tab := v.(text := Some([]), pending := true)]), [Ask(tab, v.serial, SELECTION_START)])
  }

  /** The client takes the next answer. */
  function TakeAnswer(w: World): (r: World) {
    if w.toClient == [] then w
    else
      var a, u := w.toClient[0], w.(toClient := w.toClient[1..]);
      if a.tab !in w.views || !Wanted(w.views[a.tab], a.page) || w.views[a.tab].text.None? then u
      else
        var v := Collected(w.views[a.tab], a.page);
        Send(u.(views := u.views[a.tab := v]), if a.page.done then [] else [Ask(a.tab, v.serial, SELECTION_NEXT)])
  }

  function SelectionOf(h: Option<Held>): Option<Selection> {
    if h.None? then None else Some(h.value.selection)
  }

  /** The daemon takes the next request, finding `text` in the tab if it is a START. */
  function TakeAsk(w: World, text: seq<byte>): (r: World)
    requires ValidSelection(SelectionOf(w.held))
  {
    if w.toDaemon == [] then w
    else
      var a, u := w.toDaemon[0], w.(toDaemon := w.toDaemon[1..]);
      var (selection, page) := Request(SelectionOf(w.held), a.tab, Generation(a.serial), a.operation, text);
      var serial := if a.operation == SELECTION_START then a.serial else if w.held.Some? then w.held.value.serial else 0;
      u.(held := if selection.None? then None else Some(Held(selection.value, serial)),
         toClient := u.toClient + (if page.None? then [] else [Answer(a.tab, serial, page.value)]),
         started := if a.operation == SELECTION_START then u.started[(a.tab, a.serial) := text] else u.started)
  }

  // ---- The invariant ----

  /** The one message that can advance a selection. */
  predicate Advances(a: Ask, tab: u32, serial: nat) {
    a.tab == tab && a.serial == serial && (a.operation == SELECTION_START || a.operation == SELECTION_NEXT)
  }

  function AskCount(asks: seq<Ask>, tab: u32, serial: nat): (n: nat) {
    if asks == [] then 0 else (if Advances(asks[0], tab, serial) then 1 else 0) + AskCount(asks[1..], tab, serial)
  }

  function AnswerCount(answers: seq<Answer>, tab: u32, serial: nat): (n: nat) {
    if answers == [] then 0
    else (if answers[0].tab == tab && answers[0].serial == serial then 1 else 0) + AnswerCount(answers[1..], tab, serial)
  }

  predicate Is(h: Option<Held>, tab: u32, serial: nat) {
    h.Some? && h.value.selection.tab == tab && h.value.serial == serial
  }

  /** What a request in flight promises about the view that still waits for it. */
  predicate AskOk(w: World, a: Ask) {
    && a.tab in w.views && a.serial <= w.views[a.tab].serial
    && (a.operation == SELECTION_START ==> (a.tab, a.serial) !in w.started)
    && var v := w.views[a.tab];
       (Advances(a, a.tab, v.serial) && v.pending && v.text.Some? ==>
          if a.operation == SELECTION_START then v.text.value == []
          else
            && (a.tab, a.serial) in w.started && v.text.value <= w.started[(a.tab, a.serial)]
            && (Is(w.held, a.tab, a.serial) ==> w.held.value.selection.offset == |v.text.value|))
  }

  /** What an answer in flight brings to the view that still waits for it. */
  predicate AnswerOk(w: World, a: Answer) {
    && a.tab in w.views && a.serial <= w.views[a.tab].serial && a.page.generation == Generation(a.serial)
    && (a.tab, a.serial) in w.started
    && var v, all := w.views[a.tab], w.started[(a.tab, a.serial)];
       (a.serial == v.serial && v.pending && v.text.Some? ==>
          && v.text.value + a.page.bytes <= all && (a.page.done <==> v.text.value + a.page.bytes == all)
          && (!a.page.done ==> |a.page.bytes| == PAGE_BYTES)
          && (Is(w.held, a.tab, a.serial) ==> w.held.value.selection.offset == |v.text.value + a.page.bytes|))
  }

  predicate HeldOk(w: World) {
    w.held.Some? ==>
      var Held(s, serial) := w.held.value;
      && s.offset <= |s.text| && s.generation == Generation(serial) && s.tab in w.views && serial <= w.views[s.tab].serial
      && (s.tab, serial) in w.started && w.started[(s.tab, serial)] == s.text
  }

  predicate ViewOk(w: World, tab: u32)
    requires tab in w.views
  {
    var v := w.views[tab];
    && (v.pending ==> v.text.Some? && AskCount(w.toDaemon, tab, v.serial) + AnswerCount(w.toClient, tab, v.serial) <= 1)
    && (v.pending ==> v.nexts * PAGE_BYTES == |v.text.value|)
    && (v.pending && v.text.value != [] ==> (tab, v.serial) in w.started && v.text.value <= w.started[(tab, v.serial)])
    && (!v.pending && v.text.Some? ==>
          (tab, v.serial) in w.started && v.text.value == w.started[(tab, v.serial)] && v.nexts * PAGE_BYTES <= |v.text.value|)
    && (v.text.None? ==> !v.pending && v.nexts == 0 && Unused(w, tab, v.serial))
  }

  /** Nothing anywhere mentions this selection of a tab yet. */
  predicate Unused(w: World, tab: u32, serial: nat) {
    && (forall a | a in w.toDaemon && a.tab == tab :: a.serial < serial)
    && (forall a | a in w.toClient && a.tab == tab :: a.serial < serial)
    && (w.held.Some? && w.held.value.selection.tab == tab ==> w.held.value.serial < serial)
    && (tab, serial) !in w.started
  }

  /** A tab's STARTs leave in the order of its selections. */
  predicate StartsOrdered(asks: seq<Ask>) {
    forall i, j | 0 <= i < j < |asks| && asks[i].operation == SELECTION_START && asks[j].operation == SELECTION_START && asks[i].tab == asks[j].tab ::
      asks[i].serial < asks[j].serial
  }

  predicate Valid(w: World) {
    && StartsOrdered(w.toDaemon)
    && (forall a | a in w.toDaemon :: AskOk(w, a))
    && (forall a | a in w.toClient :: AnswerOk(w, a))
    && (forall tab | tab in w.views :: ViewOk(w, tab))
    && HeldOk(w)
    && (forall k | k in w.started :: k.0 in w.views && k.1 <= w.views[k.0].serial)
  }

  /** No view is 2^32 selections ahead of anything still in flight for it. */
  predicate Windowed(w: World) {
    && (forall a | a in w.toDaemon && a.tab in w.views :: w.views[a.tab].serial < a.serial + WRAP)
    && (forall a | a in w.toClient && a.tab in w.views :: w.views[a.tab].serial < a.serial + WRAP)
    && (w.held.Some? && w.held.value.selection.tab in w.views ==>
          w.views[w.held.value.selection.tab].serial < w.held.value.serial + WRAP)
  }

  lemma {:induction false} AskCountAppend(s: seq<Ask>, t: seq<Ask>, tab: u32, serial: nat)
    ensures AskCount(s + t, tab, serial) == AskCount(s, tab, serial) + AskCount(t, tab, serial)
  {
    hide Advances;
    if s == [] {
      assert s + t == t;
    } else {
      assert (s + t)[1..] == s[1..] + t;
      AskCountAppend(s[1..], t, tab, serial);
    }
  }

  lemma {:induction false} AnswerCountAppend(s: seq<Answer>, a: Answer, tab: u32, serial: nat)
    ensures AnswerCount(s + [a], tab, serial) == AnswerCount(s, tab, serial) + (if a.tab == tab && a.serial == serial then 1 else 0)
  {
    if s == [] {
      assert s + [a] == [a] && [a][1..] == [];
    } else {
      assert (s + [a])[1..] == s[1..] + [a];
      AnswerCountAppend(s[1..], a, tab, serial);
    }
  }

  lemma {:induction false} AskCounted(s: seq<Ask>, a: Ask, tab: u32, serial: nat)
    requires a in s && Advances(a, tab, serial)
    ensures AskCount(s, tab, serial) > 0
  {
    if s[0] != a {
      AskCounted(s[1..], a, tab, serial);
    }
  }

  lemma {:induction false} AnswerCounted(s: seq<Answer>, a: Answer)
    requires a in s
    ensures AnswerCount(s, a.tab, a.serial) > 0
  {
    if s[0] != a {
      AnswerCounted(s[1..], a);
    }
  }

  lemma {:induction false} AskNone(s: seq<Ask>, tab: u32, serial: nat)
    requires forall a | a in s && a.tab == tab :: a.serial < serial
    ensures AskCount(s, tab, serial) == 0
  {
    if s != [] {
      AskNone(s[1..], tab, serial);
    }
  }

  lemma {:induction false} AnswerNone(s: seq<Answer>, tab: u32, serial: nat)
    requires forall a | a in s && a.tab == tab :: a.serial < serial
    ensures AnswerCount(s, tab, serial) == 0
  {
    if s != [] {
      AnswerNone(s[1..], tab, serial);
    }
  }

  // ---- Every step keeps it ----

  /** A step that changes nothing a selection depends on. */
  predicate SameFor(w: World, r: World, tab: u32, serial: nat) {
    && tab in w.views && tab in r.views && r.views[tab] == w.views[tab]
    && ((tab, serial) in r.started <==> (tab, serial) in w.started)
    && ((tab, serial) in w.started ==> r.started[(tab, serial)] == w.started[(tab, serial)])
    && (Is(r.held, tab, serial) ==> r.held == w.held)
  }

  /** A message for a selection its view no longer waits for. */
  predicate StaleFor(w: World, r: World, tab: u32, serial: nat) {
    && tab in w.views && tab in r.views && w.views[tab].serial <= r.views[tab].serial
    && ((tab, serial) in r.started <==> (tab, serial) in w.started)
    && !(r.views[tab].pending && r.views[tab].serial == serial)
  }

  lemma AskKept(w: World, r: World, a: Ask)
    requires AskOk(w, a) && (SameFor(w, r, a.tab, a.serial) || StaleFor(w, r, a.tab, a.serial))
    ensures AskOk(r, a)
  {
  }

  lemma AnswerKept(w: World, r: World, a: Answer)
    requires AnswerOk(w, a) && (SameFor(w, r, a.tab, a.serial) || StaleFor(w, r, a.tab, a.serial))
    ensures AnswerOk(r, a)
  {
    hide Generation;
  }

  /** A view untouched by a step keeps its promise when no message of its selection appears. */
  lemma ViewKept(w: World, r: World, tab: u32)
    requires tab in w.views && ViewOk(w, tab) && SameFor(w, r, tab, w.views[tab].serial)
    requires AskCount(r.toDaemon, tab, w.views[tab].serial) + AnswerCount(r.toClient, tab, w.views[tab].serial)
          <= AskCount(w.toDaemon, tab, w.views[tab].serial) + AnswerCount(w.toClient, tab, w.views[tab].serial)
    requires w.views[tab].text.None? ==> Unused(r, tab, w.views[tab].serial)
    ensures ViewOk(r, tab)
  {
    hide AskCount, AnswerCount, Unused;
  }

  lemma Known(w: World)
    requires Valid(w)
    ensures forall a | a in w.toDaemon :: AskOk(w, a) && a.tab in w.views
    ensures forall a | a in w.toClient :: AnswerOk(w, a) && a.tab in w.views
    ensures forall t | t in w.views :: ViewOk(w, t)
  {
    hide ViewOk, Generation;
  }

  lemma ClearAllKeeps(w: World, tab: u32)
    requires Valid(w)
    ensures Valid(ClearAll(w, tab))
    ensures tab in w.views ==> Unused(ClearAll(w, tab), tab, w.views[tab].serial + 1)
  {
    hide AskCount, AnswerCount, Generation, AskOk, AnswerOk, ViewOk;
    var r := ClearAll(w, tab);
    if tab in w.views {
      Known(w);
      var asks := if w.views[tab].pending then [Ask(tab, w.views[tab].serial, SELECTION_CANCEL)] else [];
      ClearedUnused(w, tab);
      forall a | a in w.toDaemon
        ensures AskOk(r, a)
      {
        AskKept(w, r, a);
      }
      forall a | a in asks
        ensures AskOk(r, a)
      {
        CancelOk(r, a);
      }
      forall a | a in r.toClient
        ensures AnswerOk(r, a)
      {
        AnswerKept(w, r, a);
      }
      forall t | t in r.views
        ensures ViewOk(r, t)
      {
        CancelsCountNothing(w.toDaemon, asks, t, w.views[t].serial);
        if t == tab {
          IdleOk(r, t);
        } else {
          UnusedKept(w, r, t);
          ViewKept(w, r, t);
        }
      }
    }
  }

  lemma CancelOk(r: World, a: Ask)
    requires a.operation == SELECTION_CANCEL && a.tab in r.views && a.serial <= r.views[a.tab].serial
    ensures AskOk(r, a)
  {
  }

  lemma IdleOk(r: World, tab: u32)
    requires tab in r.views && r.views[tab].text.None? && !r.views[tab].pending && r.views[tab].nexts == 0
    requires Unused(r, tab, r.views[tab].serial)
    ensures ViewOk(r, tab)
  {
  }

  /** Messages added for other selections do not use this one. */
  lemma UnusedKept(w: World, r: World, tab: u32)
    requires tab in w.views && ViewOk(w, tab) && SameFor(w, r, tab, w.views[tab].serial)
    requires forall a | a in r.toDaemon && a.tab == tab :: a in w.toDaemon
    requires forall a | a in r.toClient && a.tab == tab :: a in w.toClient
    requires r.held == w.held || (r.held.Some? ==> r.held.value.selection.tab != tab || (w.held.Some? && r.held.value.serial == w.held.value.serial && w.held.value.selection.tab == tab))
    ensures w.views[tab].text.None? ==> Unused(r, tab, w.views[tab].serial)
  {
    hide AskCount, AnswerCount;
  }

  lemma ClearedUnused(w: World, tab: u32)
    requires Valid(w) && tab in w.views
    ensures Unused(ClearAll(w, tab), tab, w.views[tab].serial + 1)
  {
    hide AskCount, AnswerCount, Generation, ViewOk;
    var r := ClearAll(w, tab);
    forall a | a in r.toDaemon && a.tab == tab
      ensures a.serial < w.views[tab].serial + 1
    {
      if a in w.toDaemon {
        assert AskOk(w, a);
      }
    }
    forall a | a in r.toClient && a.tab == tab
      ensures a.serial < w.views[tab].serial + 1
    {
      assert AnswerOk(w, a);
    }
  }

  lemma CancelsCountNothing(s: seq<Ask>, t: seq<Ask>, tab: u32, serial: nat)
    requires |t| <= 1 && forall a | a in t :: a.operation == SELECTION_CANCEL
    ensures AskCount(s + t, tab, serial) == AskCount(s, tab, serial)
  {
    AskCountAppend(s, t, tab, serial);
    if t != [] {
      assert t[0] in t && t[1..] == [];
    }
  }

  lemma SelectAllKeeps(w: World, tab: u32)
    requires Valid(w)
    ensures Valid(SelectAll(w, tab))
  {
    hide AskCount, AnswerCount, Generation, ClearAll;
    if tab in w.views {
      ClearAllKeeps(w, tab);
      ClearedView(w, tab);
      StartKeeps(ClearAll(w, tab), tab);
    }
  }

  lemma ClearedView(w: World, tab: u32)
    requires tab in w.views
    ensures tab in ClearAll(w, tab).views && ClearAll(w, tab).views[tab] == Cleared(w.views[tab])
  {
  }

  lemma StartKeeps(c: World, tab: u32)
    requires Valid(c) && tab in c.views && c.views[tab].text.None? && Unused(c, tab, c.views[tab].serial)
    ensures var v := c.views[tab];
      Valid(Send(c.(views := c.views[tab := v.(text := Some([]), pending := true)]), [Ask(tab, v.serial, SELECTION_START)]))
  {
    hide AskCount, AnswerCount, Generation, AskOk, AnswerOk, ViewOk;
    var v := c.views[tab];
    var start := Ask(tab, v.serial, SELECTION_START);
    var r := Send(c.(views := c.views[tab := v.(text := Some([]), pending := true)]), [start]);
    Known(c);
    forall a | a in c.toDaemon
      ensures AskOk(r, a)
    {
      AskKept(c, r, a);
    }
    StartOk(r, start);
    forall a | a in r.toClient
      ensures AnswerOk(r, a)
    {
      AnswerKept(c, r, a);
    }
    forall t | t in r.views
      ensures ViewOk(r, t)
    {
      AskCountAppend(c.toDaemon, [start], t, c.views[t].serial);
      OneAsk(start, t, c.views[t].serial);
      if t == tab {
        AskNone(c.toDaemon, t, v.serial);
        AnswerNone(c.toClient, t, v.serial);
        StartedView(c, r, t);
      } else {
        UnusedKept(c, r, t);
        ViewKept(c, r, t);
      }
    }
  }

  lemma StartOk(r: World, a: Ask)
    requires a.operation == SELECTION_START && a.tab in r.views && a.serial <= r.views[a.tab].serial && (a.tab, a.serial) !in r.started
    requires r.views[a.tab].text == Some([])
    ensures AskOk(r, a)
  {
  }

  lemma StartedView(c: World, r: World, tab: u32)
    requires tab in c.views && tab in r.views && ViewOk(c, tab) && c.views[tab].text.None?
    requires r.views[tab] == c.views[tab].(text := Some([]), pending := true)
    requires AskCount(r.toDaemon, tab, r.views[tab].serial) + AnswerCount(r.toClient, tab, r.views[tab].serial) <= 1
    ensures ViewOk(r, tab)
  {
    hide AskCount, AnswerCount;
  }

  lemma OneAsk(a: Ask, tab: u32, serial: nat)
    ensures AskCount([a], tab, serial) == if Advances(a, tab, serial) then 1 else 0
  {
    assert [a][1..] == [];
  }

  /** An answer nobody waits for is dropped without trace. */
  lemma DropAnswer(w: World)
    requires Valid(w) && w.toClient != []
    requires var a := w.toClient[0]; a.tab in w.views && !(w.views[a.tab].pending && w.views[a.tab].serial == a.serial)
    ensures Valid(w.(toClient := w.toClient[1..]))
  {
    hide AskCount, Generation;
    var r := w.(toClient := w.toClient[1..]);
    forall a | a in r.toDaemon
      ensures AskOk(r, a)
    {
      assert AskOk(w, a);
    }
    forall a | a in r.toClient
      ensures AnswerOk(r, a)
    {
      assert AnswerOk(w, a);
    }
    forall t | t in r.views
      ensures ViewOk(r, t)
    {
      assert ViewOk(w, t);
    }
  }

  lemma TakeAnswerKeeps(w: World)
    requires Valid(w) && !Confused(w, ClientTakes)
    ensures Valid(TakeAnswer(w))
  {
    hide AskCount, AnswerCount, Generation;
    if w.toClient != [] {
      var a := w.toClient[0];
      assert a in w.toClient;
      assert AnswerOk(w, a) && ViewOk(w, a.tab);
      if Wanted(w.views[a.tab], a.page) {
        CollectKeeps(w);
      } else {
        DropAnswer(w);
      }
    }
  }

  /** After the only message of a selection is taken, no other is in flight. */
  lemma LastMessage(w: World, a: Answer)
    requires Valid(w) && w.toClient != [] && a == w.toClient[0] && a.tab in w.views
    requires w.views[a.tab].pending && w.views[a.tab].serial == a.serial
    ensures AskCount(w.toDaemon, a.tab, a.serial) == 0 && AnswerCount(w.toClient[1..], a.tab, a.serial) == 0
    ensures forall b | b in w.toDaemon :: !Advances(b, a.tab, a.serial)
    ensures forall b | b in w.toClient[1..] && b.tab == a.tab :: b.serial != a.serial
  {
    assert ViewOk(w, a.tab);
    forall b | b in w.toDaemon
      ensures !Advances(b, a.tab, a.serial)
    {
      if Advances(b, a.tab, a.serial) {
        AskCounted(w.toDaemon, b, a.tab, a.serial);
      }
    }
    forall b | b in w.toClient[1..] && b.tab == a.tab
      ensures b.serial != a.serial
    {
      if b.serial == a.serial {
        AnswerCounted(w.toClient[1..], b);
      }
    }
  }

  lemma CollectKeeps(w: World)
    requires Valid(w) && w.toClient != []
    requires var a := w.toClient[0];
      a.tab in w.views && Wanted(w.views[a.tab], a.page) && w.views[a.tab].serial == a.serial && w.views[a.tab].text.Some?
    ensures Valid(TakeAnswer(w))
  {
    hide Generation, AskCount, AnswerCount, AskOk, AnswerOk, ViewOk;
    var a, r := w.toClient[0], TakeAnswer(w);
    Known(w);
    LastMessage(w, a);
    CollectedView(w);
    var asks := if a.page.done then [] else [Ask(a.tab, a.serial, SELECTION_NEXT)];
    forall b | b in w.toDaemon
      ensures AskOk(r, b)
    {
      if b.tab == a.tab && b.serial == a.serial {
        IdleAsk(w, r, b);
      } else {
        AskKept(w, r, b);
      }
    }
    forall b | b in asks
      ensures AskOk(r, b)
    {
      NextOk(r, b);
    }
    forall b | b in r.toClient
      ensures AnswerOk(r, b)
    {
      AnswerKept(w, r, b);
    }
    forall t | t in r.views
      ensures ViewOk(r, t)
    {
      AskCountAppend(w.toDaemon, asks, t, w.views[t].serial);
      AnswersShrink(w.toClient, t, w.views[t].serial);
      OneAsk(Ask(a.tab, a.serial, SELECTION_NEXT), t, w.views[t].serial);
      NoAsks(t, w.views[t].serial);
      if t == a.tab {
        CollectedOk(r, t);
      } else {
        UnusedKept(w, r, t);
        ViewKept(w, r, t);
      }
    }
  }

  /** A request that does not advance its selection keeps its promise whatever the view does. */
  lemma IdleAsk(w: World, r: World, a: Ask)
    requires AskOk(w, a) && a.tab in r.views && w.views[a.tab].serial <= r.views[a.tab].serial && r.started == w.started
    requires !Advances(a, a.tab, r.views[a.tab].serial)
    ensures AskOk(r, a)
  {
  }

  lemma NextOk(r: World, a: Ask)
    requires a.operation == SELECTION_NEXT && a.tab in r.views && a.serial == r.views[a.tab].serial && r.views[a.tab].text.Some?
    requires (a.tab, a.serial) in r.started && r.views[a.tab].text.value <= r.started[(a.tab, a.serial)]
    requires Is(r.held, a.tab, a.serial) ==> r.held.value.selection.offset == |r.views[a.tab].text.value|
    ensures AskOk(r, a)
  {
  }

  lemma CollectedOk(r: World, tab: u32)
    requires tab in r.views && r.views[tab].text.Some? && (tab, r.views[tab].serial) in r.started
    requires var v, all := r.views[tab], r.started[(tab, r.views[tab].serial)];
      && v.text.value <= all && (!v.pending <==> v.text.value == all)
      && v.nexts * PAGE_BYTES <= |v.text.value| && (v.pending ==> v.nexts * PAGE_BYTES == |v.text.value|)
    requires AskCount(r.toDaemon, tab, r.views[tab].serial) + AnswerCount(r.toClient, tab, r.views[tab].serial) <= 1
    ensures ViewOk(r, tab)
  {
    hide AskCount, AnswerCount;
  }

  lemma NoAsks(tab: u32, serial: nat)
    ensures AskCount([], tab, serial) == 0
  {
  }

  lemma AnswersShrink(s: seq<Answer>, tab: u32, serial: nat)
    requires s != []
    ensures AnswerCount(s[1..], tab, serial) <= AnswerCount(s, tab, serial)
  {
  }

  /** Taking a page lengthens the view's text along the snapshot, and finishes exactly at its end. */
  lemma CollectedView(w: World)
    requires Valid(w) && w.toClient != []
    requires var a := w.toClient[0];
      a.tab in w.views && Wanted(w.views[a.tab], a.page) && w.views[a.tab].serial == a.serial && w.views[a.tab].text.Some?
    ensures (w.toClient[0].tab, w.toClient[0].serial) in w.started
    ensures var a := w.toClient[0];
      var v, all := Collected(w.views[a.tab], a.page), w.started[(a.tab, a.serial)];
      && v.text.value <= all && (a.page.done <==> v.text.value == all)
      && v.nexts * PAGE_BYTES <= |v.text.value| && (v.pending ==> v.nexts * PAGE_BYTES == |v.text.value|)
      && (v.pending ==> Is(w.held, a.tab, a.serial) ==> w.held.value.selection.offset == |v.text.value|)
  {
    var a := w.toClient[0];
    assert a in w.toClient;
    assert AnswerOk(w, a) && ViewOk(w, a.tab);
  }

  /** A request for a selection nobody waits for any more, or one that advances nothing. */
  lemma QuietAsk(r: World, a: Ask)
    requires a.tab in r.views && a.serial <= r.views[a.tab].serial && a.operation != SELECTION_START
    requires !Advances(a, a.tab, r.views[a.tab].serial) || !r.views[a.tab].pending
    ensures AskOk(r, a)
  {
  }

  lemma AsksShrink(s: seq<Ask>, tab: u32, serial: nat)
    requires s != []
    ensures AskCount(s, tab, serial) == AskCount(s[1..], tab, serial) + (if Advances(s[0], tab, serial) then 1 else 0)
  {
  }

  /** A request that finds no matching snapshot, or cancels it, leaves no answer. */
  lemma DropAsk(w: World, keep: bool)
    requires Valid(w) && w.toDaemon != []
    ensures Valid(w.(toDaemon := w.toDaemon[1..], held := if keep then w.held else None))
  {
    hide AskCount, AnswerCount, Generation, AskOk, AnswerOk, ViewOk;
    var r := w.(toDaemon := w.toDaemon[1..], held := if keep then w.held else None);
    Known(w);
    forall a | a in r.toDaemon
      ensures AskOk(r, a)
    {
      AskKept(w, r, a);
    }
    forall a | a in r.toClient
      ensures AnswerOk(r, a)
    {
      AnswerKept(w, r, a);
    }
    forall t | t in r.views
      ensures ViewOk(r, t)
    {
      AsksShrink(w.toDaemon, t, w.views[t].serial);
      UnusedKept(w, r, t);
      ViewKept(w, r, t);
    }
  }

  /** After the only message of a selection reaches the daemon, no other is in flight. */
  lemma LastAsk(w: World, a: Ask)
    requires Valid(w) && w.toDaemon != [] && a == w.toDaemon[0] && a.tab in w.views
    requires Advances(a, a.tab, a.serial)
    ensures w.views[a.tab].pending && w.views[a.tab].serial == a.serial ==>
      && AskCount(w.toDaemon[1..], a.tab, a.serial) == 0 && AnswerCount(w.toClient, a.tab, a.serial) == 0
      && (forall b | b in w.toDaemon[1..] :: !Advances(b, a.tab, a.serial))
      && (forall b | b in w.toClient && b.tab == a.tab :: b.serial != a.serial)
  {
    if w.views[a.tab].pending && w.views[a.tab].serial == a.serial {
      assert ViewOk(w, a.tab);
      forall b | b in w.toDaemon[1..]
        ensures !Advances(b, a.tab, a.serial)
      {
        if Advances(b, a.tab, a.serial) {
          AskCounted(w.toDaemon[1..], b, a.tab, a.serial);
        }
      }
      forall b | b in w.toClient && b.tab == a.tab
        ensures b.serial != a.serial
      {
        if b.serial == a.serial {
          AnswerCounted(w.toClient, b);
        }
      }
    }
  }

  lemma StartAlone(w: World, b: Ask)
    requires Valid(w) && w.toDaemon != [] && w.toDaemon[0].operation == SELECTION_START && b in w.toDaemon[1..]
    ensures b.tab == w.toDaemon[0].tab && b.serial == w.toDaemon[0].serial ==> b.operation != SELECTION_START
  {
    var i :| 0 <= i < |w.toDaemon[1..]| && w.toDaemon[1..][i] == b;
    assert w.toDaemon[i + 1] == b;
  }

  /** The world after the daemon hands out the next page of a snapshot. */
  function Handed(w: World, text: seq<byte>, offset: nat): (r: World)
    requires w.toDaemon != [] && offset <= |text|
  {
    var a := w.toDaemon[0];
    var end := Min(offset + PAGE_BYTES, |text|);
    var page := Page(Generation(a.serial), end == |text|, text[offset..end]);
    w.(toDaemon := w.toDaemon[1..],
       held := if end == |text| then None else Some(Held(Selection(a.tab, Generation(a.serial), text, end), a.serial)),
       toClient := w.toClient + [Answer(a.tab, a.serial, page)],
       started := w.started[(a.tab, a.serial) := text])
  }

  /** A page handed out for the first request in line continues exactly where its view stands. */
  lemma HandedKeeps(w: World, text: seq<byte>, offset: nat)
    requires Valid(w) && w.toDaemon != [] && offset <= |text|
    requires var a := w.toDaemon[0];
      && Advances(a, a.tab, a.serial) && a.tab in w.views
      && (a.operation == SELECTION_START ==> offset == 0)
      && (a.operation == SELECTION_NEXT ==> (a.tab, a.serial) in w.started && w.started[(a.tab, a.serial)] == text)
      && (w.views[a.tab].pending && w.views[a.tab].serial == a.serial ==> w.views[a.tab].text == Some(text[..offset]))
    ensures Valid(Handed(w, text, offset))
  {
    hide AskCount, AnswerCount, Generation, AskOk, AnswerOk, ViewOk, Valid;
    var a, r := w.toDaemon[0], Handed(w, text, offset);
    var answer := r.toClient[|w.toClient|];
    Known(w);
    LastAsk(w, a);
    HandedAnswer(w, text, offset);
    forall b | b in r.toDaemon
      ensures AskOk(r, b)
    {
      HandedAsk(w, text, offset, b);
    }
    forall b | b in w.toClient
      ensures AnswerOk(r, b)
    {
      HandedOthers(w, text, offset, b);
    }
    forall t | t in r.views
      ensures ViewOk(r, t)
    {
      HandedView(w, text, offset, t);
    }
    HandedRest(w, text, offset);
    assert Valid(r) by { Assembled(r); }
  }

  lemma Assembled(r: World)
    requires StartsOrdered(r.toDaemon) && HeldOk(r)
    requires forall a | a in r.toDaemon :: AskOk(r, a)
    requires forall a | a in r.toClient :: AnswerOk(r, a)
    requires forall t | t in r.views :: ViewOk(r, t)
    requires forall k | k in r.started :: k.0 in r.views && k.1 <= r.views[k.0].serial
    ensures Valid(r)
  {
  }

  lemma HandedRest(w: World, text: seq<byte>, offset: nat)
    requires Valid(w) && w.toDaemon != [] && offset <= |text| && w.toDaemon[0].tab in w.views
    ensures var r := Handed(w, text, offset);
      StartsOrdered(r.toDaemon) && HeldOk(r) && forall k | k in r.started :: k.0 in r.views && k.1 <= r.views[k.0].serial
  {
    hide AskCount, AnswerCount, Generation, AnswerOk, ViewOk;
    assert AskOk(w, w.toDaemon[0]);
  }

  lemma HandedAnswer(w: World, text: seq<byte>, offset: nat)
    requires Valid(w) && w.toDaemon != [] && offset <= |text|
    requires var a := w.toDaemon[0];
      && a.tab in w.views && (w.views[a.tab].pending && w.views[a.tab].serial == a.serial ==> w.views[a.tab].text == Some(text[..offset]))
    ensures AnswerOk(Handed(w, text, offset), Handed(w, text, offset).toClient[|w.toClient|])
  {
    hide AskCount, AnswerCount, Generation, ViewOk;
    assert AskOk(w, w.toDaemon[0]);
    var end := Min(offset + PAGE_BYTES, |text|);
    assert text[..offset] + text[offset..end] == text[..end];
    assert end == |text| <==> text[..end] == text;
  }

  lemma HandedAsk(w: World, text: seq<byte>, offset: nat, b: Ask)
    requires Valid(w) && w.toDaemon != [] && offset <= |text| && b in w.toDaemon[1..]
    requires var a := w.toDaemon[0];
      && Advances(a, a.tab, a.serial) && a.tab in w.views
      && (a.operation == SELECTION_NEXT ==> (a.tab, a.serial) in w.started && w.started[(a.tab, a.serial)] == text)
    ensures AskOk(Handed(w, text, offset), b)
  {
    hide AskCount, AnswerCount, Generation, AnswerOk, ViewOk, Valid;
    var a, r := w.toDaemon[0], Handed(w, text, offset);
    Known(w);
    if b.tab == a.tab && b.serial == a.serial {
      LastAsk(w, a);
      if a.operation == SELECTION_START {
        StartAlone(w, b);
      }
      QuietAsk(r, b);
    } else {
      AskKept(w, r, b);
    }
  }

  lemma HandedOthers(w: World, text: seq<byte>, offset: nat, b: Answer)
    requires Valid(w) && w.toDaemon != [] && offset <= |text| && b in w.toClient
    requires var a := w.toDaemon[0];
      && Advances(a, a.tab, a.serial) && a.tab in w.views
      && (a.operation == SELECTION_NEXT ==> (a.tab, a.serial) in w.started && w.started[(a.tab, a.serial)] == text)
    ensures AnswerOk(Handed(w, text, offset), b)
  {
    hide AskCount, AnswerCount, Generation, ViewOk, Valid;
    var a, r := w.toDaemon[0], Handed(w, text, offset);
    Known(w);
    LastAsk(w, a);
    hide AskOk;
    AnswerKept(w, r, b);
  }

  lemma HandedView(w: World, text: seq<byte>, offset: nat, t: u32)
    requires Valid(w) && w.toDaemon != [] && offset <= |text| && t in w.views
    requires var a := w.toDaemon[0];
      && Advances(a, a.tab, a.serial) && a.tab in w.views
      && (a.operation == SELECTION_NEXT ==> (a.tab, a.serial) in w.started && w.started[(a.tab, a.serial)] == text)
      && (w.views[a.tab].pending && w.views[a.tab].serial == a.serial ==> w.views[a.tab].text == Some(text[..offset]))
    ensures ViewOk(Handed(w, text, offset), t)
  {
    hide AskCount, AnswerCount, Generation, AnswerOk, Valid;
    var a, r := w.toDaemon[0], Handed(w, text, offset);
    Known(w);
    AsksShrink(w.toDaemon, t, w.views[t].serial);
    AnswerCountAppend(w.toClient, r.toClient[|w.toClient|], t, w.views[t].serial);
  }

  lemma TakeAskKeeps(w: World, text: seq<byte>)
    requires Valid(w) && !Confused(w, DaemonTakes(text))
    ensures ValidSelection(SelectionOf(w.held)) && Valid(TakeAsk(w, text))
  {
    hide AskCount, AnswerCount, Generation, AnswerOk, ViewOk;
    HeldShape(w);
    if w.toDaemon != [] {
      var a := w.toDaemon[0];
      assert a in w.toDaemon;
      assert AskOk(w, a);
      PendingHasText(w, a.tab);
      if a.operation == SELECTION_START {
        StartHanded(w, text);
        HandedKeeps(w, text, 0);
      } else if w.held.Some? && w.held.value.selection.tab == a.tab && w.held.value.selection.generation == Generation(a.serial) {
        HeldRequest(w, text);
        if a.operation == SELECTION_NEXT {
          HandedKeeps(w, w.held.value.selection.text, w.held.value.selection.offset);
        } else {
          DropAsk(w, a.operation != SELECTION_CANCEL);
        }
      } else {
        Unmatched(w, text);
        DropAsk(w, true);
      }
    }
  }

  lemma PendingHasText(w: World, tab: u32)
    requires Valid(w) && tab in w.views
    ensures w.views[tab].pending ==> w.views[tab].text.Some?
  {
    hide AskCount, AnswerCount, AskOk, AnswerOk;
    assert ViewOk(w, tab);
  }

  lemma Unmatched(w: World, text: seq<byte>)
    requires ValidSelection(SelectionOf(w.held)) && w.toDaemon != [] && w.toDaemon[0].operation != SELECTION_START
    requires var a := w.toDaemon[0];
      w.held.Some? ==> w.held.value.selection.tab != a.tab || w.held.value.selection.generation != Generation(a.serial)
    ensures TakeAsk(w, text) == w.(toDaemon := w.toDaemon[1..], held := w.held)
  {
    hide Generation;
    assert w.toClient + [] == w.toClient;
  }

  lemma HeldShape(w: World)
    requires Valid(w)
    ensures ValidSelection(SelectionOf(w.held))
  {
  }

  lemma StartHanded(w: World, text: seq<byte>)
    requires ValidSelection(SelectionOf(w.held)) && w.toDaemon != [] && w.toDaemon[0].operation == SELECTION_START
    ensures TakeAsk(w, text) == Handed(w, text, 0)
    ensures text[..0] == []
  {
    hide Generation;
  }

  /** A request that matches the held snapshot: a page of it, its end, or nothing at all. */
  lemma HeldRequest(w: World, text: seq<byte>)
    requires Valid(w) && w.toDaemon != [] && w.held.Some? && w.toDaemon[0].operation != SELECTION_START
    requires var a, h := w.toDaemon[0], w.held.value; h.selection.tab == a.tab && h.serial == a.serial
    ensures var a, h := w.toDaemon[0], w.held.value;
      && (a.operation == SELECTION_NEXT ==>
            && (a.tab, a.serial) in w.started && w.started[(a.tab, a.serial)] == h.selection.text && h.selection.offset <= |h.selection.text|
            && TakeAsk(w, text) == Handed(w, h.selection.text, h.selection.offset)
            && (w.views[a.tab].pending && w.views[a.tab].serial == a.serial ==>
                  w.views[a.tab].text == Some(h.selection.text[..h.selection.offset])))
      && (a.operation != SELECTION_NEXT ==>
            TakeAsk(w, text) == w.(toDaemon := w.toDaemon[1..], held := if a.operation == SELECTION_CANCEL then None else w.held))
  {
    hide AskCount, AnswerCount, Generation, AnswerOk;
    var a, h := w.toDaemon[0], w.held.value;
    assert AskOk(w, a) && ViewOk(w, a.tab);
    if a.operation == SELECTION_NEXT {
      assert w.started[(a.tab, a.serial) := h.selection.text] == w.started;
      var v := w.views[a.tab];
      if v.pending && v.serial == a.serial {
        assert v.text.value == h.selection.text[..|v.text.value|];
      }
    }
    assert w.toClient + [] == w.toClient;
  }

  // ---- Runs ----

  datatype Action = Select(tab: u32) | Clear(tab: u32) | ClientTakes | DaemonTakes(text: seq<byte>)

  function Act(w: World, a: Action): (r: World)
    requires ValidSelection(SelectionOf(w.held))
  {
    match a
    case Select(tab) => SelectAll(w, tab)
    case Clear(tab) => ClearAll(w, tab)
    case ClientTakes => TakeAnswer(w)
    case DaemonTakes(text) => TakeAsk(w, text)
  }

  /** Two selections that the wire cannot tell apart. */
  predicate Aliases(a: nat, b: nat) {
    a != b && Generation(a) == Generation(b)
  }

  /** The next message taken is mistaken for one of another selection of the same tab. */
  predicate Confused(w: World, a: Action) {
    match a
    case ClientTakes =>
      w.toClient != [] && w.toClient[0].tab in w.views &&
      w.views[w.toClient[0].tab].pending && Aliases(w.toClient[0].serial, w.views[w.toClient[0].tab].serial)
    case DaemonTakes(_) =>
      w.toDaemon != [] && w.toDaemon[0].operation != SELECTION_START && w.held.Some? &&
      w.held.value.selection.tab == w.toDaemon[0].tab && Aliases(w.toDaemon[0].serial, w.held.value.serial)
    case _ => false
  }

  /** A connection with one fresh view per tab. */
  function Start(tabs: set<u32>): World {
    World(map tab | tab in tabs :: NEW_VIEW, [], None, [], map[])
  }

  lemma StartValid(tabs: set<u32>)
    ensures Valid(Start(tabs)) && Windowed(Start(tabs))
  {
    forall tab | tab in tabs
      ensures ViewOk(Start(tabs), tab)
    {
      NoAsks(tab, 0);
    }
  }

  /** Where a run leads, unless one of its steps confuses two selections. */
  function Ran(w: World, actions: seq<Action>): (r: Option<World>)
    requires Valid(w)
    ensures r.Some? ==> Valid(r.value)
    decreases |actions|
  {
    hide Valid, Confused, Act;
    HeldShape(w);
    if actions == [] then Some(w)
    else if Confused(w, actions[0]) then None
    else
      ActKeeps(w, actions[0]);
      Ran(Act(w, actions[0]), actions[1..])
  }

  function Reached(tabs: set<u32>, actions: seq<Action>): (w: Option<World>)
    ensures w.Some? ==> Valid(w.value)
  {
    StartValid(tabs);
    Ran(Start(tabs), actions)
  }

  lemma {:induction false} RanAppend(w: World, a: seq<Action>, b: seq<Action>)
    requires Valid(w) && Ran(w, a).Some?
    ensures Ran(w, a + b) == Ran(Ran(w, a).value, b)
    decreases |a|
  {
    hide Valid, Confused, Act;
    HeldShape(w);
    if a == [] {
      assert a + b == b;
    } else {
      ActKeeps(w, a[0]);
      RanAppend(Act(w, a[0]), a[1..], b);
      assert (a + b)[0] == a[0] && (a + b)[1..] == a[1..] + b;
    }
  }

  lemma ActKeeps(w: World, a: Action)
    requires Valid(w) && !Confused(w, a)
    ensures ValidSelection(SelectionOf(w.held)) && Valid(Act(w, a))
  {
    hide Valid, SelectAll, ClearAll, TakeAnswer, TakeAsk;
    HeldShape(w);
    match a
    case Select(tab) => SelectAllKeeps(w, tab);
    case Clear(tab) => ClearAllKeeps(w, tab);
    case ClientTakes => TakeAnswerKeeps(w);
    case DaemonTakes(text) => TakeAskKeeps(w, text);
  }

  /**
   A completed selection is exactly the text its START found, whatever was cancelled, restarted, asked by
   other tabs or late on the way, and it took one NEXT for every full page before the last.
   */
  lemma CompletedIsSnapshot(tabs: set<u32>, actions: seq<Action>, tab: u32)
    requires Reached(tabs, actions).Some?
    requires var w := Reached(tabs, actions).value; tab in w.views && w.views[tab].text.Some? && !w.views[tab].pending
    ensures var w := Reached(tabs, actions).value;
      var v := w.views[tab];
      (tab, v.serial) in w.started && v.text.value == w.started[(tab, v.serial)] && v.nexts * PAGE_BYTES <= |v.text.value|
  {
    hide Reached;
    Known(Reached(tabs, actions).value);
  }

  /** A pending selection has a prefix of its snapshot and has asked once for every full page of it. */
  lemma PendingIsPrefix(tabs: set<u32>, actions: seq<Action>, tab: u32)
    requires Reached(tabs, actions).Some?
    requires var w := Reached(tabs, actions).value; tab in w.views && w.views[tab].pending
    ensures var w := Reached(tabs, actions).value;
      var v := w.views[tab];
      && v.text.Some? && v.nexts * PAGE_BYTES == |v.text.value|
      && (v.text.value != [] ==> (tab, v.serial) in w.started && v.text.value <= w.started[(tab, v.serial)])
  {
    hide Reached;
    Known(Reached(tabs, actions).value);
  }

  // ---- When the wire's generations are too short ----

  /** A step confuses two selections exactly when their numbers differ by a nonzero multiple of 2^32. */
  lemma AliasesExactly(a: nat, b: nat)
    ensures Aliases(a, b) <==> a != b && (a - b) % WRAP == 0
  {
    var x, y := a / WRAP, b / WRAP;
    assert a == x * WRAP + a % WRAP && b == y * WRAP + b % WRAP;
    if a % WRAP == b % WRAP {
      assert a - b == (x - y) * WRAP;
      Multiple(x - y);
    }
  }

  lemma Multiple(k: int)
    ensures (k * WRAP) % WRAP == 0
  {
  }

  /** A view takes a page of another selection of its tab exactly at a confused step. */
  lemma ForeignAnswer(w: World)
    requires Valid(w) && w.toClient != [] && w.toClient[0].tab in w.views
    requires w.toClient[0].serial != w.views[w.toClient[0].tab].serial
    ensures TakeAnswer(w).views[w.toClient[0].tab] != w.views[w.toClient[0].tab] <==> Confused(w, ClientTakes)
  {
    hide Generation, AskOk, AskCount, AnswerCount;
    var a := w.toClient[0];
    assert a in w.toClient;
    assert AnswerOk(w, a) && ViewOk(w, a.tab);
  }

  /** The daemon answers or cancels a request under another selection's snapshot exactly at a confused step. */
  lemma ForeignAsk(w: World, text: seq<byte>)
    requires Valid(w) && w.toDaemon != [] && !Is(w.held, w.toDaemon[0].tab, w.toDaemon[0].serial)
    requires w.toDaemon[0].operation == SELECTION_NEXT || w.toDaemon[0].operation == SELECTION_CANCEL
    ensures ValidSelection(SelectionOf(w.held))
    ensures TakeAsk(w, text) != w.(toDaemon := w.toDaemon[1..]) <==> Confused(w, DaemonTakes(text))
  {
    hide Generation, AskOk, AnswerOk, ViewOk;
    var r := TakeAsk(w, text);
    if w.toDaemon[0].operation == SELECTION_NEXT && Confused(w, DaemonTakes(text)) {
      assert |r.toClient| == |w.toClient| + 1;
    }
  }

  /** Within 2^32 selections of everything in flight, no step is confused. */
  lemma WindowedIsClear(w: World, a: Action)
    requires Valid(w) && Windowed(w)
    ensures !Confused(w, a)
  {
    hide Generation, AskCount, AnswerCount;
    if a.ClientTakes? && w.toClient != [] && w.toClient[0].tab in w.views {
      var m := w.toClient[0];
      assert m in w.toClient;
      assert AnswerOk(w, m);
      Within(m.serial, w.views[m.tab].serial);
    }
    if a.DaemonTakes? && w.toDaemon != [] && w.held.Some? && w.held.value.selection.tab == w.toDaemon[0].tab {
      var m := w.toDaemon[0];
      assert m in w.toDaemon;
      assert AskOk(w, m);
      if m.serial <= w.held.value.serial {
        Within(m.serial, w.held.value.serial);
      } else {
        Within(w.held.value.serial, m.serial);
      }
    }
  }

  lemma Within(a: nat, b: nat)
    requires a <= b < a + WRAP
    ensures !Aliases(a, b) && !Aliases(b, a)
  {
    if Generation(a) == Generation(b) {
      GenerationInjective(a, b);
    }
  }

  predicate SerialsBelow(w: World, n: nat) {
    forall tab | tab in w.views :: w.views[tab].serial <= n
  }

  /** Serials cannot outgrow the number of steps, so no run of fewer than 2^32 steps confuses anything. */
  lemma {:induction false} ShortRunsStay(w: World, actions: seq<Action>, n: nat)
    requires Valid(w) && SerialsBelow(w, n) && n + |actions| < WRAP
    ensures Ran(w, actions).Some? && SerialsBelow(Ran(w, actions).value, n + |actions|)
    decreases |actions|
  {
    hide Valid, Windowed, Confused, Act, SerialsBelow;
    if actions != [] {
      BelowIsWindowed(w, n);
      WindowedIsClear(w, actions[0]);
      ActKeeps(w, actions[0]);
      SerialsGrow(w, actions[0], n);
      ShortRunsStay(Act(w, actions[0]), actions[1..], n + 1);
    } else {
      SerialsMore(w, n);
    }
  }

  lemma SerialsMore(w: World, n: nat)
    requires SerialsBelow(w, n)
    ensures SerialsBelow(w, n + 0)
  {
  }

  lemma SerialsGrow(w: World, a: Action, n: nat)
    requires ValidSelection(SelectionOf(w.held)) && SerialsBelow(w, n)
    ensures SerialsBelow(Act(w, a), n + 1)
  {
    hide Generation, Request;
  }

  lemma BelowIsWindowed(w: World, n: nat)
    requires SerialsBelow(w, n) && n < WRAP
    ensures Windowed(w)
  {
  }

  /** Runs without any guard against confusion. */
  function Wild(w: World, actions: seq<Action>): (r: World)
    requires ValidSelection(SelectionOf(w.held))
    decreases |actions|
  {
    if actions == [] then w
    else
      ActShape(w, actions[0]);
      Wild(Act(w, actions[0]), actions[1..])
  }

  lemma ActShape(w: World, a: Action)
    requires ValidSelection(SelectionOf(w.held))
    ensures ValidSelection(SelectionOf(Act(w, a).held))
  {
    hide Generation;
  }

  /** A selection, its answer, 2^32 more selections of the same tab, and only then a look at the first answer. */
  function WrapRun(tab: u32, text: seq<byte>): seq<Action> {
    [Select(tab), DaemonTakes(text)] + seq(WRAP, _ => Select(tab)) + [ClientTakes]
  }

  /**
   The guard is needed: that run, from a fresh connection, completes the last selection with a text that its
   own START, which no daemon has seen, never found.
   */
  lemma WrappedRunFails(tab: u32, text: seq<byte>)
    requires |text| <= PAGE_BYTES
    ensures var w := Wild(Start({tab}), WrapRun(tab, text));
      && tab in w.views && !w.views[tab].pending && w.views[tab].text == Some(text)
      && (tab, w.views[tab].serial) !in w.started
  {
    hide Generation;
    var first, answered := Act(Start({tab}), Select(tab)), Act(Act(Start({tab}), Select(tab)), DaemonTakes(text));
    var selects := seq(WRAP, _ => Select(tab));
    FirstAnswered(tab, text);
    SelectsPile(answered, tab, text, selects);
    var piled := Wild(answered, selects);
    assert Generation(1 + WRAP) == Generation(1) by { GenerationAgain(); }
    WildAppend(answered, selects, [ClientTakes]);
    assert Wild(piled, [ClientTakes]) == Act(piled, ClientTakes) by {
      assert [ClientTakes][1..] == [];
    }
    TakesFirst(piled, tab, text);
    assert WrapRun(tab, text)[1..] == [DaemonTakes(text)] + (selects + [ClientTakes]);
    assert WrapRun(tab, text)[1..][1..] == selects + [ClientTakes];
    assert Wild(Start({tab}), WrapRun(tab, text)) == Wild(first, WrapRun(tab, text)[1..]);
    assert Wild(first, WrapRun(tab, text)[1..]) == Wild(answered, selects + [ClientTakes]);
  }

  lemma GenerationAgain()
    ensures Generation(1 + WRAP) == Generation(1)
  {
  }

  /** The first answer waits, whole, and nothing is held. */
  predicate Piled(w: World, tab: u32, text: seq<byte>, serial: nat) {
    && w.held.None? && w.toClient == [Answer(tab, 1, Page(Generation(1), true, text))]
    && tab in w.views && w.views[tab] == View(serial, Some([]), true, 0)
    && (forall k | k in w.started :: k.1 == 1)
  }

  lemma FirstAnswered(tab: u32, text: seq<byte>)
    requires |text| <= PAGE_BYTES
    ensures ValidSelection(SelectionOf(Act(Start({tab}), Select(tab)).held))
    ensures Piled(Act(Act(Start({tab}), Select(tab)), DaemonTakes(text)), tab, text, 1)
  {
    hide Generation;
    var first := Act(Start({tab}), Select(tab));
    assert first.toDaemon == [Ask(tab, 1, SELECTION_START)];
    assert text[0..|text|] == text;
  }

  lemma {:induction false} SelectsPile(w: World, tab: u32, text: seq<byte>, selects: seq<Action>)
    requires tab in w.views && Piled(w, tab, text, w.views[tab].serial) && forall a | a in selects :: a == Select(tab)
    ensures Piled(Wild(w, selects), tab, text, w.views[tab].serial + |selects|)
    decreases |selects|
  {
    hide Generation;
    if selects != [] {
      assert selects[0] in selects;
      assert forall a | a in selects[1..] :: a in selects;
      SelectsPile(Act(w, selects[0]), tab, text, selects[1..]);
    }
  }

  lemma {:induction false} WildAppend(w: World, a: seq<Action>, b: seq<Action>)
    requires ValidSelection(SelectionOf(w.held))
    ensures ValidSelection(SelectionOf(Wild(w, a).held)) && Wild(w, a + b) == Wild(Wild(w, a), b)
    decreases |a|
  {
    hide Act;
    if a == [] {
      assert a + b == b;
    } else {
      ActShape(w, a[0]);
      WildAppend(Act(w, a[0]), a[1..], b);
      assert (a + b)[0] == a[0] && (a + b)[1..] == a[1..] + b;
    }
  }

  lemma TakesFirst(w: World, tab: u32, text: seq<byte>)
    requires Piled(w, tab, text, 1 + WRAP) && Generation(1 + WRAP) == Generation(1)
    ensures var r := Act(w, ClientTakes);
      && tab in r.views && r.views[tab] == View(1 + WRAP, Some(text), false, 0) && (tab, 1 + WRAP) !in r.started
  {
    hide Generation;
    assert [] + text == text;
  }
}
