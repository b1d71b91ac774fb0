/**
 When a pending selection ends. Not always: a connection has one snapshot, and another tab's START displaces
 it. Exactly when a selection can still advance, and that an undisturbed one ends in a bounded number of rounds.
 */
module Progress {
  import opened Bytes
  import opened Paging
  import opened Selections

  // ---- Whether a pending selection can still advance ----

  /** A request after which the daemon no longer holds this selection's snapshot. */
  predicate Displaces(a: Ask, tab: u32, serial: nat) {
    a.operation == SELECTION_START || (a.operation == SELECTION_CANCEL && a.tab == tab && a.serial == serial)
  }

  /** The selection's request in line is a START, or finds its snapshot still held when its turn comes. */
  predicate Served(asks: seq<Ask>, held: bool, tab: u32, serial: nat) {
    if asks == [] then false
    else if Advances(asks[0], tab, serial) then asks[0].operation == SELECTION_START || held
    else Served(asks[1..], held && !Displaces(asks[0], tab, serial), tab, serial)
  }

  /** The snapshot has no more than one page left. */
  predicate LastPage(h: Held) {
    |h.selection.text| <= h.selection.offset + PAGE_BYTES
  }

  predicate Coming(w: World, tab: u32, serial: nat) {
    exists a :: a in w.toClient && a.tab == tab && a.serial == serial
  }

  /** An answer for the pending selection is on its way, or a request that will get one. */
  predicate Live(w: World, tab: u32)
    requires tab in w.views
  {
    var v := w.views[tab];
    v.pending && (Coming(w, tab, v.serial) || Served(w.toDaemon, Is(w.held, tab, v.serial), tab, v.serial))
  }

  predicate LeavesAlone(a: Action, tab: u32) {
    a != Select(tab) && a != Clear(tab)
  }

  lemma {:induction false} ServedAppend(s: seq<Ask>, t: seq<Ask>, held: bool, tab: u32, serial: nat)
    requires forall a | a in t :: !Advances(a, tab, serial)
    ensures Served(s + t, held, tab, serial) == Served(s, held, tab, serial)
    decreases |s| + |t|
  {
    hide Advances, Displaces;
    if s == [] {
      assert s + t == t;
      if t != [] {
        assert t[0] in t;
        assert forall a | a in t[1..] :: a in t;
        ServedAppend([], t[1..], held && !Displaces(t[0], tab, serial), tab, serial);
        assert [] + t[1..] == t[1..];
      }
    } else {
      assert (s + t)[0] == s[0] && (s + t)[1..] == s[1..] + t;
      if !Advances(s[0], tab, serial) {
        ServedAppend(s[1..], t, held && !Displaces(s[0], tab, serial), tab, serial);
      }
    }
  }

  lemma {:induction false} NotServed(s: seq<Ask>, held: bool, tab: u32, serial: nat)
    requires forall a | a in s :: !Advances(a, tab, serial)
    ensures !Served(s, held, tab, serial)
  {
    hide Advances, Displaces;
    if s != [] {
      assert s[0] in s;
      assert forall a | a in s[1..] :: a in s;
      NotServed(s[1..], held && !Displaces(s[0], tab, serial), tab, serial);
    }
  }

  /** What an action of the user on another tab does here: requests at the end of the line. */
  lemma Elsewhere(w: World, a: Action, tab: u32)
    requires tab in w.views && LeavesAlone(a, tab) && (a.Select? || a.Clear?) && ValidSelection(SelectionOf(w.held))
    ensures var r := Act(w, a);
      && tab in r.views && r.views[tab] == w.views[tab] && r.held == w.held && r.toClient == w.toClient && r.started == w.started
      && w.toDaemon <= r.toDaemon
      && (forall b | b in r.toDaemon[|w.toDaemon|..] :: b.tab == a.tab && (a.Clear? ==> b.operation == SELECTION_CANCEL))
  {
    hide Generation;
  }

  /** An answer taken by another view, or by nobody. */
  lemma AnswerElsewhere(w: World, tab: u32)
    requires Valid(w) && tab in w.views && w.toClient != [] && !Confused(w, ClientTakes)
    requires w.toClient[0].tab != tab || w.toClient[0].serial != w.views[tab].serial
    ensures var r := TakeAnswer(w);
      && tab in r.views && r.views[tab] == w.views[tab] && r.held == w.held && r.toClient == w.toClient[1..] && r.started == w.started
      && w.toDaemon <= r.toDaemon
      && (forall b | b in r.toDaemon[|w.toDaemon|..] ::
            b.operation == SELECTION_NEXT && (b.tab != tab || b.serial != w.views[tab].serial))
  {
    hide Generation, AskCount, AnswerCount, AskOk;
    var a := w.toClient[0];
    assert a in w.toClient;
    assert AnswerOk(w, a) && ViewOk(w, a.tab);
  }

  /** A request for another selection leaves this one's snapshot held exactly when it does not displace it. */
  lemma AskElsewhere(w: World, text: seq<byte>, tab: u32)
    requires Valid(w) && tab in w.views && w.toDaemon != [] && !Confused(w, DaemonTakes(text))
    requires !Advances(w.toDaemon[0], tab, w.views[tab].serial)
    ensures ValidSelection(SelectionOf(w.held))
    ensures var r, v := TakeAsk(w, text), w.views[tab];
      && r.views == w.views && r.toDaemon == w.toDaemon[1..]
      && Is(r.held, tab, v.serial) == (Is(w.held, tab, v.serial) && !Displaces(w.toDaemon[0], tab, v.serial))
      && (Is(r.held, tab, v.serial) ==> r.held == w.held)
      && (forall b | b in r.toClient :: b in w.toClient || b.tab != tab || b.serial != v.serial)
      && (forall b | b in w.toClient :: b in r.toClient)
      && ((tab, v.serial) in r.started <==> (tab, v.serial) in w.started)
      && ((tab, v.serial) in w.started ==> r.started[(tab, v.serial)] == w.started[(tab, v.serial)])
  {
    hide Generation, AskCount, AnswerCount, AnswerOk, ViewOk;
    HeldShape(w);
    var a := w.toDaemon[0];
    assert a in w.toDaemon;
    assert AskOk(w, a);
  }

  /** The selection's own request when its turn comes: answered if it is a START or its snapshot is held, lost otherwise. */
  lemma AskHere(w: World, text: seq<byte>, tab: u32)
    requires Valid(w) && tab in w.views && w.toDaemon != [] && !Confused(w, DaemonTakes(text))
    requires Advances(w.toDaemon[0], tab, w.views[tab].serial)
    ensures ValidSelection(SelectionOf(w.held))
    ensures var r, v, a := TakeAsk(w, text), w.views[tab], w.toDaemon[0];
      && r.views == w.views && r.toDaemon == w.toDaemon[1..]
      && (a.operation == SELECTION_START || Is(w.held, tab, v.serial) ==>
            |r.toClient| == |w.toClient| + 1 && r.toClient[..|w.toClient|] == w.toClient &&
            var b := r.toClient[|w.toClient|];
            && b.tab == tab && b.serial == v.serial && (!b.page.done ==> Is(r.held, tab, v.serial))
            && (a.operation == SELECTION_START ==> (b.page.done <==> |text| <= PAGE_BYTES))
            && (a.operation == SELECTION_NEXT ==> (b.page.done <==> LastPage(w.held.value)))
            && (a.operation == SELECTION_START ==> (tab, v.serial) in r.started && r.started[(tab, v.serial)] == text)
            && (a.operation == SELECTION_NEXT ==> r.started == w.started))
      && (a.operation == SELECTION_NEXT && !Is(w.held, tab, v.serial) ==> r == w.(toDaemon := w.toDaemon[1..]))
  {
    hide Generation, AskCount, AnswerCount, AnswerOk, ViewOk;
    HeldShape(w);
    var a := w.toDaemon[0];
    assert a in w.toDaemon;
    assert AskOk(w, a);
  }

  /** With its only request lost, no message of a pending selection is left. */
  lemma NothingElse(w: World, tab: u32)
    requires Valid(w) && tab in w.views && w.views[tab].pending && w.toDaemon != []
    requires Advances(w.toDaemon[0], tab, w.views[tab].serial)
    ensures !Coming(w, tab, w.views[tab].serial)
    ensures forall b | b in w.toDaemon[1..] :: !Advances(b, tab, w.views[tab].serial)
  {
    hide AskOk, AnswerOk, ViewOk, Generation;
    Known(w);
    LastAsk(w, w.toDaemon[0]);
  }

  lemma StuckStep(w: World, a: Action, tab: u32)
    requires Valid(w) && !Confused(w, a) && LeavesAlone(a, tab) && tab in w.views && w.views[tab].pending && !Live(w, tab)
    ensures ValidSelection(SelectionOf(w.held))
    ensures var r := Act(w, a); tab in r.views && r.views[tab] == w.views[tab] && !Live(r, tab)
  {
    hide Valid, Confused, Generation, TakeAsk, TakeAnswer, SelectAll, ClearAll, Served, Is;
    HeldShape(w);
    var v, r := w.views[tab], Act(w, a);
    if a.Select? || a.Clear? {
      Elsewhere(w, a, tab);
      assert r.toDaemon == w.toDaemon + r.toDaemon[|w.toDaemon|..];
      ServedAppend(w.toDaemon, r.toDaemon[|w.toDaemon|..], Is(w.held, tab, v.serial), tab, v.serial);
    } else if a.ClientTakes? {
      if w.toClient == [] {
        Idle(w, a);
      } else {
        assert w.toClient[0] in w.toClient;
        AnswerElsewhere(w, tab);
        assert r.toDaemon == w.toDaemon + r.toDaemon[|w.toDaemon|..];
        ServedAppend(w.toDaemon, r.toDaemon[|w.toDaemon|..], Is(w.held, tab, v.serial), tab, v.serial);
      }
    } else if w.toDaemon == [] {
      Idle(w, a);
    } else if Advances(w.toDaemon[0], tab, v.serial) {
      AskHere(w, a.text, tab);
      NothingElse(w, tab);
      ServedFirst(w.toDaemon, Is(w.held, tab, v.serial), tab, v.serial);
      NotServed(w.toDaemon[1..], Is(r.held, tab, v.serial), tab, v.serial);
    } else {
      AskElsewhere(w, a.text, tab);
      ServedFirst(w.toDaemon, Is(w.held, tab, v.serial), tab, v.serial);
    }
  }

  lemma Idle(w: World, a: Action)
    requires ValidSelection(SelectionOf(w.held))
    requires (a.ClientTakes? && w.toClient == []) || (a.DaemonTakes? && w.toDaemon == [])
    ensures Act(w, a) == w
  {
  }

  lemma ServedFirst(asks: seq<Ask>, held: bool, tab: u32, serial: nat)
    requires asks != []
    ensures Served(asks, held, tab, serial) ==
      if Advances(asks[0], tab, serial) then asks[0].operation == SELECTION_START || held
      else Served(asks[1..], held && !Displaces(asks[0], tab, serial), tab, serial)
  {
    hide Advances, Displaces;
  }

  /** Once it is not live, a pending selection stays as it is until its own view selects or clears again. */
  lemma {:induction false} StuckForever(w: World, actions: seq<Action>, tab: u32)
    requires Valid(w) && tab in w.views && w.views[tab].pending && !Live(w, tab)
    requires (forall a | a in actions :: LeavesAlone(a, tab)) && Ran(w, actions).Some?
    ensures var r := Ran(w, actions).value; tab in r.views && r.views[tab] == w.views[tab] && !Live(r, tab)
    decreases |actions|
  {
    hide Valid, Confused, Act, Live;
    if actions != [] {
      assert actions[0] in actions;
      assert forall a | a in actions[1..] :: a in actions;
      StuckStep(w, actions[0], tab);
      ActKeeps(w, actions[0]);
      StuckForever(Act(w, actions[0]), actions[1..], tab);
    }
  }

  // ---- Delivering messages advances a live selection ----

  lemma DeliveryWindowed(w: World, a: Action)
    requires Valid(w) && Windowed(w) && (a.ClientTakes? || a.DaemonTakes?)
    ensures ValidSelection(SelectionOf(w.held))
    ensures !Confused(w, a) && Valid(Act(w, a)) && Windowed(Act(w, a))
  {
    WindowedIsClear(w, a);
    ActKeeps(w, a);
    hide Valid, Windowed, Confused, TakeAsk, TakeAnswer;
    match a
    case ClientTakes => ClientWindowed(w);
    case DaemonTakes(text) => DaemonWindowed(w, text);
  }

  lemma ClientWindowed(w: World)
    requires Windowed(w)
    ensures Windowed(TakeAnswer(w))
  {
    hide Generation;
    if w.toClient != [] {
      Shorter(w.toClient);
    }
  }

  lemma DaemonWindowed(w: World, text: seq<byte>)
    requires Windowed(w) && ValidSelection(SelectionOf(w.held))
    ensures Windowed(TakeAsk(w, text))
  {
    hide Generation;
    if w.toDaemon != [] {
      Shorter(w.toDaemon);
      var r := TakeAsk(w, text);
      assert forall b | b in r.toDaemon :: b in w.toDaemon;
      assert r.toClient == w.toClient + r.toClient[|w.toClient|..];
    }
  }

  /** The daemon taking requests until this selection's has been answered. */
  lemma {:induction false} Answered(w: World, tab: u32) returns (actions: seq<Action>)
    requires Valid(w) && Windowed(w) && tab in w.views && w.views[tab].pending
    requires Served(w.toDaemon, Is(w.held, tab, w.views[tab].serial), tab, w.views[tab].serial)
    ensures (forall a | a in actions :: a.DaemonTakes?) && Ran(w, actions).Some?
    ensures var r := Ran(w, actions).value;
      Windowed(r) && tab in r.views && r.views[tab] == w.views[tab] && Coming(r, tab, w.views[tab].serial)
    decreases |w.toDaemon|
  {
    hide Valid, Windowed, Confused, Act, TakeAsk, Generation, Is;
    var take := DaemonTakes([]);
    var v := w.views[tab];
    DeliveryWindowed(w, take);
    var r := Act(w, take);
    assert r == TakeAsk(w, []) by { ActIsTake(w, []); }
    ServedFirst(w.toDaemon, Is(w.held, tab, v.serial), tab, v.serial);
    if Advances(w.toDaemon[0], tab, v.serial) {
      AskHere(w, [], tab);
      assert r.toClient[|w.toClient|] in r.toClient;
      actions := [take];
      assert [take][1..] == [];
    } else {
      AskElsewhere(w, [], tab);
      var rest := Answered(r, tab);
      actions := [take] + rest;
      assert actions[0] == take && actions[1..] == rest;
    }
  }

  lemma ActIsTake(w: World, text: seq<byte>)
    requires ValidSelection(SelectionOf(w.held))
    ensures Act(w, DaemonTakes(text)) == TakeAsk(w, text)
  {
    hide TakeAsk;
  }

  /** The view taking its page: the text grows or the selection completes. */
  lemma AnswerHere(w: World, tab: u32)
    requires Valid(w) && w.toClient != [] && tab in w.views && w.views[tab].pending
    requires w.toClient[0].tab == tab && w.toClient[0].serial == w.views[tab].serial
    ensures var r, v, page := TakeAnswer(w), w.views[tab], w.toClient[0].page;
      && Wanted(v, page) && v.text.Some? && tab in r.views && r.views[tab] == Collected(v, page) && r.views[tab] != v
      && r.held == w.held && r.toClient == w.toClient[1..] && r.started == w.started
      && r.toDaemon == w.toDaemon + (if page.done then [] else [Ask(tab, v.serial, SELECTION_NEXT)])
      && (tab, v.serial) in w.started && v.text.value + page.bytes <= w.started[(tab, v.serial)]
      && (page.done <==> v.text.value + page.bytes == w.started[(tab, v.serial)])
      && (!page.done ==> |page.bytes| == PAGE_BYTES)
  {
    hide Generation, AskCount, AnswerCount, AskOk;
    var a := w.toClient[0];
    assert a in w.toClient;
    assert AnswerOk(w, a) && ViewOk(w, tab);
  }

  /** The client taking answers until this view has had its own. */
  lemma {:induction false} Delivered(w: World, tab: u32) returns (actions: seq<Action>)
    requires Valid(w) && Windowed(w) && tab in w.views && w.views[tab].pending && Coming(w, tab, w.views[tab].serial)
    ensures (forall a | a in actions :: a.ClientTakes?) && Ran(w, actions).Some?
    ensures var r := Ran(w, actions).value; tab in r.views && r.views[tab] != w.views[tab]
    decreases |w.toClient|
  {
    hide Valid, Windowed, Confused, Act, TakeAnswer, Generation;
    DeliveryWindowed(w, ClientTakes);
    var r := Act(w, ClientTakes);
    assert r == TakeAnswer(w) by { ActIsAnswer(w); }
    var a :| a in w.toClient && a.tab == tab && a.serial == w.views[tab].serial;
    if w.toClient[0].tab == tab && w.toClient[0].serial == w.views[tab].serial {
      AnswerHere(w, tab);
      actions := [ClientTakes];
      assert [ClientTakes][1..] == [];
    } else {
      AnswerElsewhere(w, tab);
      assert a in w.toClient[1..];
      var rest := Delivered(r, tab);
      actions := [ClientTakes] + rest;
      assert actions[0] == ClientTakes && actions[1..] == rest;
    }
  }

  lemma ActIsAnswer(w: World)
    requires ValidSelection(SelectionOf(w.held))
    ensures Act(w, ClientTakes) == TakeAnswer(w)
  {
    hide TakeAnswer;
  }

  /** Some run, in which the view's user does nothing, changes the view. */
  ghost predicate CanAdvance(w: World, tab: u32)
    requires Valid(w) && tab in w.views
  {
    exists actions: seq<Action> ::
      && (forall a | a in actions :: LeavesAlone(a, tab)) && Ran(w, actions).Some?
      && tab in Ran(w, actions).value.views && Ran(w, actions).value.views[tab] != w.views[tab]
  }

  /**
   The exact condition: a pending selection can advance without its user if and only if its answer is in
   flight, or its request is, and that is a START or will find the snapshot still held.
   */
  lemma AdvancesIfLive(w: World, tab: u32)
    requires Valid(w) && Windowed(w) && tab in w.views && w.views[tab].pending
    ensures CanAdvance(w, tab) <==> Live(w, tab)
  {
    hide Valid, Windowed, Confused, Act, Served, Is, Coming, Ran;
    if Live(w, tab) {
      if Coming(w, tab, w.views[tab].serial) {
        var taken := Delivered(w, tab);
        assert CanAdvance(w, tab);
      } else {
        var served := Answered(w, tab);
        var answered := Ran(w, served).value;
        var taken := Delivered(answered, tab);
        RanAppend(w, served, taken);
        assert forall a | a in served + taken :: LeavesAlone(a, tab);
        assert CanAdvance(w, tab);
      }
    } else if CanAdvance(w, tab) {
      var actions :| (forall a | a in actions :: LeavesAlone(a, tab)) && Ran(w, actions).Some?
        && tab in Ran(w, actions).value.views && Ran(w, actions).value.views[tab] != w.views[tab];
      StuckForever(w, actions, tab);
    }
  }

  /**
   The promise that every uncancelled selection ends is not kept: one snapshot per connection means that a
   second tab's START displaces the first one's, whose next request is then lost. The first view is left
   pending, with nothing in flight for it, and stays so whatever anyone but its own user does.
   */
  lemma DisplacedIsStuck(a: u32, b: u32, long: seq<byte>, text: seq<byte>, later: seq<Action>)
    requires a != b && |long| > PAGE_BYTES
    requires forall x | x in later :: LeavesAlone(x, a)
    ensures var actions := [Select(a), DaemonTakes(long), Select(b), DaemonTakes(text), ClientTakes, DaemonTakes([])];
      && Reached({a, b}, actions).Some?
      && var w := Reached({a, b}, actions).value;
         && a in w.views && w.views[a] == View(1, Some(long[..PAGE_BYTES]), true, 1) && !Live(w, a)
         && (Ran(w, later).Some? ==>
               a in Ran(w, later).value.views && Ran(w, later).value.views[a] == w.views[a])
  {
    var actions := [Select(a), DaemonTakes(long), Select(b), DaemonTakes(text), ClientTakes, DaemonTakes([])];
    StartValid({a, b});
    SerialsStart({a, b});
    ShortRunsStay(Start({a, b}), actions, 0);
    Displaced(a, b, long, text);
    hide Valid, Act, Live, Confused;
    var w := Reached({a, b}, actions).value;
    RanIsWild(Start({a, b}), actions);
    if Ran(w, later).Some? {
      StuckForever(w, later, a);
    }
  }

  lemma SerialsStart(tabs: set<u32>)
    ensures SerialsBelow(Start(tabs), 0)
  {
  }

  lemma {:induction false} RanIsWild(w: World, actions: seq<Action>)
    requires Valid(w) && Ran(w, actions).Some?
    ensures ValidSelection(SelectionOf(w.held)) && Ran(w, actions).value == Wild(w, actions)
    decreases |actions|
  {
    hide Valid, Confused, Act;
    HeldShape(w);
    if actions != [] {
      ActKeeps(w, actions[0]);
      RanIsWild(Act(w, actions[0]), actions[1..]);
    }
  }

  lemma WildStep(w: World, a: Action, rest: seq<Action>)
    requires ValidSelection(SelectionOf(w.held))
    ensures ValidSelection(SelectionOf(Act(w, a).held)) && Wild(w, [a] + rest) == Wild(Act(w, a), rest)
  {
    ActShape(w, a);
    hide Act;
    assert ([a] + rest)[1..] == rest;
  }

  /** The six steps of the displacement, one by one. */
  lemma Displaced(a: u32, b: u32, long: seq<byte>, text: seq<byte>)
    requires a != b && |long| > PAGE_BYTES
    ensures var w := Wild(Start({a, b}), [Select(a), DaemonTakes(long), Select(b), DaemonTakes(text), ClientTakes, DaemonTakes([])]);
      a in w.views && w.views[a] == View(1, Some(long[..PAGE_BYTES]), true, 1) && !Live(w, a)
  {
    var w0 := Start({a, b});
    var w1 := Act(w0, Select(a));
    var w2, w3 := DisplacedHalf(a, b, long);
    DisplacedRest(w3, a, b, long, text);
    hide Act, Live;
    WildStep(w0, Select(a), [DaemonTakes(long), Select(b), DaemonTakes(text), ClientTakes, DaemonTakes([])]);
    WildStep(w1, DaemonTakes(long), [Select(b), DaemonTakes(text), ClientTakes, DaemonTakes([])]);
    WildStep(w2, Select(b), [DaemonTakes(text), ClientTakes, DaemonTakes([])]);
    assert [Select(a)] + [DaemonTakes(long), Select(b), DaemonTakes(text), ClientTakes, DaemonTakes([])]
        == [Select(a), DaemonTakes(long), Select(b), DaemonTakes(text), ClientTakes, DaemonTakes([])];
    assert [DaemonTakes(long)] + [Select(b), DaemonTakes(text), ClientTakes, DaemonTakes([])]
        == [DaemonTakes(long), Select(b), DaemonTakes(text), ClientTakes, DaemonTakes([])];
    assert [Select(b)] + [DaemonTakes(text), ClientTakes, DaemonTakes([])] == [Select(b), DaemonTakes(text), ClientTakes, DaemonTakes([])];
  }

  /** The first page of one tab is in flight, and so is the other tab's START. */
  predicate Crossing(w: World, a: u32, b: u32, long: seq<byte>)
    requires |long| > PAGE_BYTES
  {
    && a in w.views && w.views[a] == View(1, Some([]), true, 0) && b in w.views
    && w.toClient == [Answer(a, 1, Page(Generation(1), false, long[..PAGE_BYTES]))]
    && w.toDaemon == [Ask(b, 1, SELECTION_START)]
    && ValidSelection(SelectionOf(w.held))
  }

  lemma DisplacedHalf(a: u32, b: u32, long: seq<byte>) returns (w2: World, w3: World)
    requires a != b && |long| > PAGE_BYTES
    ensures ValidSelection(SelectionOf(Act(Start({a, b}), Select(a)).held))
    ensures w2 == Act(Act(Start({a, b}), Select(a)), DaemonTakes(long))
    ensures ValidSelection(SelectionOf(w2.held)) && w3 == Act(w2, Select(b)) && Crossing(w3, a, b, long)
  {
    hide Generation;
    var w1 := Act(Start({a, b}), Select(a));
    assert w1.toDaemon == [Ask(a, 1, SELECTION_START)];
    w2 := Act(w1, DaemonTakes(long));
    assert long[0..PAGE_BYTES] == long[..PAGE_BYTES];
    assert w2.toDaemon == [];
    w3 := Act(w2, Select(b));
  }

  lemma DisplacedRest(w: World, a: u32, b: u32, long: seq<byte>, text: seq<byte>)
    requires a != b && |long| > PAGE_BYTES && Crossing(w, a, b, long)
    ensures var r := Wild(w, [DaemonTakes(text), ClientTakes, DaemonTakes([])]);
      a in r.views && r.views[a] == View(1, Some(long[..PAGE_BYTES]), true, 1) && !Live(r, a)
  {
    hide Generation;
    var w4 := Act(w, DaemonTakes(text));
    var w5 := Act(w4, ClientTakes);
    assert [] + long[..PAGE_BYTES] == long[..PAGE_BYTES];
    assert w5.toDaemon == [Ask(a, 1, SELECTION_NEXT)];
    var w6 := Act(w5, DaemonTakes([]));
    assert w6.toDaemon == [] && !Coming(w6, a, 1);
    assert !Live(w6, a);
    hide Act, Live;
    WildStep(w, DaemonTakes(text), [ClientTakes, DaemonTakes([])]);
    WildStep(w4, ClientTakes, [DaemonTakes([])]);
    WildStep(w5, DaemonTakes([]), []);
    assert [DaemonTakes(text)] + [ClientTakes, DaemonTakes([])] == [DaemonTakes(text), ClientTakes, DaemonTakes([])];
    assert [ClientTakes] + [DaemonTakes([])] == [ClientTakes, DaemonTakes([])] && [DaemonTakes([])] + [] == [DaemonTakes([])];
  }

  // ---- An undisturbed selection ends ----

  /**
   Nothing on its way to the daemon takes the snapshot from the pending selection, its START is still to come
   or its snapshot is held as long as a page is missing, and one of its messages is in flight.
   */
  predicate Undisturbed(w: World, tab: u32)
    requires tab in w.views
  {
    var v := w.views[tab];
    && v.pending
    && (forall a | a in w.toDaemon && Displaces(a, tab, v.serial) :: Advances(a, tab, v.serial))
    && (forall a | a in w.toDaemon && a == Ask(tab, v.serial, SELECTION_NEXT) :: Is(w.held, tab, v.serial))
    && (forall a | a in w.toClient && a.tab == tab && a.serial == v.serial && !a.page.done :: Is(w.held, tab, v.serial))
    && (Coming(w, tab, v.serial) || exists a :: a in w.toDaemon && Advances(a, tab, v.serial))
  }

  predicate Ended(w: World, tab: u32, serial: nat) {
    tab in w.views && w.views[tab].serial == serial && !w.views[tab].pending && w.views[tab].text.Some?
  }

  /** Any view's selecting, and this one's clearing. */
  predicate Disturbs(a: Action, tab: u32) {
    a.Select? || a == Clear(tab)
  }

  /** A selection started while no START is on its way is undisturbed. */
  lemma SelectedIsUndisturbed(w: World, tab: u32)
    requires Valid(w) && tab in w.views && forall a | a in w.toDaemon :: a.operation != SELECTION_START
    ensures var r := SelectAll(w, tab); tab in r.views && r.views[tab].text == Some([]) && Undisturbed(r, tab)
  {
    hide Valid, Generation, AskCount, AnswerCount;
    ClearAllKeeps(w, tab);
    var c, r, serial := ClearAll(w, tab), SelectAll(w, tab), w.views[tab].serial + 1;
    var start := Ask(tab, serial, SELECTION_START);
    assert r.toDaemon == c.toDaemon + [start];
    assert start in r.toDaemon && Advances(start, tab, serial);
    assert forall a | a in c.toDaemon && a.tab == tab :: a.serial < serial;
  }

  lemma {:induction false} UndisturbedServed(s: seq<Ask>, held: bool, tab: u32, serial: nat)
    requires forall a | a in s && Displaces(a, tab, serial) :: Advances(a, tab, serial)
    requires exists a :: a in s && Advances(a, tab, serial)
    requires forall a | a in s && a == Ask(tab, serial, SELECTION_NEXT) :: held
    ensures Served(s, held, tab, serial)
  {
    hide Displaces;
    assert s[0] in s;
    assert forall a | a in s[1..] :: a in s;
    if Advances(s[0], tab, serial) {
      assert s[0] == Ask(tab, serial, s[0].operation);
    } else {
      var a :| a in s && Advances(a, tab, serial);
      assert a in s[1..];
      assert !Displaces(s[0], tab, serial);
      UndisturbedServed(s[1..], held, tab, serial);
    }
  }

  lemma UndisturbedIsLive(w: World, tab: u32)
    requires tab in w.views && Undisturbed(w, tab)
    ensures Live(w, tab)
  {
    hide Displaces, Advances, Is;
    var v := w.views[tab];
    if !Coming(w, tab, v.serial) {
      UndisturbedServed(w.toDaemon, Is(w.held, tab, v.serial), tab, v.serial);
    }
  }

  lemma UndisturbedStep(w: World, a: Action, tab: u32)
    requires Valid(w) && !Confused(w, a) && !Disturbs(a, tab) && tab in w.views && Undisturbed(w, tab)
    ensures ValidSelection(SelectionOf(w.held))
    ensures var r := Act(w, a);
      tab in r.views && (if r.views[tab].pending then r.views[tab].serial == w.views[tab].serial && Undisturbed(r, tab)
                         else Ended(r, tab, w.views[tab].serial))
  {
    hide Valid, Confused, Generation, TakeAsk, TakeAnswer, SelectAll, ClearAll, Is;
    HeldShape(w);
    var v, r := w.views[tab], Act(w, a);
    if a.Clear? {
      Elsewhere(w, a, tab);
      Longer(w.toDaemon, r.toDaemon);
    } else if a.ClientTakes? {
      if w.toClient == [] {
        Idle(w, a);
      } else if w.toClient[0].tab == tab && w.toClient[0].serial == v.serial {
        UndisturbedTakes(w, tab);
      } else {
        AnswerElsewhere(w, tab);
        Longer(w.toDaemon, r.toDaemon);
        Shorter(w.toClient);
      }
    } else if w.toDaemon == [] {
      Idle(w, a);
    } else if Advances(w.toDaemon[0], tab, v.serial) {
      UndisturbedAsks(w, a.text, tab);
    } else {
      assert w.toDaemon[0] in w.toDaemon;
      AskElsewhere(w, a.text, tab);
      Shorter(w.toDaemon);
    }
  }

  lemma Longer<T>(a: seq<T>, b: seq<T>)
    requires a <= b
    ensures forall x :: x in b <==> x in a || x in b[|a|..]
  {
    assert b == a + b[|a|..];
  }

  lemma Shorter<T>(s: seq<T>)
    requires s != []
    ensures forall x :: x in s <==> x == s[0] || x in s[1..]
  {
    assert s == [s[0]] + s[1..];
  }

  /** Its own page is taken: it ends, or asks for the next one, which the daemon still holds. */
  lemma UndisturbedTakes(w: World, tab: u32)
    requires Valid(w) && tab in w.views && Undisturbed(w, tab) && w.toClient != []
    requires w.toClient[0].tab == tab && w.toClient[0].serial == w.views[tab].serial
    ensures var r := TakeAnswer(w);
      tab in r.views && r.views[tab].serial == w.views[tab].serial
      && (if r.views[tab].pending then Undisturbed(r, tab) else Ended(r, tab, w.views[tab].serial))
  {
    hide Valid, Generation, TakeAnswer, Is;
    var r := TakeAnswer(w);
    assert w.toClient[0] in w.toClient;
    AnswerHere(w, tab);
    LastMessage(w, w.toClient[0]);
    Shorter(w.toClient);
    var next := Ask(tab, w.views[tab].serial, SELECTION_NEXT);
    if r.views[tab].pending {
      assert r.toDaemon == w.toDaemon + [next];
      assert next in r.toDaemon;
    }
  }

  /** Its own request is taken: the answer is on its way. */
  lemma UndisturbedAsks(w: World, text: seq<byte>, tab: u32)
    requires Valid(w) && !Confused(w, DaemonTakes(text)) && tab in w.views && Undisturbed(w, tab) && w.toDaemon != []
    requires Advances(w.toDaemon[0], tab, w.views[tab].serial)
    ensures ValidSelection(SelectionOf(w.held))
    ensures var r := TakeAsk(w, text); r.views == w.views && Undisturbed(r, tab) && Coming(r, tab, w.views[tab].serial)
  {
    hide Valid, Confused, Generation, TakeAsk, Is;
    assert w.toDaemon[0] in w.toDaemon;
    assert w.toDaemon[0] == Ask(tab, w.views[tab].serial, w.toDaemon[0].operation);
    AskHere(w, text, tab);
    NothingElse(w, tab);
    Shorter(w.toDaemon);
    var r := TakeAsk(w, text);
    assert r.toClient == w.toClient + [r.toClient[|w.toClient|]];
    assert r.toClient[|w.toClient|] in r.toClient;
  }

  /**
   An undisturbed selection never gets stuck: through any deliveries in any order, and other views' clears, it
   stays undisturbed, and so live, until it completes.
   */
  lemma {:induction false} NeverStuck(w: World, actions: seq<Action>, tab: u32)
    requires Valid(w) && tab in w.views && (Undisturbed(w, tab) || Ended(w, tab, w.views[tab].serial))
    requires (forall a | a in actions :: !Disturbs(a, tab)) && Ran(w, actions).Some?
    ensures var r := Ran(w, actions).value;
      && tab in r.views && r.views[tab].serial == w.views[tab].serial
      && ((Undisturbed(r, tab) && Live(r, tab)) || Ended(r, tab, w.views[tab].serial))
    decreases |actions|
  {
    hide Valid, Confused, Act, Undisturbed, Live;
    if actions == [] {
      if Undisturbed(w, tab) {
        UndisturbedIsLive(w, tab);
      }
    } else {
      assert actions[0] in actions;
      assert forall a | a in actions[1..] :: a in actions;
      ActKeeps(w, actions[0]);
      if Undisturbed(w, tab) {
        UndisturbedStep(w, actions[0], tab);
      } else {
        EndedStays(w, actions[0], tab);
      }
      NeverStuck(Act(w, actions[0]), actions[1..], tab);
    }
  }

  lemma EndedStays(w: World, a: Action, tab: u32)
    requires Valid(w) && !Disturbs(a, tab) && tab in w.views && Ended(w, tab, w.views[tab].serial)
    ensures ValidSelection(SelectionOf(w.held))
    ensures var r := Act(w, a); tab in r.views && r.views[tab] == w.views[tab]
  {
    HeldShape(w);
    hide Valid, Generation;
  }

  // ---- In how many rounds ----

  function DrainDaemon(w: World, text: seq<byte>): (r: World)
    requires ValidSelection(SelectionOf(w.held))
    ensures ValidSelection(SelectionOf(r.held)) && r.toDaemon == []
    decreases |w.toDaemon|
  {
    if w.toDaemon == [] then w else DrainDaemon(TakeAsk(w, text), text)
  }

  function DrainClient(w: World): (r: World)
    ensures r.held == w.held
    decreases |w.toClient|
  {
    if w.toClient == [] then w else DrainClient(TakeAnswer(w))
  }

  /** Everything on its way to the daemon arrives, and then everything on its way to the client. */
  function Rounds(w: World, text: seq<byte>, n: nat): (r: World)
    requires ValidSelection(SelectionOf(w.held))
    decreases n
  {
    if n == 0 then w else Rounds(DrainClient(DrainDaemon(w, text)), text, n - 1)
  }

  /** The text the selection is after: its snapshot, or what its START is about to find. */
  function Goal(w: World, tab: u32, text: seq<byte>): seq<byte>
    requires tab in w.views
  {
    if (tab, w.views[tab].serial) in w.started then w.started[(tab, w.views[tab].serial)] else text
  }

  lemma {:induction false} DaemonDrained(w: World, text: seq<byte>, tab: u32)
    requires Valid(w) && Windowed(w) && tab in w.views && Undisturbed(w, tab)
    ensures ValidSelection(SelectionOf(w.held))
    ensures var r := DrainDaemon(w, text);
      && Valid(r) && Windowed(r) && tab in r.views && r.views[tab] == w.views[tab] && Undisturbed(r, tab)
      && Goal(r, tab, text) == Goal(w, tab, text)
    decreases |w.toDaemon|
  {
    hide Valid, Windowed, Confused, Act, TakeAsk, Undisturbed, Goal;
    HeldShape(w);
    if w.toDaemon != [] {
      DeliveryWindowed(w, DaemonTakes(text));
      ActIsTake(w, text);
      GoalKept(w, text, tab);
      DaemonDrained(TakeAsk(w, text), text, tab);
    }
  }

  lemma GoalKept(w: World, text: seq<byte>, tab: u32)
    requires Valid(w) && !Confused(w, DaemonTakes(text)) && tab in w.views && Undisturbed(w, tab) && w.toDaemon != []
    ensures ValidSelection(SelectionOf(w.held))
    ensures var r := TakeAsk(w, text);
      tab in r.views && r.views == w.views && Undisturbed(r, tab) && Goal(r, tab, text) == Goal(w, tab, text)
      && |r.toDaemon| < |w.toDaemon|
  {
    HeldShape(w);
    UndisturbedStep(w, DaemonTakes(text), tab);
    ActIsTake(w, text);
    NotStartedYet(w, tab);
    hide Valid, Confused, Generation, TakeAsk, Undisturbed, Is;
    if Advances(w.toDaemon[0], tab, w.views[tab].serial) {
      UndisturbedAsks(w, text, tab);
      AskHere(w, text, tab);
      HeldForNext(w, tab);
    } else {
      AskElsewhere(w, text, tab);
    }
  }

  lemma HeldForNext(w: World, tab: u32)
    requires tab in w.views && Undisturbed(w, tab) && w.toDaemon != []
    requires Advances(w.toDaemon[0], tab, w.views[tab].serial)
    ensures w.toDaemon[0].operation == SELECTION_START || Is(w.held, tab, w.views[tab].serial)
  {
    hide Is;
    assert w.toDaemon[0] in w.toDaemon;
    assert w.toDaemon[0] == Ask(tab, w.views[tab].serial, w.toDaemon[0].operation);
  }

  lemma NotStartedYet(w: World, tab: u32)
    requires Valid(w) && tab in w.views && w.toDaemon != []
    ensures w.toDaemon[0].tab == tab && w.toDaemon[0].serial == w.views[tab].serial && w.toDaemon[0].operation == SELECTION_START ==>
      (tab, w.views[tab].serial) !in w.started
  {
    hide AnswerOk, ViewOk, Generation;
    assert w.toDaemon[0] in w.toDaemon;
    assert AskOk(w, w.toDaemon[0]);
  }

  /** One page further, or done with the whole text. */
  predicate PageOn(v: View, r: World, tab: u32, all: seq<byte>) {
    && tab in r.views && r.views[tab].serial == v.serial && v.text.Some? && r.views[tab].text.Some?
    && (if r.views[tab].pending then
          Undisturbed(r, tab) && |r.views[tab].text.value| == |v.text.value| + PAGE_BYTES <= |all|
        else r.views[tab].text.value == all)
  }

  lemma {:induction false} ClientDrained(w: World, text: seq<byte>, tab: u32)
    requires Valid(w) && Windowed(w) && tab in w.views && Undisturbed(w, tab) && Coming(w, tab, w.views[tab].serial)
    ensures var r := DrainClient(w);
      && Valid(r) && Windowed(r) && PageOn(w.views[tab], r, tab, Goal(w, tab, text)) && Goal(r, tab, text) == Goal(w, tab, text)
    decreases |w.toClient|
  {
    hide Valid, Windowed, Confused, Act, TakeAnswer, Undisturbed, Is, Generation;
    DeliveryWindowed(w, ClientTakes);
    ActIsAnswer(w);
    var a :| a in w.toClient && a.tab == tab && a.serial == w.views[tab].serial;
    var r := TakeAnswer(w);
    if w.toClient[0].tab == tab && w.toClient[0].serial == w.views[tab].serial {
      StillPending(w, tab);
      AnswerHere(w, tab);
      LastMessage(w, w.toClient[0]);
      UndisturbedTakes(w, tab);
      RestDrained(r, tab);
    } else {
      StillPending(w, tab);
      UndisturbedStep(w, ClientTakes, tab);
      AnswerElsewhere(w, tab);
      assert a in r.toClient;
      ClientDrained(r, text, tab);
    }
  }

  lemma StillPending(w: World, tab: u32)
    requires tab in w.views && Undisturbed(w, tab)
    ensures w.views[tab].pending
  {
    hide Is;
  }

  /** Answers for other selections pass by. */
  lemma {:induction false} RestDrained(w: World, tab: u32)
    requires Valid(w) && Windowed(w) && tab in w.views && !Coming(w, tab, w.views[tab].serial)
    ensures var r := DrainClient(w);
      && Valid(r) && Windowed(r) && tab in r.views && r.views[tab] == w.views[tab] && r.started == w.started
      && (Undisturbed(w, tab) ==> Undisturbed(r, tab))
    decreases |w.toClient|
  {
    hide Valid, Windowed, Confused, Act, TakeAnswer, Undisturbed, Generation;
    if w.toClient != [] {
      DeliveryWindowed(w, ClientTakes);
      ActIsAnswer(w);
      assert w.toClient[0] in w.toClient;
      AnswerElsewhere(w, tab);
      if Undisturbed(w, tab) {
        StillPending(w, tab);
        UndisturbedStep(w, ClientTakes, tab);
      }
      Shorter(w.toClient);
      RestDrained(TakeAnswer(w), tab);
    }
  }

  /**
   An undisturbed selection ends: after one round for every full page still missing and one more, the view has
   completed with exactly its snapshot.
   */
  lemma {:induction false} EndsInRounds(w: World, text: seq<byte>, tab: u32)
    requires Valid(w) && Windowed(w) && tab in w.views && Undisturbed(w, tab) && w.views[tab].text.Some?
    requires |w.views[tab].text.value| <= |Goal(w, tab, text)|
    ensures ValidSelection(SelectionOf(w.held))
    ensures exists n: nat ::
      && n <= (|Goal(w, tab, text)| - |w.views[tab].text.value|) / PAGE_BYTES + 1
      && Ended(Rounds(w, text, n), tab, w.views[tab].serial)
      && Rounds(w, text, n).views[tab].text == Some(Goal(w, tab, text))
    decreases |Goal(w, tab, text)| - |w.views[tab].text.value|
  {
    hide Valid, Windowed, Undisturbed, DrainDaemon, DrainClient, Goal;
    HeldShape(w);
    var all, v := Goal(w, tab, text), w.views[tab];
    DaemonDrained(w, text, tab);
    var served := DrainDaemon(w, text);
    NothingAsked(served, tab);
    ClientDrained(served, text, tab);
    var r := DrainClient(served);
    assert Rounds(w, text, 1) == r by { assert Rounds(r, text, 0) == r; }
    if r.views[tab].pending {
      HeldShape(r);
      EndsInRounds(r, text, tab);
      var n: nat :| n <= (|all| - |r.views[tab].text.value|) / PAGE_BYTES + 1 &&
        Ended(Rounds(r, text, n), tab, v.serial) && Rounds(r, text, n).views[tab].text == Some(all);
      OnePageLess(|all| - |v.text.value|);
      assert Rounds(w, text, n + 1) == Rounds(r, text, n);
    } else {
      assert Ended(Rounds(w, text, 1), tab, v.serial);
    }
  }

  lemma OnePageLess(n: nat)
    requires n >= PAGE_BYTES
    ensures (n - PAGE_BYTES) / PAGE_BYTES + 1 == n / PAGE_BYTES
  {
  }

  lemma NothingAsked(w: World, tab: u32)
    requires tab in w.views && Undisturbed(w, tab) && w.toDaemon == []
    ensures Coming(w, tab, w.views[tab].serial)
  {
    hide Is, Coming;
  }
}
