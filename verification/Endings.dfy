/**
 Exactly when a pending selection can still end: not when it can still advance, for a request of another tab
 behind its own may take the snapshot away before the page after next.
 */
module Endings {
  import opened Bytes
  import opened Paging
  import opened Selections
  import opened Progress

  /** What the daemon holds of this selection: whether its next page is the last. */
  function Grip(h: Option<Held>, tab: u32, serial: nat): (g: Option<bool>) {
    if Is(h, tab, serial) then Some(LastPage(h.value)) else None
  }

  predicate NoneDisplaces(asks: seq<Ask>, tab: u32, serial: nat) {
    forall a | a in asks :: !Displaces(a, tab, serial)
  }

  /**
   The selection's request in line will be answered when its turn comes, and by its last page unless nothing
   behind it displaces the snapshot. `fits`: a START would find no more than one page.
   */
  predicate Finishes(asks: seq<Ask>, grip: Option<bool>, fits: bool, tab: u32, serial: nat) {
    if asks == [] then false
    else if Advances(asks[0], tab, serial) then
      if asks[0].operation == SELECTION_START then fits || NoneDisplaces(asks[1..], tab, serial)
      else grip.Some? && (grip.value || NoneDisplaces(asks[1..], tab, serial))
    else Finishes(asks[1..], if Displaces(asks[0], tab, serial) then None else grip, fits, tab, serial)
  }

  /** Its answer is in flight, and is the last one, or nothing on its way displaces the snapshot still held. */
  predicate Promised(w: World, tab: u32, serial: nat) {
    exists a :: a in w.toClient && a.tab == tab && a.serial == serial &&
      (a.page.done || (Is(w.held, tab, serial) && NoneDisplaces(w.toDaemon, tab, serial)))
  }

  /** A pending selection that can still end, if its START, when still on its way, is to find `text`. */
  predicate Endable(w: World, tab: u32, text: seq<byte>)
    requires tab in w.views
  {
    var v := w.views[tab];
    v.pending &&
    (Promised(w, tab, v.serial) || Finishes(w.toDaemon, Grip(w.held, tab, v.serial), |text| <= PAGE_BYTES, tab, v.serial))
  }

  // ---- Requests added at the end of the line ----

  lemma NoneDisplacesConcat(s: seq<Ask>, t: seq<Ask>, tab: u32, serial: nat)
    ensures NoneDisplaces(s + t, tab, serial) <==> NoneDisplaces(s, tab, serial) && NoneDisplaces(t, tab, serial)
  {
    hide Displaces;
    assert forall a :: a in s + t <==> a in s || a in t;
  }

  lemma NoneDisplacesFirst(s: seq<Ask>, tab: u32, serial: nat)
    requires s != []
    ensures NoneDisplaces(s, tab, serial) <==> !Displaces(s[0], tab, serial) && NoneDisplaces(s[1..], tab, serial)
  {
    hide Displaces;
    Shorter(s);
  }

  /** Requests that do not advance the selection cannot help it, and do not hurt it unless they displace. */
  lemma {:induction false} FinishesAppend(s: seq<Ask>, t: seq<Ask>, grip: Option<bool>, fits: bool, tab: u32, serial: nat)
    requires forall a | a in t :: !Advances(a, tab, serial)
    ensures Finishes(s + t, grip, fits, tab, serial) ==> Finishes(s, grip, fits, tab, serial)
    ensures NoneDisplaces(t, tab, serial) ==> Finishes(s + t, grip, fits, tab, serial) == Finishes(s, grip, fits, tab, serial)
    decreases |s|
  {
    hide Advances, Displaces, NoneDisplaces;
    if s == [] {
      assert s + t == t;
      NeverFinishes(t, grip, fits, tab, serial);
    } else {
      assert (s + t)[0] == s[0] && (s + t)[1..] == s[1..] + t;
      NoneDisplacesConcat(s[1..], t, tab, serial);
      if !Advances(s[0], tab, serial) {
        FinishesAppend(s[1..], t, if Displaces(s[0], tab, serial) then None else grip, fits, tab, serial);
      }
    }
  }

  lemma {:induction false} NeverFinishes(s: seq<Ask>, grip: Option<bool>, fits: bool, tab: u32, serial: nat)
    requires forall a | a in s :: !Advances(a, tab, serial)
    ensures !Finishes(s, grip, fits, tab, serial)
  {
    hide Advances, Displaces, NoneDisplaces;
    if s != [] {
      assert s[0] in s;
      Shorter(s);
      NeverFinishes(s[1..], if Displaces(s[0], tab, serial) then None else grip, fits, tab, serial);
    }
  }

  /** A NEXT at the end of the line is answered exactly when nothing before it displaces a held snapshot. */
  lemma {:induction false} NextFinishes(s: seq<Ask>, grip: Option<bool>, fits: bool, tab: u32, serial: nat)
    requires forall a | a in s :: !Advances(a, tab, serial)
    ensures Finishes(s + [Ask(tab, serial, SELECTION_NEXT)], grip, fits, tab, serial) == (grip.Some? && NoneDisplaces(s, tab, serial))
    decreases |s|
  {
    var next := Ask(tab, serial, SELECTION_NEXT);
    if s == [] {
      assert s + [next] == [next] && [next][1..] == [];
    } else {
      hide Advances, Displaces, NoneDisplaces;
      assert s[0] in s;
      Shorter(s);
      NoneDisplacesFirst(s, tab, serial);
      assert (s + [next])[0] == s[0] && (s + [next])[1..] == s[1..] + [next];
      NextFinishes(s[1..], if Displaces(s[0], tab, serial) then None else grip, fits, tab, serial);
    }
  }

  lemma FinishesFirst(asks: seq<Ask>, grip: Option<bool>, fits: bool, tab: u32, serial: nat)
    requires asks != []
    ensures Finishes(asks, grip, fits, tab, serial) ==
      if Advances(asks[0], tab, serial) then
        if asks[0].operation == SELECTION_START then fits || NoneDisplaces(asks[1..], tab, serial)
        else grip.Some? && (grip.value || NoneDisplaces(asks[1..], tab, serial))
      else Finishes(asks[1..], if Displaces(asks[0], tab, serial) then None else grip, fits, tab, serial)
  {
    hide Advances, Displaces, NoneDisplaces;
  }

  // ---- Every step ----

  /** What a step does to a pending selection that can, or cannot, end. */
  predicate Settles(w: World, r: World, tab: u32, text: seq<byte>, delivery: bool)
    requires tab in w.views
  {
    && tab in r.views && r.views[tab].serial == w.views[tab].serial
    && (!Endable(w, tab, text) ==> r.views[tab].pending && !Endable(r, tab, text))
    && (Endable(w, tab, text) && delivery ==>
          if r.views[tab].pending then Endable(r, tab, text) else Ended(r, tab, w.views[tab].serial))
  }

  lemma ElsewhereSettles(w: World, a: Action, tab: u32, text: seq<byte>)
    requires Valid(w) && LeavesAlone(a, tab) && (a.Select? || a.Clear?) && tab in w.views && w.views[tab].pending
    ensures ValidSelection(SelectionOf(w.held)) && Settles(w, Act(w, a), tab, text, false)
  {
    HeldShape(w);
    hide Valid, Act, Finishes, NoneDisplaces, Displaces;
    Elsewhere(w, a, tab);
    var r, serial := Act(w, a), w.views[tab].serial;
    var more := r.toDaemon[|w.toDaemon|..];
    assert r.toDaemon == w.toDaemon + more;
    FinishesAppend(w.toDaemon, more, Grip(w.held, tab, serial), |text| <= PAGE_BYTES, tab, serial);
    NoneDisplacesConcat(w.toDaemon, more, tab, serial);
  }

  lemma OtherAnswerSettles(w: World, tab: u32, text: seq<byte>)
    requires Valid(w) && !Confused(w, ClientTakes) && tab in w.views && w.views[tab].pending && w.toClient != []
    requires w.toClient[0].tab != tab || w.toClient[0].serial != w.views[tab].serial
    ensures Settles(w, TakeAnswer(w), tab, text, true)
  {
    hide Valid, Confused, TakeAnswer, Finishes;
    AnswerElsewhere(w, tab);
    Shorter(w.toClient);
    var r, serial := TakeAnswer(w), w.views[tab].serial;
    var more := r.toDaemon[|w.toDaemon|..];
    assert r.toDaemon == w.toDaemon + more;
    assert NoneDisplaces(more, tab, serial);
    FinishesAppend(w.toDaemon, more, Grip(w.held, tab, serial), |text| <= PAGE_BYTES, tab, serial);
    NoneDisplacesConcat(w.toDaemon, more, tab, serial);
  }

  lemma OwnAnswerSettles(w: World, tab: u32, text: seq<byte>)
    requires Valid(w) && tab in w.views && w.views[tab].pending && w.toClient != []
    requires w.toClient[0].tab == tab && w.toClient[0].serial == w.views[tab].serial
    ensures Settles(w, TakeAnswer(w), tab, text, true)
  {
    hide Valid, TakeAnswer, Finishes, NoneDisplaces;
    AnswerHere(w, tab);
    LastMessage(w, w.toClient[0]);
    Shorter(w.toClient);
    assert w.toClient[0] in w.toClient;
    var serial, grip, fits := w.views[tab].serial, Grip(w.held, tab, w.views[tab].serial), |text| <= PAGE_BYTES;
    NeverFinishes(w.toDaemon, grip, fits, tab, serial);
    NextFinishes(w.toDaemon, grip, fits, tab, serial);
  }

  lemma OtherAskSettles(w: World, taken: seq<byte>, tab: u32, text: seq<byte>)
    requires Valid(w) && !Confused(w, DaemonTakes(taken)) && tab in w.views && w.views[tab].pending && w.toDaemon != []
    requires !Advances(w.toDaemon[0], tab, w.views[tab].serial)
    ensures ValidSelection(SelectionOf(w.held)) && Settles(w, TakeAsk(w, taken), tab, text, true)
  {
    hide Valid, Confused, TakeAsk, Finishes, NoneDisplaces, Displaces, Advances;
    AskElsewhere(w, taken, tab);
    var serial := w.views[tab].serial;
    NoneDisplacesFirst(w.toDaemon, tab, serial);
    FinishesFirst(w.toDaemon, Grip(w.held, tab, serial), |text| <= PAGE_BYTES, tab, serial);
  }

  lemma OwnAskSettles(w: World, taken: seq<byte>, tab: u32, text: seq<byte>)
    requires Valid(w) && !Confused(w, DaemonTakes(taken)) && tab in w.views && w.views[tab].pending && w.toDaemon != []
    requires Advances(w.toDaemon[0], tab, w.views[tab].serial)
    requires taken == text || |text| <= PAGE_BYTES
    ensures ValidSelection(SelectionOf(w.held)) && Settles(w, TakeAsk(w, taken), tab, text, taken == text)
  {
    hide Valid, Confused, TakeAsk, Finishes, NoneDisplaces;
    AskHere(w, taken, tab);
    NothingElse(w, tab);
    var serial, r := w.views[tab].serial, TakeAsk(w, taken);
    FinishesFirst(w.toDaemon, Grip(w.held, tab, serial), |text| <= PAGE_BYTES, tab, serial);
    NeverFinishes(w.toDaemon[1..], Grip(r.held, tab, serial), |text| <= PAGE_BYTES, tab, serial);
    if w.toDaemon[0].operation == SELECTION_START || Is(w.held, tab, serial) {
      var b := r.toClient[|w.toClient|];
      assert r.toClient == w.toClient + [b];
      assert b in r.toClient && forall a :: a in r.toClient <==> a in w.toClient || a == b;
    }
  }

  /** Every step but the user's own keeps what cannot end from ending, and deliveries keep what can. */
  lemma EndingStep(w: World, a: Action, tab: u32, text: seq<byte>)
    requires Valid(w) && !Confused(w, a) && LeavesAlone(a, tab) && tab in w.views && w.views[tab].pending
    requires a.DaemonTakes? ==> a.text == text || |text| <= PAGE_BYTES
    ensures ValidSelection(SelectionOf(w.held))
    ensures Settles(w, Act(w, a), tab, text, a.ClientTakes? || (a.DaemonTakes? && a.text == text))
  {
    HeldShape(w);
    hide Valid, Confused, TakeAsk, TakeAnswer, SelectAll, ClearAll, Endable, Advances;
    if a.Select? || a.Clear? {
      ElsewhereSettles(w, a, tab, text);
    } else if (a.ClientTakes? && w.toClient == []) || (a.DaemonTakes? && w.toDaemon == []) {
      Idle(w, a);
      Pending(w, tab, text);
    } else if a.ClientTakes? {
      if w.toClient[0].tab == tab && w.toClient[0].serial == w.views[tab].serial {
        OwnAnswerSettles(w, tab, text);
      } else {
        OtherAnswerSettles(w, tab, text);
      }
    } else if Advances(w.toDaemon[0], tab, w.views[tab].serial) {
      OwnAskSettles(w, a.text, tab, text);
    } else {
      OtherAskSettles(w, a.text, tab, text);
    }
  }

  lemma Pending(w: World, tab: u32, text: seq<byte>)
    requires tab in w.views && w.views[tab].pending
    ensures Settles(w, w, tab, text, true)
  {
    hide Endable;
  }

  // ---- Whole runs ----

  /** Some run, in which the view's user does nothing, ends the selection. */
  ghost predicate CanEnd(w: World, tab: u32)
    requires Valid(w) && tab in w.views
  {
    exists actions: seq<Action> ::
      && (forall a | a in actions :: LeavesAlone(a, tab)) && Ran(w, actions).Some?
      && Ended(Ran(w, actions).value, tab, w.views[tab].serial)
  }

  lemma {:induction false} NeverEnds(w: World, actions: seq<Action>, tab: u32)
    requires Valid(w) && tab in w.views && w.views[tab].pending && !Endable(w, tab, [])
    requires (forall a | a in actions :: LeavesAlone(a, tab)) && Ran(w, actions).Some?
    ensures var r := Ran(w, actions).value; tab in r.views && r.views[tab].pending && !Endable(r, tab, [])
    decreases |actions|
  {
    hide Valid, Confused, Act, Endable;
    if actions != [] {
      assert actions[0] in actions;
      Shorter(actions);
      EndingStep(w, actions[0], tab, []);
      ActKeeps(w, actions[0]);
      NeverEnds(Act(w, actions[0]), actions[1..], tab);
    }
  }

  // ---- Rounds ----

  lemma GoalStays(w: World, text: seq<byte>, tab: u32)
    requires Valid(w) && !Confused(w, DaemonTakes(text)) && tab in w.views && w.toDaemon != []
    ensures ValidSelection(SelectionOf(w.held))
    ensures var r := TakeAsk(w, text); r.views == w.views && Goal(r, tab, text) == Goal(w, tab, text) && |r.toDaemon| < |w.toDaemon|
  {
    NotStartedYet(w, tab);
    hide Valid, Confused, TakeAsk, Is;
    if Advances(w.toDaemon[0], tab, w.views[tab].serial) {
      AskHere(w, text, tab);
    } else {
      AskElsewhere(w, text, tab);
    }
  }

  lemma {:induction false} DaemonSettles(w: World, text: seq<byte>, tab: u32)
    requires Valid(w) && Windowed(w) && tab in w.views && w.views[tab].pending
    ensures ValidSelection(SelectionOf(w.held))
    ensures var r := DrainDaemon(w, text);
      && Valid(r) && Windowed(r) && r.views == w.views && Goal(r, tab, text) == Goal(w, tab, text)
      && (Endable(r, tab, text) <==> Endable(w, tab, text))
    decreases |w.toDaemon|
  {
    hide Valid, Windowed, Confused, Act, TakeAsk, Endable, Goal;
    HeldShape(w);
    if w.toDaemon != [] {
      DeliveryWindowed(w, DaemonTakes(text));
      ActIsTake(w, text);
      GoalStays(w, text, tab);
      EndingStep(w, DaemonTakes(text), tab, text);
      DaemonSettles(TakeAsk(w, text), text, tab);
    }
  }

  lemma {:induction false} ClientSettles(w: World, text: seq<byte>, tab: u32)
    requires Valid(w) && Windowed(w) && tab in w.views && w.views[tab].pending && !Endable(w, tab, text)
    ensures var r := DrainClient(w);
      Valid(r) && Windowed(r) && tab in r.views && r.views[tab].pending && r.views[tab].serial == w.views[tab].serial && !Endable(r, tab, text)
    decreases |w.toClient|
  {
    hide Valid, Windowed, Confused, Act, TakeAnswer, Endable;
    if w.toClient != [] {
      DeliveryWindowed(w, ClientTakes);
      ActIsAnswer(w);
      TakesOne(w);
      EndingStep(w, ClientTakes, tab, text);
      ClientSettles(TakeAnswer(w), text, tab);
    }
  }

  lemma TakesOne(w: World)
    requires w.toClient != []
    ensures |TakeAnswer(w).toClient| < |w.toClient|
  {
  }

  lemma {:induction false} NoRoundEnds(w: World, text: seq<byte>, tab: u32, n: nat)
    requires Valid(w) && Windowed(w) && tab in w.views && w.views[tab].pending && !Endable(w, tab, text)
    ensures ValidSelection(SelectionOf(w.held)) && !Ended(Rounds(w, text, n), tab, w.views[tab].serial)
    decreases n
  {
    hide Valid, Windowed, Endable, DrainDaemon, DrainClient;
    HeldShape(w);
    if n > 0 {
      DaemonSettles(w, text, tab);
      ClientSettles(DrainDaemon(w, text), text, tab);
      NoRoundEnds(DrainClient(DrainDaemon(w, text)), text, tab, n - 1);
    }
  }

  /** With nothing left on its way to the daemon, what can end is undisturbed. */
  lemma DrainedIsUndisturbed(w: World, text: seq<byte>, tab: u32)
    requires Valid(w) && tab in w.views && w.views[tab].pending && w.toDaemon == [] && Endable(w, tab, text)
    ensures Undisturbed(w, tab)
  {
    hide Valid, Is;
    var v := w.views[tab];
    var a :| a in w.toClient && a.tab == tab && a.serial == v.serial &&
      (a.page.done || (Is(w.held, tab, v.serial) && NoneDisplaces(w.toDaemon, tab, v.serial)));
    forall b | b in w.toClient && b.tab == tab && b.serial == v.serial
      ensures b.page == a.page
    {
      OneAnswer(w, tab, a, b);
    }
  }

  /** Only one answer is in flight for a pending selection. */
  lemma OneAnswer(w: World, tab: u32, a: Answer, b: Answer)
    requires Valid(w) && tab in w.views && w.views[tab].pending
    requires a in w.toClient && a.tab == tab && a.serial == w.views[tab].serial
    requires b in w.toClient && b.tab == tab && b.serial == w.views[tab].serial
    ensures a == b
  {
    hide Generation, AskOk, AnswerOk;
    assert ViewOk(w, tab);
    if a != b {
      TwoAnswers(w.toClient, a, b);
    }
  }

  lemma {:induction false} TwoAnswers(s: seq<Answer>, a: Answer, b: Answer)
    requires a in s && b in s && a != b && a.tab == b.tab && a.serial == b.serial
    ensures AnswerCount(s, a.tab, a.serial) >= 2
  {
    Shorter(s);
    if s[0] == a {
      AnswerCounted(s[1..], b);
    } else if s[0] == b {
      AnswerCounted(s[1..], a);
    } else {
      TwoAnswers(s[1..], a, b);
    }
  }

  lemma WithinGoal(w: World, text: seq<byte>, tab: u32)
    requires Valid(w) && tab in w.views && w.views[tab].pending
    ensures w.views[tab].text.Some? && |w.views[tab].text.value| <= |Goal(w, tab, text)|
  {
    hide Generation, AskOk, AnswerOk, AskCount, AnswerCount;
    assert ViewOk(w, tab);
  }

  /**
   When every message is delivered and nobody touches the keyboard, a pending selection ends if and only if it
   is `Endable`; then it has exactly its snapshot after one round for each full page missing and one more.
   */
  lemma EndsInRoundsExactly(w: World, text: seq<byte>, tab: u32)
    requires Valid(w) && Windowed(w) && tab in w.views && w.views[tab].pending
    ensures ValidSelection(SelectionOf(w.held)) && w.views[tab].text.Some?
    ensures (exists n: nat :: Ended(Rounds(w, text, n), tab, w.views[tab].serial)) <==> Endable(w, tab, text)
    ensures Endable(w, tab, text) ==> exists n: nat ::
      && n <= (|Goal(w, tab, text)| - |w.views[tab].text.value|) / PAGE_BYTES + 1
      && Ended(Rounds(w, text, n), tab, w.views[tab].serial)
      && Rounds(w, text, n).views[tab].text == Some(Goal(w, tab, text))
  {
    hide Valid, Windowed, Endable, Goal, Undisturbed, DrainClient, DrainDaemon, Rounds;
    HeldShape(w);
    WithinGoal(w, text, tab);
    if Endable(w, tab, text) {
      DaemonSettles(w, text, tab);
      var served := DrainDaemon(w, text);
      DrainedIsUndisturbed(served, text, tab);
      EndsInRounds(served, text, tab);
      var n: nat :| n <= (|Goal(w, tab, text)| - |w.views[tab].text.value|) / PAGE_BYTES + 1 &&
        Ended(Rounds(served, text, n), tab, w.views[tab].serial) && Rounds(served, text, n).views[tab].text == Some(Goal(w, tab, text));
      DrainedRounds(w, text, tab, n);
      assert Ended(Rounds(w, text, n), tab, w.views[tab].serial);
    } else if exists n: nat :: Ended(Rounds(w, text, n), tab, w.views[tab].serial) {
      var n: nat :| Ended(Rounds(w, text, n), tab, w.views[tab].serial);
      NoRoundEnds(w, text, tab, n);
    }
  }

  /** Draining the requests first makes no difference to the rounds. */
  lemma DrainedRounds(w: World, text: seq<byte>, tab: u32, n: nat)
    requires ValidSelection(SelectionOf(w.held)) && tab in w.views && w.views[tab].pending && DrainDaemon(w, text).views == w.views
    requires Ended(Rounds(DrainDaemon(w, text), text, n), tab, w.views[tab].serial)
    ensures Rounds(w, text, n) == Rounds(DrainDaemon(w, text), text, n)
  {
    hide DrainClient;
    var served := DrainDaemon(w, text);
    assert DrainDaemon(served, text) == served;
  }

  /** Rounds are a run of deliveries. */
  lemma {:induction false} DaemonRun(w: World, text: seq<byte>) returns (actions: seq<Action>)
    requires Valid(w) && Windowed(w)
    ensures (forall a | a in actions :: a.DaemonTakes?) && ValidSelection(SelectionOf(w.held))
    ensures Ran(w, actions) == Some(DrainDaemon(w, text)) && Windowed(DrainDaemon(w, text))
    decreases |w.toDaemon|
  {
    hide Valid, Windowed, Confused, Act, TakeAsk;
    HeldShape(w);
    if w.toDaemon == [] {
      actions := [];
    } else {
      DeliveryWindowed(w, DaemonTakes(text));
      ActIsTake(w, text);
      AskTaken(w, text);
      var rest := DaemonRun(TakeAsk(w, text), text);
      actions := [DaemonTakes(text)] + rest;
      assert actions[0] == DaemonTakes(text) && actions[1..] == rest;
    }
  }

  lemma AskTaken(w: World, text: seq<byte>)
    requires ValidSelection(SelectionOf(w.held)) && w.toDaemon != []
    ensures |TakeAsk(w, text).toDaemon| < |w.toDaemon|
  {
    hide Request;
  }

  lemma {:induction false} ClientRun(w: World) returns (actions: seq<Action>)
    requires Valid(w) && Windowed(w)
    ensures (forall a | a in actions :: a.ClientTakes?)
    ensures Ran(w, actions) == Some(DrainClient(w)) && Windowed(DrainClient(w))
    decreases |w.toClient|
  {
    hide Valid, Windowed, Confused, Act, TakeAnswer;
    if w.toClient == [] {
      actions := [];
    } else {
      DeliveryWindowed(w, ClientTakes);
      ActIsAnswer(w);
      TakesOne(w);
      var rest := ClientRun(TakeAnswer(w));
      actions := [ClientTakes] + rest;
      assert actions[0] == ClientTakes && actions[1..] == rest;
    }
  }

  lemma {:induction false} RoundsRun(w: World, text: seq<byte>, n: nat) returns (actions: seq<Action>)
    requires Valid(w) && Windowed(w)
    ensures (forall a | a in actions :: a.DaemonTakes? || a.ClientTakes?) && ValidSelection(SelectionOf(w.held))
    ensures Ran(w, actions) == Some(Rounds(w, text, n))
    decreases n
  {
    hide Valid, Windowed, DrainDaemon, DrainClient, Ran;
    HeldShape(w);
    if n == 0 {
      actions := [];
      RanNothing(w);
    } else {
      var first := DaemonRun(w, text);
      var second := ClientRun(DrainDaemon(w, text));
      var rest := RoundsRun(DrainClient(DrainDaemon(w, text)), text, n - 1);
      RanAppend(w, first, second);
      RanAppend(w, first + second, rest);
      actions := first + second + rest;
    }
  }

  lemma RanNothing(w: World)
    requires Valid(w)
    ensures Ran(w, []) == Some(w)
  {
    hide Valid;
  }

  /**
   The exact condition for ending: some run in which the view's user does nothing ends a pending selection if
   and only if it is `Endable`, a START on its way being free to find a text of one page.
   */
  lemma EndsExactly(w: World, tab: u32)
    requires Valid(w) && Windowed(w) && tab in w.views && w.views[tab].pending
    ensures CanEnd(w, tab) <==> Endable(w, tab, [])
  {
    hide Valid, Windowed, Endable, Rounds, Ran, Goal;
    if Endable(w, tab, []) {
      EndsInRoundsExactly(w, [], tab);
      var n: nat :| Ended(Rounds(w, [], n), tab, w.views[tab].serial);
      var actions := RoundsRun(w, [], n);
      assert forall a | a in actions :: LeavesAlone(a, tab);
      assert CanEnd(w, tab);
    } else if CanEnd(w, tab) {
      var actions :| (forall a | a in actions :: LeavesAlone(a, tab)) && Ran(w, actions).Some?
        && Ended(Ran(w, actions).value, tab, w.views[tab].serial);
      NeverEnds(w, actions, tab);
    }
  }

  /** To be able to advance is not enough: with the other tab's START right behind its page, a selection is doomed. */
  lemma LiveYetDoomed(w: World, a: u32, b: u32, long: seq<byte>, text: seq<byte>)
    requires a != b && |long| > PAGE_BYTES && Crossing(w, a, b, long)
    ensures Live(w, a) && !Endable(w, a, text)
  {
    hide Generation, Served, Is;
    var start := Ask(b, 1, SELECTION_START);
    assert w.toClient[0] in w.toClient;
    assert start in w.toDaemon && Displaces(start, a, 1);
    NeverFinishes(w.toDaemon, Grip(w.held, a, 1), |text| <= PAGE_BYTES, a, 1);
  }
}
