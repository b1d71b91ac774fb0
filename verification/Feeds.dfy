/**
 PTY output reaches the engine in reads of any size. The engine takes whole characters and stops after one
 that has effects, so that they are applied before the next; an unfinished character waits for more bytes.
 */
module Feeds {
  import opened Bytes
  import opened Grids

  // ---- Characters ----

  /** How many bytes a leading byte announces; 0 for a continuation byte, 5 for none of these. */
  function Announced(b: byte): (n: nat) {
    if b / 0x40 == 2 then 0
    else if b / 0x80 == 0 then 1
    else if b / 0x20 == 6 then 2
    else if b / 0x10 == 14 then 3
    else if b / 8 == 30 then 4
    else 5
  }

  /** Scan continuation bytes from one position: the position of the first that is none, or where bytes end. */
  function Scanned(s: seq<byte>, j: nat, length: nat): (k: nat)
    requires 1 <= j <= |s|
    ensures j <= k <= |s| && (j <= length ==> k <= length)
    decreases |s| - j
  {
    if j < |s| && j < length && Announced(s[j]) == 0 then Scanned(s, j + 1, length) else j
  }

  /** The bytes of the next character: 1 for a byte that starts none, cut short at a byte that does not continue it, 0 if unfinished. */
  function Character(s: seq<byte>): (n: nat)
    ensures n <= |s|
    ensures n == 0 <==> s == [] || (1 <= Announced(s[0]) <= 4 && |s| < Announced(s[0]) && Scanned(s, 1, Announced(s[0])) == |s|)
  {
    if s == [] then 0
    else
      var length := Announced(s[0]);
      if length < 1 || length > 4 then 1
      else
        var j := Scanned(s, 1, length);
        if j < length && j == |s| then 0 else j
  }

  lemma {:induction false} ScannedStable(a: seq<byte>, b: seq<byte>, j: nat, length: nat)
    requires 1 <= j <= |a|
    ensures Scanned(a, j, length) < |a| || Scanned(a, j, length) >= length ==> Scanned(a + b, j, length) == Scanned(a, j, length)
    decreases |a| - j
  {
    if j < |a| && j < length && Announced(a[j]) == 0 {
      ScannedStable(a, b, j + 1, length);
    }
  }

  /** A character that is whole, or known to be broken, is the same whatever follows. */
  lemma CharacterStable(a: seq<byte>, b: seq<byte>)
    requires Character(a) > 0
    ensures Character(a + b) == Character(a)
  {
    if 1 <= Announced(a[0]) <= 4 {
      ScannedStable(a, b, 1, Announced(a[0]));
    }
  }

  /** What waits is shorter than the longest character. */
  lemma UnfinishedIsShort(s: seq<byte>)
    requires Character(s) == 0
    ensures |s| < 4
  {
  }

  // ---- The engine and the tab around it ----

  /**
   The parser and what the tab does with its effects, over any state. `put` takes one character and leaves
   its effects in order; `effect` applies one, which may feed the engine again, and may fail.
   */
  datatype Machine<!S, !E, !N> = Machine(
    unicode: S -> bool, put: (S, seq<byte>) -> (S, seq<E>), effect: (S, E) -> Option<(S, seq<N>)>)

  datatype Run<S, N> = Done(state: S, notices: seq<N>, rest: seq<byte>) | Failed

  /** The bytes of the next unit in the current mode. */
  function Unit<S, E, N>(m: Machine<S, E, N>, s: S, b: seq<byte>): (n: nat)
    ensures n <= |b|
  {
    if b == [] then 0 else if m.unicode(s) then Character(b) else 1
  }

  function Effects<S, E, N>(m: Machine<S, E, N>, s: S, events: seq<E>): (r: Option<(S, seq<N>)>)
    decreases |events|
  {
    if events == [] then Some((s, []))
    else
      var (s1, first) :- m.effect(s, events[0]);
      var (s2, rest) :- Effects(m, s1, events[1..]);
      Some((s2, first + rest))
  }

  function After<S, N>(notices: seq<N>, r: Run<S, N>): (q: Run<S, N>) {
    if r.Failed? then Failed else r.(notices := notices + r.notices)
  }

  /** What a byte stream means: unit by unit, the effects of each applied before the next. */
  function Process<S, E, N>(m: Machine<S, E, N>, s: S, b: seq<byte>): (r: Run<S, N>)
    decreases |b|
  {
    var n := Unit(m, s, b);
    if n == 0 then Done(s, [], b)
    else
      var (s1, events) := m.put(s, b[..n]);
      var applied := Effects(m, s1, events);
      if applied.None? then Failed else After(applied.value.1, Process(m, applied.value.0, b[n..]))
  }

  lemma UnitStable<S, E, N>(m: Machine<S, E, N>, s: S, a: seq<byte>, b: seq<byte>)
    requires Unit(m, s, a) > 0
    ensures Unit(m, s, a + b) == Unit(m, s, a)
  {
    if m.unicode(s) {
      CharacterStable(a, b);
    }
  }

  lemma AfterTwice<S, N>(a: seq<N>, b: seq<N>, r: Run<S, N>)
    ensures After(a, After(b, r)) == After(a + b, r)
  {
    if r.Done? {
      assert a + (b + r.notices) == (a + b) + r.notices;
    }
  }

  /** A stream continued is its unfinished tail continued, and a failed stream stays failed. */
  lemma {:induction false} ProcessAppend<S, E, N>(m: Machine<S, E, N>, s: S, a: seq<byte>, b: seq<byte>)
    ensures var r := Process(m, s, a);
      Process(m, s, a + b) == if r.Failed? then Failed else After(r.notices, Process(m, r.state, r.rest + b))
    decreases |a|
  {
    hide Effects, Unit;
    var n := Unit(m, s, a);
    if n == 0 {
      AfterNothing(Process(m, s, a + b));
    } else {
      UnitStable(m, s, a, b);
      assert (a + b)[..n] == a[..n] && (a + b)[n..] == a[n..] + b;
      var (s1, events) := m.put(s, a[..n]);
      var applied := Effects(m, s1, events);
      if applied.Some? {
        ProcessAppend(m, applied.value.0, a[n..], b);
        var r := Process(m, applied.value.0, a[n..]);
        if r.Done? {
          AfterTwice(applied.value.1, r.notices, Process(m, r.state, r.rest + b));
        }
      }
    }
  }

  lemma AfterNothing<S, N>(r: Run<S, N>)
    ensures After([], r) == r
  {
    if r.Done? {
      assert [] + r.notices == r.notices;
    }
  }

  /** What is left over is unfinished, and shorter than four bytes. */
  lemma {:induction false} LeftoverWaits<S, E, N>(m: Machine<S, E, N>, s: S, b: seq<byte>)
    requires Process(m, s, b).Done?
    ensures var r := Process(m, s, b); Unit(m, r.state, r.rest) == 0 && |r.rest| < 4
    decreases |b|
  {
    hide Effects;
    var n := Unit(m, s, b);
    if n == 0 {
      if m.unicode(s) {
        UnfinishedIsShort(b);
      }
    } else {
      var (s1, events) := m.put(s, b[..n]);
      LeftoverWaits(m, Effects(m, s1, events).value.0, b[n..]);
    }
  }

  /** The bytes taken, followed by those kept, are the stream in order. */
  lemma {:induction false} NothingSkipped<S, E, N>(m: Machine<S, E, N>, s: S, b: seq<byte>)
    requires Process(m, s, b).Done?
    ensures var rest := Process(m, s, b).rest; |rest| <= |b| && rest == b[|b| - |rest|..]
    decreases |b|
  {
    hide Effects, Unit;
    var n := Unit(m, s, b);
    if n > 0 {
      var (s1, events) := m.put(s, b[..n]);
      NothingSkipped(m, Effects(m, s1, events).value.0, b[n..]);
      Tail(b, n, |b[n..]| - |Process(m, s, b).rest|);
    }
  }

  lemma Tail(b: seq<byte>, n: nat, k: nat)
    requires n + k <= |b|
    ensures b[n..][k..] == b[n + k..]
  {
  }

  // ---- One call after another ----

  /** What one call to feed does to a tab's engine state and its waiting bytes. */
  function Fed<S, E, N>(m: Machine<S, E, N>, s: S, pending: seq<byte>, bytes: seq<byte>): (r: Run<S, N>) {
    if bytes == [] && |pending| < 4 then Done(s, [], pending) else Process(m, s, pending + bytes)
  }

  function FedAll<S, E, N>(m: Machine<S, E, N>, s: S, pending: seq<byte>, chunks: seq<seq<byte>>): (r: Run<S, N>)
    decreases |chunks|
  {
    if chunks == [] then Done(s, [], pending)
    else
      var first := Fed(m, s, pending, chunks[0]);
      if first.Failed? then Failed else After(first.notices, FedAll(m, first.state, first.rest, chunks[1..]))
  }

  /** The waiting bytes cannot advance by themselves. */
  predicate Waiting<S, E, N>(m: Machine<S, E, N>, s: S, pending: seq<byte>) {
    Unit(m, s, pending) == 0
  }

  lemma WaitingIsDone<S, E, N>(m: Machine<S, E, N>, s: S, pending: seq<byte>)
    requires Waiting(m, s, pending)
    ensures Process(m, s, pending) == Done(s, [], pending)
  {
  }

  /**
   Chunk independence: feeding a stream in any pieces gives the engine state, the effects in order and the
   waiting bytes of feeding it whole, provided the bytes waiting at first could not advance alone or some
   byte arrives.
   */
  lemma {:induction false} ChunksDoNotMatter<S, E, N>(m: Machine<S, E, N>, s: S, pending: seq<byte>, chunks: seq<seq<byte>>)
    requires Waiting(m, s, pending) || Flat(chunks) != []
    ensures FedAll(m, s, pending, chunks) == Process(m, s, pending + Flat(chunks))
    decreases |chunks|
  {
    hide Process, Unit, Effects;
    if chunks == [] {
      assert pending + Flat(chunks) == pending;
      WaitingIsDone(m, s, pending);
    } else {
      var c, rest := chunks[0], chunks[1..];
      var first := Fed(m, s, pending, c);
      assert Flat(chunks) == c + Flat(rest);
      assert (pending + c) + Flat(rest) == pending + Flat(chunks);
      if c == [] && |pending| < 4 {
        assert pending + c == pending;
        ChunksDoNotMatter(m, s, pending, rest);
        AfterNothing(FedAll(m, s, pending, rest));
      } else {
        ProcessAppend(m, s, pending + c, Flat(rest));
        if first.Done? {
          LeftoverWaits(m, s, pending + c);
          ChunksDoNotMatter(m, first.state, first.rest, rest);
        }
      }
    }
  }

  /** Two ways to cut one stream agree. */
  lemma SameStreamSameResult<S, E, N>(m: Machine<S, E, N>, s: S, pending: seq<byte>, a: seq<seq<byte>>, b: seq<seq<byte>>)
    requires Flat(a) == Flat(b) && (Waiting(m, s, pending) || Flat(a) != [])
    ensures FedAll(m, s, pending, a) == FedAll(m, s, pending, b)
  {
    ChunksDoNotMatter(m, s, pending, a);
    ChunksDoNotMatter(m, s, pending, b);
  }

  /** After any call that succeeds fewer than four bytes wait, even if more had been imported. */
  lemma PendingStaysShort<S, E, N>(m: Machine<S, E, N>, s: S, pending: seq<byte>, bytes: seq<byte>)
    requires Fed(m, s, pending, bytes).Done?
    ensures |Fed(m, s, pending, bytes).rest| < 4
  {
    if bytes != [] || |pending| >= 4 {
      LeftoverWaits(m, s, pending + bytes);
    }
  }

  /** A call differs from processing what waited and what came exactly when it is empty and what waited, though short, could advance. */
  lemma OnlyEmptyCallsDiffer<S, E, N>(m: Machine<S, E, N>, s: S, pending: seq<byte>, bytes: seq<byte>)
    ensures Fed(m, s, pending, bytes) != Process(m, s, pending + bytes) <==> bytes == [] && |pending| < 4 && !Waiting(m, s, pending)
  {
    if bytes == [] {
      assert pending + bytes == pending;
      if Process(m, s, pending).Done? {
        LeftoverWaits(m, s, pending);
      }
    }
  }

  /** Empty calls do nothing once fewer than four bytes wait. */
  lemma {:induction false} EmptyCalls<S, E, N>(m: Machine<S, E, N>, s: S, pending: seq<byte>, chunks: seq<seq<byte>>)
    requires Flat(chunks) == []
    ensures FedAll(m, s, pending, chunks) == if chunks == [] || |pending| < 4 then Done(s, [], pending) else Process(m, s, pending)
    decreases |chunks|
  {
    hide Process;
    if chunks != [] {
      var first := Fed(m, s, pending, chunks[0]);
      assert chunks[0] == [] && Flat(chunks[1..]) == [];
      assert pending + [] == pending;
      if first.Done? {
        if |pending| >= 4 {
          LeftoverWaits(m, s, pending);
        }
        EmptyCalls(m, first.state, first.rest, chunks[1..]);
      }
    }
  }

  /**
   Exactly when the way a stream is cut shows: only for an empty stream, with four or more bytes imported, between
   no call at all and some empty call, which then processes them.
   */
  lemma CutsDiffer<S, E, N>(m: Machine<S, E, N>, s: S, pending: seq<byte>, a: seq<seq<byte>>, b: seq<seq<byte>>)
    requires Flat(a) == Flat(b)
    ensures FedAll(m, s, pending, a) != FedAll(m, s, pending, b) <==> Flat(a) == [] && |pending| >= 4 && (a == []) != (b == [])
  {
    hide Process;
    if Flat(a) == [] {
      EmptyCalls(m, s, pending, a);
      EmptyCalls(m, s, pending, b);
      if |pending| >= 4 && Process(m, s, pending).Done? {
        LeftoverWaits(m, s, pending);
      }
    } else {
      SameStreamSameResult(m, s, pending, a, b);
    }
  }

  // ---- The loops ----

  /** One call to the engine: characters until one has effects, one is unfinished, or none are left. */
  function EngineCall<S, E, N>(m: Machine<S, E, N>, s: S, b: seq<byte>): (r: (nat, seq<E>, S))
    ensures r.0 <= |b|
    decreases |b|
  {
    var n := Unit(m, s, b);
    if n == 0 then (0, [], s)
    else
      var (s1, events) := m.put(s, b[..n]);
      if events != [] then (n, events, s1)
      else
        var (used, later, s2) := EngineCall(m, s1, b[n..]);
        (n + used, later, s2)
  }

  lemma {:induction false} EngineCallProcess<S, E, N>(m: Machine<S, E, N>, s: S, b: seq<byte>)
    ensures var (used, events, s1) := EngineCall(m, s, b);
      var applied := Effects(m, s1, events);
      && (used == 0 <==> Unit(m, s, b) == 0) && (used == 0 ==> events == [] && s1 == s)
      && Process(m, s, b) == if applied.None? then Failed else After(applied.value.1, Process(m, applied.value.0, b[used..]))
    decreases |b|
  {
    hide Unit;
    var n := Unit(m, s, b);
    if n == 0 {
      assert b[0..] == b;
      AfterNothing(Process(m, s, b));
    } else {
      var (s1, events) := m.put(s, b[..n]);
      if events == [] {
        EngineCallProcess(m, s1, b[n..]);
        var (used, later, s2) := EngineCall(m, s1, b[n..]);
        assert b[n..][used..] == b[n + used..];
        AfterNothing(Process(m, s1, b[n..]));
      }
    }
  }

  lemma AfterRun<S, N>(sofar: seq<N>, notices: seq<N>, r: Run<S, N>, whole: Run<S, N>)
    requires whole == After(sofar, After(notices, r))
    ensures whole == After(sofar + notices, r)
  {
    AfterTwice(sofar, notices, r);
  }

  class Terminal<!S, !E, !N> {
    const m: Machine<S, E, N>
    var state: S
    var pending: seq<byte>
    var pendingFrame: bool

    constructor (m: Machine<S, E, N>, state: S, pending: seq<byte>)
      ensures this.m == m && this.state == state && this.pending == pending && !pendingFrame
    {
      this.m, this.state, this.pending, pendingFrame := m, state, pending, false;
    }

    method EngineFeed(bytes: seq<byte>) returns (used: nat, events: seq<E>)
      modifies this`state
      ensures EngineCall(m, old(state), bytes) == (used, events, state)
    {
      hide Unit;
      used, events := 0, [];
      assert bytes[0..] == bytes;
      while used < |bytes|
        invariant used <= |bytes| && events == []
        invariant var r := EngineCall(m, state, bytes[used..]); EngineCall(m, old(state), bytes) == (used + r.0, r.1, r.2)
      {
        var n := Unit(m, state, bytes[used..]);
        if n == 0 {
          break;
        }
        assert bytes[used..][n..] == bytes[used + n..];
        var (next, effects) := m.put(state, bytes[used..][..n]);
        state, events := next, effects;
        used := used + n;
        if events != [] {
          return;
        }
      }
      NoUnit(m, state, bytes[used..]);
    }

    method Apply(events: seq<E>) returns (notices: Option<seq<N>>)
      modifies this`state
      ensures Effects(m, old(state), events) == if notices.Some? then Some((state, notices.value)) else None
    {
      var done: seq<N> := [];
      ghost var whole := Effects(m, state, events);
      assert events[0..] == events;
      if whole.Some? {
        assert [] + whole.value.1 == whole.value.1;
      }
      for i := 0 to |events|
        invariant var rest := Effects(m, state, events[i..]);
          whole == if rest.None? then None else Some((rest.value.0, done + rest.value.1))
      {
        assert events[i..][1..] == events[i + 1..];
        var applied := m.effect(state, events[i]);
        if applied.None? {
          return None;
        }
        ghost var rest := Effects(m, applied.value.0, events[i + 1..]);
        if rest.Some? {
          assert done + (applied.value.1 + rest.value.1) == (done + applied.value.1) + rest.value.1;
        }
        state := applied.value.0;
        done := done + applied.value.1;
      }
      assert done + [] == done;
      notices := Some(done);
    }

    /** Feed until the engine takes nothing more, applying the effects of every call before the next. */
    method Consume(bytes: seq<byte>) returns (used: Option<nat>, notices: seq<N>)
      modifies this`state
      ensures used.Some? ==> used.value <= |bytes|
      ensures Process(m, old(state), bytes) == if used.Some? then Done(state, notices, bytes[used.value..]) else Failed
    {
      hide Unit, Process, EngineCall, Effects;
      notices := [];
      var offset: nat := 0;
      ghost var whole := Process(m, state, bytes);
      assert bytes[0..] == bytes;
      AfterNothing(whole);
      while offset < |bytes|
        invariant offset <= |bytes|
        invariant whole == After(notices, Process(m, state, bytes[offset..]))
        decreases |bytes| - offset
      {
        EngineCallProcess(m, state, bytes[offset..]);
        ghost var before := state;
        var taken, events := EngineFeed(bytes[offset..]);
        var more := Apply(events);
        if more.None? {
          return None, notices;
        }
        assert bytes[offset..][taken..] == bytes[offset + taken..];
        AfterRun(notices, more.value, Process(m, state, bytes[offset + taken..]), whole);
        notices := notices + more.value;
        if taken == 0 {
          NoEffects(m, before);
          WaitingIsDone(m, before, bytes[offset..]);
          break;
        }
        offset := offset + taken;
      }
      Drained(m, state, bytes[offset..], notices);
      used := Some(offset);
    }

    /** An imported snapshot may have left more bytes waiting than a character; they are taken in one piece. */
    method FeedImported(bytes: seq<byte>) returns (ok: bool, notices: seq<N>)
      modifies this
      ensures Process(m, old(state), old(pending) + bytes) == if ok then Done(state, notices, pending) else Failed
      ensures ok ==> pendingFrame && |pending| < 4
    {
      hide Unit, Process;
      var imported := pending + bytes;
      pending := [];
      var used;
      ghost var before := state;
      used, notices := Consume(imported);
      if used.None? {
        return false, notices;
      }
      LeftoverWaits(m, before, imported);
      assert [] + imported[used.value..] == imported[used.value..];
      pending := pending + imported[used.value..];
      ok := true;
      pendingFrame := true;
    }

    /** Complete the waiting character first, a few bytes at a time, then take the rest in place. */
    method Feed(bytes: seq<byte>) returns (ok: bool, notices: seq<N>)
      modifies this
      ensures Fed(m, old(state), old(pending), bytes) == if ok then Done(state, notices, pending) else Failed
      ensures ok ==> pendingFrame && |pending| < 4
    {
      hide Unit, Process, Effects;
      if |pending| >= 4 {
        ok, notices := FeedImported(bytes);
        return;
      }
      ghost var whole := Process(m, state, pending + bytes);
      notices := [];
      var left := bytes;
      AfterNothing(whole);
      while pending != [] && left != []
        invariant |pending| < 4 && |left| <= |bytes|
        invariant whole == After(notices, Process(m, state, pending + left))
        invariant |left| == |bytes| ==> state == old(state) && pending == old(pending) && notices == [] && left == bytes
        invariant |left| < |bytes| ==> Unit(m, state, pending) == 0
        decreases |left|
      {
        ghost var held, before := pending, state;
        var taken := Min(4 - |pending|, |left|);
        var leading := pending + left[..taken];
        pending := [];
        assert leading + left[taken..] == held + left;
        ProcessAppend(m, state, leading, left[taken..]);
        var used, more := Consume(leading);
        if used.None? {
          return false, notices;
        }
        LeftoverWaits(m, before, leading);
        pending := pending + leading[used.value..];
        assert pending == leading[used.value..];
        left := left[taken..];
        AfterRun(notices, more, Process(m, state, pending + left), whole);
        notices := notices + more;
      }
      if pending == [] {
        ghost var before := state;
        assert pending + left == left;
        var used, more := Consume(left);
        if used.None? {
          EmptyNeverFails(m, before);
          return false, notices;
        }
        LeftoverWaits(m, before, left);
        EmptyNeverFails(m, before);
        pending := pending + left[used.value..];
        assert pending == left[used.value..];
        notices := notices + more;
      } else if bytes != [] {
        assert pending + left == pending;
        Drained(m, state, pending, notices);
      }
      ok := true;
      pendingFrame := true;
    }
  }

  lemma EmptyNeverFails<S, E, N>(m: Machine<S, E, N>, s: S)
    ensures Process(m, s, []) == Done(s, [], [])
  {
  }

  lemma NoUnit<S, E, N>(m: Machine<S, E, N>, s: S, b: seq<byte>)
    requires b == [] || Unit(m, s, b) == 0
    ensures EngineCall(m, s, b) == (0, [], s)
  {
  }

  lemma NoEffects<S, E, N>(m: Machine<S, E, N>, s: S)
    ensures Effects(m, s, []) == Some((s, []))
  {
  }

  lemma Drained<S, E, N>(m: Machine<S, E, N>, s: S, rest: seq<byte>, notices: seq<N>)
    requires Unit(m, s, rest) == 0
    ensures After(notices, Process(m, s, rest)) == Done(s, notices, rest)
  {
    assert notices + [] == notices;
  }
}
