/**
 The bounded byte queue used for client output and PTY input. Its storage may keep a prefix that is
 already sent, and is compacted lazily; what it means is a FIFO of bytes.
 */
module Queues {
  import opened Bytes

  /** One answer of a nonblocking writer to an offer of bytes. */
  datatype WriteAnswer = Accept(limit: nat) | Interrupted | WouldBlock | Broken

  /** A nonblocking writer: a finite script of answers, after which it would block. */
  class Writer {
    var script: seq<WriteAnswer>
    var accepted: seq<byte>

    constructor (script: seq<WriteAnswer>)
      ensures this.script == script && accepted == []
    {
      this.script := script;
      accepted := [];
    }

    /** An acceptance takes a prefix of the offer, possibly all of it, possibly nothing. */
    method Write(offer: seq<byte>) returns (answer: WriteAnswer, count: nat)
      modifies this
      ensures count <= |offer|
      ensures accepted == old(accepted) + offer[..count]
      ensures count == if answer.Accept? then Min(answer.limit, |offer|) else 0
      ensures old(script) != [] ==> answer == old(script)[0] && script == old(script)[1..]
      ensures old(script) == [] ==> answer == WouldBlock && script == []
    {
      count := 0;
      if script == [] {
        answer := WouldBlock;
      } else {
        answer := script[0];
        script := script[1..];
        if answer.Accept? {
          count := Min(answer.limit, |offer|);
          accepted := accepted + offer[..count];
        }
      }
      assert count == 0 ==> offer[..count] == [];
    }
  }

  datatype Flushed = Ok(total: nat) | Failed

  /** What a flush should move out of `live` bytes, and which of the writer's answers it uses up. */
  datatype Flow = Flow(moved: nat, failed: bool, rest: seq<WriteAnswer>)

  function Flowed(script: seq<WriteAnswer>, live: nat, budget: nat): (f: Flow)
    ensures f.moved <= Min(live, budget) && |f.rest| <= |script|
    decreases |script|
  {
    if live == 0 || budget == 0 then Flow(0, false, script)
    else if script == [] then Flow(0, false, [])
    else match script[0]
      case Interrupted => Flowed(script[1..], live, budget)
      case WouldBlock => Flow(0, false, script[1..])
      case Broken => Flow(0, true, script[1..])
      case Accept(limit) =>
        var count := Min(limit, Min(budget, live));
        if count == 0 then Flow(0, true, script[1..])
        else
          var f := Flowed(script[1..], live - count, budget - count);
          f.(moved := count + f.moved)
  }

  /** One offer within a flush: the answer `r`, and what is left of the script after it. */
  predicate FlowStep(script: seq<WriteAnswer>, live: nat, budget: nat, r: WriteAnswer, rest: seq<WriteAnswer>) {
    && (r.Accept? ==> 0 < r.limit <= Min(live, budget))
    && Flowed(script, live, budget) ==
      match r
      case Interrupted => Flowed(rest, live, budget)
      case WouldBlock => Flow(0, false, rest)
      case Broken => Flow(0, true, rest)
      case Accept(count) =>
        if count > Min(live, budget) then Flow(0, true, rest)
        else var f := Flowed(rest, live - count, budget - count); f.(moved := count + f.moved)
  }

  /** Moving `total` bytes has led from the script `start` to `script`. */
  predicate Along(start: seq<WriteAnswer>, live: nat, budget: nat, script: seq<WriteAnswer>, total: nat) {
    && total <= Min(live, budget)
    && var f := Flowed(script, live - total, budget - total);
       Flowed(start, live, budget) == f.(moved := total + f.moved)
  }

  lemma FlowAlong(start: seq<WriteAnswer>, live: nat, budget: nat, script: seq<WriteAnswer>, total: nat,
                  r: WriteAnswer, rest: seq<WriteAnswer>)
    requires Along(start, live, budget, script, total)
    requires FlowStep(script, live - total, budget - total, r, rest)
    ensures r.Interrupted? ==> Along(start, live, budget, rest, total)
    ensures r.Accept? ==> Along(start, live, budget, rest, total + r.limit)
    ensures r.WouldBlock? ==> Flowed(start, live, budget) == Flow(total, false, rest)
    ensures r.Broken? ==> Flowed(start, live, budget) == Flow(total, true, rest)
  {
    hide Flowed;
  }

  lemma FlowEnds(start: seq<WriteAnswer>, live: nat, budget: nat, script: seq<WriteAnswer>, total: nat)
    ensures Along(start, live, budget, start, 0)
    ensures total == Min(live, budget) && Along(start, live, budget, script, total) ==>
      Flowed(start, live, budget) == Flow(total, false, script)
  {
  }

  /**
   A flush stops short of its budget and of the queue's end only when the writer stops it: it succeeds
   then exactly because the last answer was to wait, and fails because of an error or an empty acceptance.
   */
  lemma {:induction false} FlowStops(script: seq<WriteAnswer>, live: nat, budget: nat)
    ensures var f := Flowed(script, live, budget); Stopped(script, f, Min(live, budget))
    decreases |script|
  {
    hide Stopped;
    if live == 0 || budget == 0 || script == [] {
      StoppedNow(script, live, budget);
    } else {
      var answer, rest := script[0], script[1..];
      match answer
      case Interrupted =>
        FlowStops(rest, live, budget);
        StoppedLater(script, Flowed(rest, live, budget), Min(live, budget), 0);
      case Accept(limit) =>
        var count := Min(limit, Min(budget, live));
        if count == 0 {
          StoppedNow(script, live, budget);
        } else {
          FlowStops(rest, live - count, budget - count);
          StoppedLater(script, Flowed(rest, live - count, budget - count), Min(live, budget) - count, count);
        }
      case _ => StoppedNow(script, live, budget);
    }
  }

  lemma StoppedNow(script: seq<WriteAnswer>, live: nat, budget: nat)
    requires live == 0 || budget == 0 || script == [] ||
      script[0].WouldBlock? || script[0].Broken? || script[0] == Accept(0)
    ensures Stopped(script, Flowed(script, live, budget), Min(live, budget))
  {
  }

  predicate Stopped(script: seq<WriteAnswer>, f: Flow, offered: nat) {
    var used := |script| - |f.rest|;
    && 0 <= used && f.rest == script[used..]
    && (!f.failed && f.moved < offered ==> f.rest == [] || (used > 0 && script[used - 1].WouldBlock?))
    && (f.failed ==> used > 0 && (script[used - 1].Broken? || script[used - 1] == Accept(0)))
  }

  lemma StoppedLater(script: seq<WriteAnswer>, f: Flow, offered: nat, count: nat)
    requires script != [] && Stopped(script[1..], f, offered)
    ensures Stopped(script, f.(moved := count + f.moved), offered + count)
  {
  }

  class Queue {
    var bytes: seq<byte>
    var sent: nat
    const limit: nat

    /** Every byte ever appended, and every byte ever handed to a writer. */
    ghost var appended: seq<byte>
    ghost var taken: seq<byte>

    ghost predicate Valid()
      reads this
    {
      && sent <= |bytes| <= limit
      && taken + bytes[sent..] == appended
    }

    function Pending(): (p: seq<byte>)
      requires sent <= |bytes|
      reads this
    {
      bytes[sent..]
    }

    constructor (limit: nat)
      ensures Valid() && this.limit == limit
      ensures Pending() == [] && appended == [] && taken == []
    {
      bytes, sent, this.limit := [], 0, limit;
      appended, taken := [], [];
    }

    function Remaining(): (n: nat)
      requires Valid()
      reads this
    {
      limit - (|bytes| - sent)
    }

    /** Accepted exactly when the live bytes and the new ones fit; a rejection changes nothing. */
    method Append(data: seq<byte>) returns (ok: bool)
      requires Valid()
      modifies this
      ensures Valid()
      ensures ok <==> |old(Pending())| + |data| <= limit
      ensures ok ==> Pending() == old(Pending()) + data && appended == old(appended) + data
      ensures taken == old(taken)
      ensures !ok ==> unchanged(this)
    {
      if |data| > Remaining() {
        return false;
      }
      ghost var live := Pending();
      if sent != 0 && (sent >= |bytes| - sent || |data| > limit - |bytes|) {
        bytes := bytes[sent..];
        sent := 0;
      }
      assert Pending() == live;
      bytes := bytes + data;
      appended := appended + data;
      assert Pending() == live + data;
      assert taken + (live + data) == (taken + live) + data;
      ok := true;
    }

    /** A prepared frame becomes the storage itself when no older bytes are queued. */
    method AppendOwned(data: seq<byte>) returns (ok: bool)
      requires Valid()
      modifies this
      ensures Valid()
      ensures ok <==> |old(Pending())| + |data| <= limit
      ensures ok ==> Pending() == old(Pending()) + data && appended == old(appended) + data
      ensures taken == old(taken)
      ensures !ok ==> unchanged(this)
    {
      if sent == |bytes| {
        if |data| > Remaining() {
          return false;
        }
        assert taken == appended;
        bytes := data;
        sent := 0;
        appended := appended + data;
        ok := true;
      } else {
        ok := Append(data);
      }
    }

    /**
     Offer at most `budget` bytes to a writer. Whatever ends the loop, the bytes the writer took are
     the front of the queue, in order, and the queue keeps the rest; how many, and whether the flush
     fails, is what `Flowed` says of the writer's answers.
     */
    method Flush(output: Writer, budget: nat) returns (r: Flushed)
      requires Valid()
      modifies this, output
      ensures Valid() && appended == old(appended)
      ensures var moved := |old(Pending())| - |Pending()|;
              0 <= moved <= budget &&
              output.accepted == old(output.accepted) + old(Pending())[..moved] &&
              Pending() == old(Pending())[moved..] &&
              (r.Ok? ==> r.total == moved) &&
              Flow(moved, r.Failed?, output.script) == Flowed(old(output.script), |old(Pending())|, budget)
    {
      hide Flowed, FlowStep, Along;
      ghost var live, start, gone, script := Pending(), output.accepted, taken, output.script;
      var left: nat := budget;
      var total: nat := 0;
      FlowEnds(script, |live|, budget, script, 0);
      while left != 0 && sent != |bytes|
        invariant sent <= |bytes| <= limit && appended == old(appended)
        invariant total + left == budget && total <= |live|
        invariant bytes[sent..] == live[total..]
        invariant output.accepted == start + live[..total]
        invariant taken == gone + live[..total]
        invariant Along(script, |live|, budget, output.script, total)
        decreases |output.script|, left
      {
        ghost var answers := output.script;
        var count := Offer(output, left);
        FlowAlong(script, |live|, budget, answers, total, count, output.script);
        if count.Broken? {
          Conserved(gone, live, total);
          return Failed;
        }
        if count.WouldBlock? {
          break;
        }
        if count.Accept? {
          SplitLive(start, gone, live, total, count.limit);
          taken := taken + live[total..][..count.limit];
          sent := sent + count.limit;
          total := total + count.limit;
          left := left - count.limit;
        }
      }
      Conserved(gone, live, total);
      FlowEnds(script, |live|, budget, output.script, total);
      if sent == |bytes| {
        sent := 0;
        bytes := [];
      }
      r := Ok(total);
    }

    /** One write attempt; an acceptance of nothing means the transport closed. */
    method Offer(output: Writer, left: nat) returns (r: WriteAnswer)
      requires sent < |bytes| && left > 0
      modifies output
      ensures r.Accept? ==> 0 < r.limit <= left && sent + r.limit <= |bytes|
      ensures output.accepted == old(output.accepted) + (if r.Accept? then bytes[sent..][..r.limit] else [])
      ensures FlowStep(old(output.script), |bytes| - sent, left, r, output.script)
      ensures |output.script| <= |old(output.script)|
      ensures r.Interrupted? ==> |output.script| < |old(output.script)|
    {
      var offer := bytes[sent..][..Min(left, |bytes| - sent)];
      var answer, count := output.Write(offer);
      r := if !answer.Accept? then answer else if count == 0 then Broken else Accept(count);
      if count > 0 {
        assert offer[..count] == bytes[sent..][..count];
      }
    }
  }

  lemma SplitLive(start: seq<byte>, gone: seq<byte>, live: seq<byte>, total: nat, count: nat)
    requires total + count <= |live|
    ensures live[total..][count..] == live[total + count..]
    ensures start + live[..total] + live[total..][..count] == start + live[..total + count]
    ensures gone + live[..total] + live[total..][..count] == gone + live[..total + count]
  {
    assert live[..total] + live[total..][..count] == live[..total + count];
    assert start + live[..total] + live[total..][..count] == start + (live[..total] + live[total..][..count]);
    assert gone + live[..total] + live[total..][..count] == gone + (live[..total] + live[total..][..count]);
  }

  lemma Conserved(gone: seq<byte>, live: seq<byte>, total: nat)
    requires total <= |live|
    ensures gone + live[..total] + live[total..] == gone + live
  {
  }

  // ---- Any run of a queue ----

  datatype Use = Put(data: seq<byte>, owned: bool) | Drain(budget: nat)

  /** The bytes of the appends that were accepted, in order. */
  function Accepted(uses: seq<Use>, verdicts: seq<bool>): (b: seq<byte>)
    requires |uses| == |verdicts|
  {
    if uses == [] then []
    else
      var last := |uses| - 1;
      Accepted(uses[..last], verdicts[..last]) +
      (if uses[last].Put? && verdicts[last] then uses[last].data else [])
  }

  lemma AcceptedNext(uses: seq<Use>, verdicts: seq<bool>, use: Use, verdict: bool)
    requires |uses| == |verdicts|
    ensures Accepted(uses + [use], verdicts + [verdict])
         == Accepted(uses, verdicts) + (if use.Put? && verdict then use.data else [])
  {
    assert (uses + [use])[..|uses|] == uses && (verdicts + [verdict])[..|uses|] == verdicts;
  }

  /** One append or flush moves bytes along or adds the accepted ones, and does nothing else. */
  method UseQueue(queue: Queue, use: Use, output: Writer) returns (ok: bool)
    requires queue.Valid()
    modifies queue, output
    ensures queue.Valid()
    ensures output.accepted + queue.Pending()
         == old(output.accepted + queue.Pending()) + (if use.Put? && ok then use.data else [])
  {
    ghost var before, start := queue.Pending(), output.accepted;
    match use
    case Put(data, owned) =>
      if owned {
        ok := queue.AppendOwned(data);
      } else {
        ok := queue.Append(data);
      }
      assert start + (before + data) == (start + before) + data;
      assert (start + before) + [] == start + before;
    case Drain(budget) =>
      var r := queue.Flush(output, budget);
      Conserved(start, before, |before| - |queue.Pending()|);
      assert (start + before) + [] == start + before;
      ok := true;
  }

  /**
   Over any sequence of appends and flushes, with any writer behaviour, what the writer took followed
   by what is pending is exactly what was accepted, and storage stays within the bound.
   */
  method RunQueue(limit: nat, uses: seq<Use>, output: Writer) returns (queue: Queue, verdicts: seq<bool>)
    requires output.accepted == []
    modifies output
    ensures queue.Valid() && queue.limit == limit && |queue.bytes| <= limit
    ensures |verdicts| == |uses|
    ensures output.accepted + queue.Pending() == Accepted(uses, verdicts)
  {
    queue := new Queue(limit);
    verdicts := [];
    for i := 0 to |uses|
      invariant fresh(queue) && queue.Valid() && queue.limit == limit
      invariant |verdicts| == i
      invariant output.accepted + queue.Pending() == Accepted(uses[..i], verdicts)
    {
      var ok := UseQueue(queue, uses[i], output);
      assert uses[..i + 1] == uses[..i] + [uses[i]];
      AcceptedNext(uses[..i], verdicts, uses[i], ok);
      verdicts := verdicts + [ok];
    }
    assert uses[..|uses|] == uses;
  }
}
