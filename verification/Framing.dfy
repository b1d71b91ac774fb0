/**
 The versioned wire format: packets, the bounded encoder, the payload reader and the incremental
 decoder. `Parse` says what a byte stream means as a whole; the decoder, fed the stream in any
 pieces, computes exactly that.
 */
module Framing {
  import opened Bytes
  import opened Grids

  const WIRE_VERSION: u32 := 1
  const MAX_PAYLOAD: nat := 8 * 1024 * 1024
  const HEADER_BYTES: nat := 16

  datatype Packet = Packet(kind: u32, tab: u32, body: seq<byte>)

  predicate Sendable(p: Packet) {
    |p.body| <= MAX_PAYLOAD
  }

  predicate AllSendable(ps: seq<Packet>) {
    forall p | p in ps :: Sendable(p)
  }

  function Header(kind: u32, tab: u32, length: u32): (h: seq<byte>)
    ensures |h| == HEADER_BYTES
  {
    PutU32(WIRE_VERSION) + PutU32(kind) + PutU32(tab) + PutU32(length)
  }

  function Encode(p: Packet): (b: seq<byte>)
    requires Sendable(p)
    ensures |b| == HEADER_BYTES + |p.body|
  {
    Header(p.kind, p.tab, |p.body|) + p.body
  }

  function EncodeAll(ps: seq<Packet>): (b: seq<byte>)
    requires AllSendable(ps)
  {
    if ps == [] then [] else Encode(ps[0]) + EncodeAll(ps[1..])
  }

  // ---- What a whole stream means ----

  /** The complete packets of a stream, its unfinished tail, and whether a bad header ended it. */
  datatype Parsed = Parsed(packets: seq<Packet>, rest: seq<byte>, failed: bool)

  predicate BadHeader(h: seq<byte>)
    requires |h| >= HEADER_BYTES
  {
    WordAt(h, 0) != WIRE_VERSION || WordAt(h, 12) > MAX_PAYLOAD
  }

  predicate Partial(s: seq<byte>) {
    |s| >= HEADER_BYTES ==> !BadHeader(s) && |s| < HEADER_BYTES + WordAt(s, 12)
  }

  function Parse(s: seq<byte>): (r: Parsed)
    ensures r.failed ==> r.rest == []
    ensures !r.failed ==> Partial(r.rest)
    decreases |s|
  {
    if |s| < HEADER_BYTES then Parsed([], s, false)
    else if BadHeader(s) then Parsed([], [], true)
    else
      var end := HEADER_BYTES + WordAt(s, 12);
      if |s| < end then Parsed([], s, false)
      else
        var tail := Parse(s[end..]);
        tail.(packets := [Packet(WordAt(s, 4), WordAt(s, 8), s[HEADER_BYTES..end])] + tail.packets)
  }

  function Prepend(packets: seq<Packet>, r: Parsed): Parsed {
    r.(packets := packets + r.packets)
  }

  lemma HeaderWords(kind: u32, tab: u32, length: u32, rest: seq<byte>)
    ensures var s := Header(kind, tab, length) + rest;
            WordAt(s, 0) == WIRE_VERSION && WordAt(s, 4) == kind &&
            WordAt(s, 8) == tab && WordAt(s, 12) == length
  {
    var s := Header(kind, tab, length) + rest;
    assert s[0..4] == PutU32(WIRE_VERSION);
    assert s[4..8] == PutU32(kind);
    assert s[8..12] == PutU32(tab);
    assert s[12..16] == PutU32(length);
    GetPut(WIRE_VERSION);
    GetPut(kind);
    GetPut(tab);
    GetPut(length);
  }

  /** A header that passes validation is the encoding of its own fields. */
  lemma GoodHeader(h: seq<byte>)
    requires |h| == HEADER_BYTES && !BadHeader(h)
    ensures h == Header(WordAt(h, 4), WordAt(h, 8), WordAt(h, 12))
  {
    PutGet(h[0..4]);
    PutGet(h[4..8]);
    PutGet(h[8..12]);
    PutGet(h[12..16]);
    assert h == h[0..4] + h[4..8] + h[8..12] + h[12..16];
  }

  lemma WordAtPrefix(a: seq<byte>, b: seq<byte>, offset: nat)
    requires offset + 4 <= |a|
    ensures WordAt(a + b, offset) == WordAt(a, offset)
  {
    assert (a + b)[offset..offset + 4] == a[offset..offset + 4];
  }

  lemma {:induction false} ParseEncoded(p: Packet, s: seq<byte>)
    requires Sendable(p)
    ensures Parse(Encode(p) + s) == Prepend([p], Parse(s))
  {
    var whole := Encode(p) + s;
    assert whole == Header(p.kind, p.tab, |p.body|) + (p.body + s);
    HeaderWords(p.kind, p.tab, |p.body|, p.body + s);
    var end := HEADER_BYTES + |p.body|;
    assert whole[HEADER_BYTES..end] == p.body;
    assert whole[end..] == s;
  }

  /** Round trip: the encoding of any packet list, with any unfinished tail, parses to that list and tail. */
  lemma {:induction false} ParseEncodeAll(ps: seq<Packet>, tail: seq<byte>)
    requires AllSendable(ps)
    ensures Parse(EncodeAll(ps) + tail) == Prepend(ps, Parse(tail))
  {
    hide GetU32, PutU32, WordAt, Header, Encode, BadHeader, Parse;
    if ps == [] {
      assert EncodeAll(ps) + tail == tail;
      assert ps + Parse(tail).packets == Parse(tail).packets;
    } else {
      ParseEncodeAll(ps[1..], tail);
      ParseEncoded(ps[0], EncodeAll(ps[1..]) + tail);
      assert EncodeAll(ps) + tail == Encode(ps[0]) + (EncodeAll(ps[1..]) + tail);
      assert [ps[0]] + (ps[1..] + Parse(tail).packets) == ps + Parse(tail).packets;
    }
  }

  /** The first complete packet of a stream is the encoding of its own bytes. */
  lemma FirstPacket(s: seq<byte>)
    requires |s| >= HEADER_BYTES && !BadHeader(s) && |s| >= HEADER_BYTES + WordAt(s, 12)
    ensures WordAt(s, 12) <= MAX_PAYLOAD
    ensures var end := HEADER_BYTES + WordAt(s, 12);
            Encode(Packet(WordAt(s, 4), WordAt(s, 8), s[HEADER_BYTES..end])) == s[..end]
  {
    hide GetU32, PutU32;
    var h := s[..HEADER_BYTES];
    assert s == h + s[HEADER_BYTES..];
    WordAtPrefix(h, s[HEADER_BYTES..], 0);
    WordAtPrefix(h, s[HEADER_BYTES..], 4);
    WordAtPrefix(h, s[HEADER_BYTES..], 8);
    WordAtPrefix(h, s[HEADER_BYTES..], 12);
    GoodHeader(h);
    assert h + s[HEADER_BYTES..HEADER_BYTES + WordAt(s, 12)] == s[..HEADER_BYTES + WordAt(s, 12)];
  }

  /** What a parse accounts for: the encoded packets, then the tail or a header that cannot be one. */
  ghost predicate Accounts(s: seq<byte>, r: Parsed) {
    && AllSendable(r.packets)
    && var done := EncodeAll(r.packets);
       if r.failed then done <= s && |s| - |done| >= HEADER_BYTES && BadHeader(s[|done|..])
       else s == done + r.rest
  }

  lemma {:induction false} AccountsPrepend(s: seq<byte>, p: Packet, end: nat, tail: Parsed)
    requires end <= |s| && Sendable(p) && Encode(p) == s[..end] && Accounts(s[end..], tail)
    ensures Accounts(s, tail.(packets := [p] + tail.packets))
  {
    hide GetU32, PutU32, Header, Encode, WordAt, BadHeader;
    var done := EncodeAll(tail.packets);
    assert ([p] + tail.packets)[1..] == tail.packets;
    assert EncodeAll([p] + tail.packets) == s[..end] + done;
    assert s == s[..end] + s[end..];
    if tail.failed {
      assert s[end..][|done|..] == s[end + |done|..];
      assert s[end..] == done + s[end..][|done|..];
    }
  }

  /** Every byte is accounted for once. */
  lemma {:induction false} ParseSound(s: seq<byte>)
    ensures Accounts(s, Parse(s))
    decreases |s|
  {
    hide GetU32, PutU32, Header, Encode, WordAt, BadHeader;
    if |s| < HEADER_BYTES {
    } else if BadHeader(s) {
      assert s[0..] == s;
    } else if |s| >= HEADER_BYTES + WordAt(s, 12) {
      var end := HEADER_BYTES + WordAt(s, 12);
      FirstPacket(s);
      ParseSound(s[end..]);
      AccountsPrepend(s, Packet(WordAt(s, 4), WordAt(s, 8), s[HEADER_BYTES..end]), end, Parse(s[end..]));
    }
  }

  /** Chunk independence: a stream continued is its tail continued, and a failed stream stays failed. */
  lemma {:induction false} ParseAppend(a: seq<byte>, b: seq<byte>)
    ensures !Parse(a).failed ==>
      Parse(a + b) == Prepend(Parse(a).packets, Parse(Parse(a).rest + b))
    ensures Parse(a).failed ==> Parse(a + b) == Parse(a)
    decreases |a|
  {
    hide GetU32, PutU32, WordAt;
    if |a| >= HEADER_BYTES {
      WordAtPrefix(a, b, 0);
      WordAtPrefix(a, b, 12);
      if !BadHeader(a) && |a| >= HEADER_BYTES + WordAt(a, 12) {
        WordAtPrefix(a, b, 4);
        WordAtPrefix(a, b, 8);
        var end := HEADER_BYTES + WordAt(a, 12);
        assert (a + b)[end..] == a[end..] + b;
        assert (a + b)[HEADER_BYTES..end] == a[HEADER_BYTES..end];
        ParseAppend(a[end..], b);
        PrependTwice(Packet(WordAt(a, 4), WordAt(a, 8), a[HEADER_BYTES..end]), Parse(a[end..]).packets, Parse(Parse(a).rest + b));
      }
    }
  }

  lemma {:induction false} EncodeAllConcat(a: seq<Packet>, b: seq<Packet>)
    requires AllSendable(a) && AllSendable(b)
    ensures AllSendable(a + b)
    ensures EncodeAll(a + b) == EncodeAll(a) + EncodeAll(b)
  {
    hide GetU32, PutU32, Header, Encode;
    if a == [] {
      assert a + b == b;
    } else {
      EncodeAllConcat(a[1..], b);
      assert (a + b)[1..] == a[1..] + b;
      assert EncodeAll(a + b) == Encode(a[0]) + (EncodeAll(a[1..]) + EncodeAll(b));
    }
  }

  lemma EncodeNothing()
    ensures EncodeAll([]) == []
  {
  }

  lemma {:induction false} EncodeAllOne(p: Packet)
    requires Sendable(p)
    ensures EncodeAll([p]) == Encode(p)
  {
    assert [p][1..] == [];
    assert EncodeAll([p]) == Encode(p) + [];
  }

  lemma PrependTwice(p: Packet, ps: seq<Packet>, r: Parsed)
    ensures Prepend([p], Prepend(ps, r)) == Prepend([p] + ps, r)
  {
    assert [p] + (ps + r.packets) == ([p] + ps) + r.packets;
  }

  lemma ParseBad(s: seq<byte>)
    requires |s| >= HEADER_BYTES && BadHeader(s)
    ensures Parse(s) == Parsed([], [], true)
  {
  }

  // ---- The bounded encoder ----

  class Buffer {
    var bytes: seq<byte>
    const limit: nat

    ghost predicate Valid()
      reads this
    {
      |bytes| <= limit
    }

    constructor (limit: nat)
      ensures Valid() && bytes == [] && this.limit == limit
    {
      bytes := [];
      this.limit := limit;
    }

    /** Whether that many more bytes fit; nothing is written. */
    method Reserve(extra: nat) returns (ok: bool)
      requires Valid()
      ensures ok <==> |bytes| + extra <= limit
    {
      ok := extra <= limit - |bytes|;
    }

    method PutBytes(data: seq<byte>) returns (ok: bool)
      requires Valid()
      modifies this
      ensures Valid()
      ensures ok <==> |old(bytes)| + |data| <= limit
      ensures bytes == if ok then old(bytes) + data else old(bytes)
    {
      ok := Reserve(|data|);
      if ok {
        bytes := bytes + data;
      }
    }

    /** A length-prefixed string, written whole or not at all. */
    method PutString(data: seq<byte>) returns (ok: bool)
      requires Valid()
      modifies this
      ensures Valid()
      ensures ok <==> |data| < 0x1_0000_0000 && |old(bytes)| + 4 + |data| <= limit
      ensures ok ==> bytes == old(bytes) + PutU32(|data|) + data
      ensures !ok ==> bytes == old(bytes)
    {
      if |data| >= 0x1_0000_0000 {
        return false;
      }
      ok := Reserve(4 + |data|);
      if ok {
        bytes := bytes + PutU32(|data|);
        bytes := bytes + data;
      }
    }

    /** One packet from borrowed body fragments; a failed encode leaves the message unchanged. */
    method AppendPacketParts(kind: u32, tab: u32, parts: seq<seq<byte>>) returns (ok: bool)
      requires Valid()
      modifies this
      ensures Valid()
      ensures ok <==> |Flat(parts)| <= MAX_PAYLOAD && |old(bytes)| + HEADER_BYTES + |Flat(parts)| <= limit
      ensures ok ==> bytes == old(bytes) + Encode(Packet(kind, tab, Flat(parts)))
      ensures !ok ==> bytes == old(bytes)
    {
      var length := 0;
      for i := 0 to |parts|
        invariant length == |Flat(parts[..i])|
        invariant bytes == old(bytes)
      {
        assert parts[..i + 1] == parts[..i] + [parts[i]];
        FlatConcat(parts[..i], [parts[i]]);
        FlatOne(parts[i]);
        length := length + |parts[i]|;
      }
      assert parts[..|parts|] == parts;
      if length > MAX_PAYLOAD {
        return false;
      }
      ok := Reserve(HEADER_BYTES + length);
      if !ok {
        return;
      }
      ghost var before := bytes;
      bytes := bytes + PutU32(WIRE_VERSION) + PutU32(kind) + PutU32(tab) + PutU32(length);
      ghost var prefix := before + Header(kind, tab, length);
      assert bytes == prefix;
      for i := 0 to |parts|
        invariant bytes == prefix + Flat(parts[..i])
        invariant |prefix + Flat(parts)| <= limit
      {
        assert parts[..i + 1] == parts[..i] + [parts[i]];
        FlatConcat(parts[..i], [parts[i]]);
        FlatOne(parts[i]);
        bytes := bytes + parts[i];
      }
      assert bytes == before + (Header(kind, tab, length) + Flat(parts));
    }
  }

  // ---- The payload reader ----

  class Payload {
    var bytes: seq<byte>

    constructor (bytes: seq<byte>)
      ensures this.bytes == bytes
    {
      this.bytes := bytes;
    }

    method Take(length: nat) returns (r: Option<seq<byte>>)
      modifies this
      ensures r.Some? <==> length <= |old(bytes)|
      ensures r.Some? ==> |r.value| == length && old(bytes) == r.value + bytes
      ensures r.None? ==> bytes == old(bytes)
    {
      if length > |bytes| {
        return None;
      }
      r := Some(bytes[..length]);
      bytes := bytes[length..];
    }

    method Word() returns (r: Option<u32>)
      modifies this
      ensures r.Some? <==> |old(bytes)| >= 4
      ensures r.Some? ==> r.value == WordAt(old(bytes), 0) && bytes == old(bytes)[4..]
      ensures r.None? ==> bytes == old(bytes)
    {
      var word := Take(4);
      if word.None? {
        return None;
      }
      assert old(bytes)[0..4] == word.value;
      r := Some(GetU32(word.value));
    }
  }

  // ---- The incremental decoder ----

  datatype State =
    | Collecting(header: seq<byte>)
    | Body(kind: u32, tab: u32, length: nat, bytes: seq<byte>)
    | Failed

  /** The bytes of the unfinished packet a decoder state stands for. */
  function Held(s: State): (b: seq<byte>)
    requires s.Body? ==> s.length < 0x1_0000_0000
  {
    match s
    case Collecting(header) => header
    case Body(kind, tab, length, bytes) => Header(kind, tab, length) + bytes
    case Failed => []
  }

  lemma HeldMore(kind: u32, tab: u32, length: nat, bytes: seq<byte>, more: seq<byte>)
    requires length <= MAX_PAYLOAD
    ensures Held(Body(kind, tab, length, bytes + more)) == Held(Body(kind, tab, length, bytes)) + more
    ensures |bytes + more| == length ==> Encode(Packet(kind, tab, bytes + more)) == Held(Body(kind, tab, length, bytes + more))
  {
    hide GetU32, PutU32, Header;
    var h := Header(kind, tab, length);
    assert h + (bytes + more) == (h + bytes) + more;
  }

  lemma HeldEmpty(kind: u32, tab: u32, length: nat)
    requires length <= MAX_PAYLOAD
    ensures Held(Body(kind, tab, length, [])) == Header(kind, tab, length)
  {
  }

  lemma SplitTaken(held: seq<byte>, data: seq<byte>, taken: nat, count: nat)
    requires taken + count <= |data|
    ensures held + data[..taken + count] == (held + data[..taken]) + data[taken..][..count]
    ensures held + data == (held + data[..taken] + data[taken..][..count]) + data[taken..][count..]
    ensures data[taken..][count..] == data[taken + count..]
  {
  }

  lemma BadPrefix(header: seq<byte>, rest: seq<byte>)
    requires |header| == HEADER_BYTES
    ensures BadHeader(header + rest) <==> BadHeader(header)
    ensures BadHeader(header) <==> WordAt(header, 0) != WIRE_VERSION || WordAt(header, 12) > MAX_PAYLOAD
  {
    WordAtPrefix(header, rest, 0);
    WordAtPrefix(header, rest, 12);
  }

  datatype Decoded = Bad | More(used: nat) | Complete(used: nat, packet: Packet)

  class Decoder {
    var state: State

    /** At most one partial header or one partial body, and that body within the payload bound. */
    ghost predicate Valid()
      reads this
    {
      match state
      case Collecting(header) => |header| < HEADER_BYTES
      case Body(_, _, length, bytes) => |bytes| < length <= MAX_PAYLOAD
      case Failed => true
    }

    ghost function Pending(): (b: seq<byte>)
      requires Valid()
      reads this
    {
      Held(state)
    }

    constructor ()
      ensures Valid() && state == Collecting([])
    {
      state := Collecting([]);
    }

    /** Collect header bytes; a full header either opens a body or closes the decoder for good. */
    method FillHeader(rest: seq<byte>) returns (count: nat)
      requires state.Collecting? && |state.header| < HEADER_BYTES
      modifies this
      ensures count <= |rest|
      ensures state.Collecting? ==>
        count == |rest| && state.header == old(state.header) + rest && |state.header| < HEADER_BYTES
      ensures state.Body? ==>
        state.bytes == [] && state.length <= MAX_PAYLOAD && (rest != [] ==> count > 0) &&
        Held(state) == old(state.header) + rest[..count]
      ensures state.Failed? ==>
        |old(state.header) + rest| >= HEADER_BYTES && BadHeader(old(state.header) + rest)
    {
      hide GetU32, PutU32, Header, WordAt, BadHeader, Encode;
      count := Min(HEADER_BYTES - |state.header|, |rest|);
      var filled := state.header + rest[..count];
      assert filled + rest[count..] == state.header + rest;
      if |filled| != HEADER_BYTES {
        state := Collecting(filled);
        return;
      }
      var version, kind, tab, length := WordAt(filled, 0), WordAt(filled, 4), WordAt(filled, 8), WordAt(filled, 12);
      BadPrefix(filled, rest[count..]);
      if version != WIRE_VERSION || length > MAX_PAYLOAD {
        state := Failed;
        return;
      }
      GoodHeader(filled);
      state := Body(kind, tab, length, []);
      HeldEmpty(kind, tab, length);
    }

    /** Collect body bytes; a full body is the packet, and the decoder is ready for the next header. */
    method FillBody(rest: seq<byte>) returns (count: nat, packet: Option<Packet>)
      requires state.Body? && |state.bytes| <= state.length <= MAX_PAYLOAD
      modifies this
      ensures count <= |rest|
      ensures packet.None? ==>
        count == |rest| && state.Body? && |state.bytes| < state.length <= MAX_PAYLOAD &&
        Held(state) == old(Held(state)) + rest
      ensures packet.Some? ==>
        state == Collecting([]) && Sendable(packet.value) &&
        Encode(packet.value) == old(Held(state)) + rest[..count]
      ensures packet.Some? && old(|state.bytes| < state.length) ==> count > 0
    {
      hide GetU32, PutU32, Header, Encode;
      match state
      case Body(kind, tab, length, bytes) =>
        count := Min(length - |bytes|, |rest|);
        HeldMore(kind, tab, length, bytes, rest[..count]);
        var filled := bytes + rest[..count];
        if |filled| != length {
          assert rest[..count] == rest;
          state := Body(kind, tab, length, filled);
          return count, None;
        }
        state := Collecting([]);
        packet := Some(Packet(kind, tab, filled));
    }

    /** Consume input up to the end of at most one packet. */
    method Push(data: seq<byte>) returns (r: Decoded)
      requires Valid()
      modifies this
      ensures Valid()
      ensures old(state).Failed? ==> r == Bad
      ensures r == Bad ==> state == Failed
      ensures r == Bad && !old(state).Failed? ==>
        |old(Pending()) + data| >= HEADER_BYTES && BadHeader(old(Pending()) + data)
      ensures r.More? ==>
        r.used == |data| && !state.Failed? && Pending() == old(Pending()) + data
      ensures r.Complete? ==>
        r.used <= |data| && Sendable(r.packet) && state == Collecting([]) &&
        old(Pending()) + data[..r.used] == Encode(r.packet)
      ensures r.Complete? && data != [] ==> r.used > 0
    {
      hide GetU32, PutU32, Header, WordAt, BadHeader, Encode;
      var used: nat := 0;
      ghost var held := Pending();
      while true
        invariant used <= |data|
        invariant state.Collecting? ==> |state.header| < HEADER_BYTES && state == old(state) && used == 0
        invariant state.Body? ==> |state.bytes| <= state.length <= MAX_PAYLOAD && !old(state).Failed? &&
                                  Held(state) == held + data[..used]
        invariant state.Body? && used == 0 && data != [] ==> |state.bytes| < state.length
        invariant state.Failed? ==> old(state).Failed?
        decreases if state.Collecting? then 1 else 0
      {
        match state
        case Collecting(_) =>
          assert data[used..] == data;
          used := FillHeader(data);
          if state.Collecting? {
            return More(used);
          }
          if state.Failed? {
            return Bad;
          }
        case Body(_, _, _, _) =>
          var count, packet := FillBody(data[used..]);
          SplitTaken(held, data, used, count);
          used := used + count;
          if packet.None? {
            assert data[..used] == data;
            return More(used);
          }
          return Complete(used, packet.value);
        case Failed =>
          return Bad;
      }
    }

    /** The read loops of both peers: push one input to exhaustion, collecting the packets. */
    method Feed(data: seq<byte>) returns (packets: seq<Packet>, ok: bool)
      requires Valid() && !state.Failed?
      modifies this
      ensures Valid()
      ensures ok <==> !state.Failed?
      ensures Parse(old(Pending()) + data) == Parsed(packets, Pending(), !ok)
    {
      hide GetU32, PutU32, Header, Encode, WordAt, Parse, BadHeader;
      var rest := data;
      packets := [];
      ghost var stream := old(Pending()) + data;
      while rest != []
        invariant Valid() && !state.Failed?
        invariant Parse(stream) == Prepend(packets, Parse(Pending() + rest))
        decreases |rest|
      {
        ghost var before := Pending() + rest;
        var r := Push(rest);
        match r
        case Bad =>
          ParseBad(before);
          return packets, false;
        case More(used) =>
          rest := [];
          assert Pending() + rest == before;
        case Complete(used, packet) =>
          assert before == Encode(packet) + rest[used..];
          rest := rest[used..];
          ParseEncoded(packet, rest);
          assert Pending() + rest == rest;
          packets := packets + [packet];
      }
      assert Pending() + rest == Pending();
      HeldPartial(state);
      ok := true;
    }

    /** Any sequence of reads: what comes out depends on the bytes only, not on where the reads split. */
    method FeedChunks(chunks: seq<seq<byte>>) returns (packets: seq<Packet>, ok: bool)
      requires Valid() && !state.Failed?
      modifies this
      ensures Valid()
      ensures ok <==> !state.Failed?
      ensures Parse(old(Pending()) + Flat(chunks)) == Parsed(packets, Pending(), !ok)
    {
      hide GetU32, PutU32, Header, WordAt, Parse, BadHeader, Encode;
      packets, ok := [], true;
      HeldPartial(state);
      ghost var start := Pending();
      assert start + Flat(chunks[..0]) == start;
      for i := 0 to |chunks|
        invariant Valid() && ok && !state.Failed?
        invariant Parse(start + Flat(chunks[..i])) == Parsed(packets, Pending(), false)
      {
        ghost var sofar := start + Flat(chunks[..i]);
        var more: seq<Packet>;
        more, ok := Feed(chunks[i]);
        packets := packets + more;
        assert chunks[..i + 1] == chunks[..i] + [chunks[i]];
        FlatConcat(chunks[..i], [chunks[i]]);
        FlatOne(chunks[i]);
        ParseAppend(sofar, chunks[i]);
        assert start + Flat(chunks[..i + 1]) == sofar + chunks[i];
        if !ok {
          assert chunks == chunks[..i + 1] + chunks[i + 1..];
          FlatConcat(chunks[..i + 1], chunks[i + 1..]);
          ParseAppend(start + Flat(chunks[..i + 1]), Flat(chunks[i + 1..]));
          assert start + Flat(chunks) == (start + Flat(chunks[..i + 1])) + Flat(chunks[i + 1..]);
          return;
        }
      }
      assert chunks[..|chunks|] == chunks;
    }
  }

  /** A decoder between pushes holds a strictly partial packet. */
  lemma HeldPartial(s: State)
    requires s.Collecting? ==> |s.header| < HEADER_BYTES
    requires s.Body? ==> |s.bytes| < s.length <= MAX_PAYLOAD
    ensures Parse(Held(s)) == Parsed([], Held(s), false)
  {
    if s.Body? {
      HeaderWords(s.kind, s.tab, s.length, s.bytes);
    }
  }
}
