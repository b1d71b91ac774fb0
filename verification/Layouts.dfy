/**
 One memory layout that meets what the snapshot codec asks of every layout: each scalar, and each element of
 the struct's arrays, in a word of its own.
 */
module Layouts {
  import opened Bytes
  import opened EngineSnapshots

  const HEADER_WORDS: nat := 61 + ESC_BUF + ESC_ARGS + 2 + 4 + BUFFER

  function Unsigned(x: int32): (v: u32) {
    x % 0x1_0000_0000
  }

  lemma SignedUnsigned(x: int32)
    ensures AsInt(Unsigned(x)) == x
  {
  }

  function Words(b: seq<byte>): (ws: seq<u32>)
    ensures |ws| == |b|
  {
    seq(|b|, i requires 0 <= i < |b| => b[i])
  }

  function Narrow(ws: seq<u32>): (b: seq<byte>)
    ensures |b| == |ws|
  {
    seq(|ws|, i requires 0 <= i < |ws| => ws[i] % 256)
  }

  function UnsignedAll(xs: seq<int32>): (ws: seq<u32>)
    ensures |ws| == |xs|
  {
    seq(|xs|, i requires 0 <= i < |xs| => Unsigned(xs[i]))
  }

  function SignedAll(ws: seq<u32>): (xs: seq<int32>)
    ensures |xs| == |ws|
  {
    seq(|ws|, i requires 0 <= i < |ws| => AsInt(ws[i]))
  }

  lemma ArraysRoundTrip(b: seq<byte>, xs: seq<int32>)
    ensures Narrow(Words(b)) == b && SignedAll(UnsignedAll(xs)) == xs
  {
    hide Unsigned, AsInt;
    forall i | 0 <= i < |xs|
      ensures SignedAll(UnsignedAll(xs))[i] == xs[i]
    {
      SignedUnsigned(xs[i]);
    }
  }

  // ---- The structs ----

  function GlyphWords(g: Glyph): (ws: seq<u32>)
    requires 0 <= g.mode < 0x1_0000
    ensures |ws| == 4
  {
    [g.rune, g.mode, g.foreground, g.background]
  }

  function GlyphFrom(ws: seq<u32>): (g: Glyph)
    requires |ws| == 4
    ensures 0 <= g.mode < 0x1_0000
  {
    Glyph(ws[0], ws[1] % 0x1_0000, ws[2], ws[3])
  }

  function CursorWords(c: Cursor): (ws: seq<u32>)
    requires 0 <= c.attr.mode < 0x1_0000
    ensures |ws| == 7
  {
    GlyphWords(c.attr) + [Unsigned(c.x), Unsigned(c.y), c.state]
  }

  function CursorFrom(ws: seq<u32>): (c: Cursor)
    requires |ws| == 7
    ensures 0 <= c.attr.mode < 0x1_0000
  {
    Cursor(GlyphFrom(ws[..4]), AsInt(ws[4]), AsInt(ws[5]), ws[6] % 256)
  }

  lemma CursorRoundTrip(c: Cursor)
    requires 0 <= c.attr.mode < 0x1_0000
    ensures CursorFrom(CursorWords(c)) == c
  {
    hide Unsigned, AsInt;
    SignedUnsigned(c.x);
    SignedUnsigned(c.y);
    assert CursorWords(c)[..4] == GlyphWords(c.attr);
  }

  function SelectionWords(s: Selection): (ws: seq<u32>)
    ensures |ws| == 12
  {
    UnsignedAll([s.mode, s.kind, s.snap, s.nb.x, s.nb.y, s.ne.x, s.ne.y, s.ob.x, s.ob.y, s.oe.x, s.oe.y, s.alt])
  }

  function SelectionFrom(ws: seq<u32>): (s: Selection)
    requires |ws| == 12
  {
    var x := SignedAll(ws);
    Selection(x[0], x[1], x[2], Point(x[3], x[4]), Point(x[5], x[6]), Point(x[7], x[8]), Point(x[9], x[10]), x[11])
  }

  lemma SelectionRoundTrip(s: Selection)
    ensures SelectionFrom(SelectionWords(s)) == s
  {
    hide UnsignedAll, SignedAll;
    ArraysRoundTrip([], [s.mode, s.kind, s.snap, s.nb.x, s.nb.y, s.ne.x, s.ne.y, s.ob.x, s.ob.y, s.oe.x, s.oe.y, s.alt]);
  }

  /** The signed scalars outside the nested structs. */
  function SignedScalars(h: Header): (xs: seq<int32>)
    ensures |xs| == 17
  {
    [h.row, h.col, h.histlen, h.scr, h.csi.narg, h.ocx, h.ocy, h.top, h.bot, h.mode, h.esc,
     h.charset, h.icharset, h.altscreen, h.pending, h.remoteScroll, h.outputKind]
  }

  function UnsignedScalars(h: Header): (ws: seq<u32>)
    requires Sized(h)
    ensures |ws| == 11
  {
    [h.magic, h.version, h.bytes, h.glyphBytes, h.history, h.csi.len % 0x1_0000_0000, h.csi.len / 0x1_0000_0000,
     h.csi.priv, h.lastc, h.strType, h.strLen]
  }

  function HeaderWords(h: Header): (ws: seq<u32>)
    requires Sized(h)
    ensures |ws| == HEADER_WORDS
  {
    UnsignedScalars(h) + UnsignedAll(SignedScalars(h)) + CursorWords(h.c) + CursorWords(h.saved.0) + CursorWords(h.saved.1) +
    SelectionWords(h.selection) + Words(h.csi.buf) + UnsignedAll(h.csi.args) + Words(h.csi.mode) + Words(h.trantbl) + Words(h.buffer)
  }

  /** The parts of a header's words. */
  datatype Parts = Parts(
    scalars: seq<u32>, signed: seq<int32>, c: Cursor, saved: (Cursor, Cursor), selection: Selection,
    buf: seq<byte>, args: seq<int32>, mode: seq<byte>, trantbl: seq<byte>, buffer: seq<byte>)

  function PartsFrom(ws: seq<u32>): (p: Parts)
    requires |ws| == HEADER_WORDS
    ensures PartsSized(p)
  {
    Parts(ws[..11], SignedAll(ws[11..28]), CursorFrom(ws[28..35]), (CursorFrom(ws[35..42]), CursorFrom(ws[42..49])),
          SelectionFrom(ws[49..61]), Narrow(ws[61..573]), SignedAll(ws[573..589]), Narrow(ws[589..591]), Narrow(ws[591..595]), Narrow(ws[595..]))
  }

  function Wide(low: u32, high: u32): (n: nat)
    ensures n < 0x1_0000_0000_0000_0000
  {
    var l: int, h: int := low, high;
    l + h * 0x1_0000_0000
  }

  lemma WideIs(n: nat)
    requires n < 0x1_0000_0000_0000_0000
    ensures Wide(n % 0x1_0000_0000, n / 0x1_0000_0000) == n
  {
  }

  predicate PartsSized(p: Parts) {
    && |p.scalars| == 11 && |p.signed| == 17 && |p.buf| == ESC_BUF && |p.args| == ESC_ARGS
    && |p.mode| == 2 && |p.trantbl| == 4 && |p.buffer| == BUFFER
    && 0 <= p.c.attr.mode < 0x1_0000 && 0 <= p.saved.0.attr.mode < 0x1_0000 && 0 <= p.saved.1.attr.mode < 0x1_0000
  }

  function Assembled(p: Parts): (h: Header)
    requires PartsSized(p)
    ensures Sized(h)
  {
    var u, s := p.scalars, p.signed;
    Header(u[0], u[1], u[2], u[3], u[4], s[0], s[1], s[2], s[3], p.c, p.saved, p.selection,
           Csi(p.buf, Wide(u[5], u[6]), u[7] % 256, p.args, s[4], p.mode),
           s[5], s[6], s[7], s[8], s[9], s[10], p.trantbl, s[11], s[12], u[8],
           s[13], s[14], s[15], s[16], p.buffer, u[9] % 256, u[10])
  }

  function HeaderFrom(ws: seq<u32>): (h: Header)
    requires |ws| == HEADER_WORDS
    ensures Sized(h)
  {
    Assembled(PartsFrom(ws))
  }

  function PartsOf(h: Header): (p: Parts)
    requires Sized(h)
    ensures PartsSized(p)
  {
    Parts(UnsignedScalars(h), SignedScalars(h), h.c, h.saved, h.selection, h.csi.buf, h.csi.args, h.csi.mode, h.trantbl, h.buffer)
  }

  lemma AssembledIs(h: Header)
    requires Sized(h)
    ensures Assembled(PartsOf(h)) == h
  {
    hide Wide;
    WideIs(h.csi.len);
    var u, s := UnsignedScalars(h), SignedScalars(h);
    assert u[0] == h.magic && u[1] == h.version && u[2] == h.bytes && u[3] == h.glyphBytes && u[4] == h.history;
    assert u[7] == h.csi.priv && u[8] == h.lastc && u[9] == h.strType && u[10] == h.strLen;
    assert Assembled(PartsOf(h)).csi == h.csi;
  }

  lemma PartsRoundTrip(h: Header)
    requires Sized(h)
    ensures PartsFrom(HeaderWords(h)) == PartsOf(h)
  {
    hide UnsignedScalars, SignedScalars, CursorWords, CursorFrom, SelectionWords, SelectionFrom, Words, Narrow, UnsignedAll, SignedAll;
    var ws := HeaderWords(h);
    assert ws[..11] == UnsignedScalars(h) && ws[11..28] == UnsignedAll(SignedScalars(h));
    assert ws[28..35] == CursorWords(h.c) && ws[35..42] == CursorWords(h.saved.0) && ws[42..49] == CursorWords(h.saved.1);
    assert ws[49..61] == SelectionWords(h.selection);
    assert ws[61..573] == Words(h.csi.buf) && ws[573..589] == UnsignedAll(h.csi.args) && ws[589..591] == Words(h.csi.mode);
    assert ws[591..595] == Words(h.trantbl) && ws[595..] == Words(h.buffer);
    CursorRoundTrip(h.c);
    CursorRoundTrip(h.saved.0);
    CursorRoundTrip(h.saved.1);
    SelectionRoundTrip(h.selection);
    ArraysRoundTrip(h.csi.buf, SignedScalars(h));
    ArraysRoundTrip(h.csi.mode, h.csi.args);
    ArraysRoundTrip(h.trantbl, []);
    ArraysRoundTrip(h.buffer, []);
  }

  lemma HeaderRoundTrip(h: Header)
    requires Sized(h)
    ensures HeaderFrom(HeaderWords(h)) == h
  {
    PartsRoundTrip(h);
    AssembledIs(h);
    hide HeaderWords, PartsFrom, Assembled;
  }

  // ---- The layout ----

  function WordsOf(b: seq<byte>, count: nat): (ws: seq<u32>)
    ensures |ws| == count
  {
    if |b| == 4 * count then seq(count, i requires 0 <= i < count => WordAt(b, 4 * i)) else seq(count, _ => 0)
  }

  lemma WordsRoundTrip(ws: seq<u32>)
    ensures WordsOf(PutWords(ws), |ws|) == ws
  {
    hide PutWords, WordAt;
    forall i | 0 <= i < |ws|
      ensures WordAt(PutWords(ws), 4 * i) == ws[i]
    {
      WordAtPutWords(ws, i, []);
      assert PutWords(ws) + [] == PutWords(ws);
    }
  }

  function Packed(): Abi {
    Abi(
      Layout(4 * HEADER_WORDS, (h: Header) => if Sized(h) then PutWords(HeaderWords(h)) else [], (b: seq<byte>) => HeaderFrom(WordsOf(b, HEADER_WORDS))),
      Layout(16, (g: Glyph) => if 0 <= g.mode < 0x1_0000 then PutWords(GlyphWords(g)) else [], (b: seq<byte>) => GlyphFrom(WordsOf(b, 4))),
      Layout(4, (x: int32) => PutWords([Unsigned(x)]), (b: seq<byte>) => AsInt(WordsOf(b, 1)[0])))
  }

  /** The demands on a layout can be met. */
  lemma PackedIsFaithful()
    ensures Faithful(Packed())
  {
    hide HeaderWords, HeaderFrom, WordsOf, PutWords, Sized, Unsigned, AsInt;
    forall h | Sized(h)
      ensures HeaderFrom(WordsOf(PutWords(HeaderWords(h)), HEADER_WORDS)) == h
    {
      WordsRoundTrip(HeaderWords(h));
      HeaderRoundTrip(h);
    }
    forall g: Glyph | 0 <= g.mode < 0x1_0000
      ensures GlyphFrom(WordsOf(PutWords(GlyphWords(g)), 4)) == g
    {
      WordsRoundTrip(GlyphWords(g));
    }
    forall x: int32
      ensures AsInt(WordsOf(PutWords([Unsigned(x)]), 1)[0]) == x
    {
      WordsRoundTrip([Unsigned(x)]);
      SignedUnsigned(x);
    }
  }
}
