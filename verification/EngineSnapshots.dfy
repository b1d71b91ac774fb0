/**
 The engine's native snapshot: a header, the tab stops, the pending control string, then the live, the
 alternate and the history rows, oldest first. The bytes of one C struct are an abstract layout of fixed
 size that decoding inverts; everything around the structs is spelled out.
 */
module EngineSnapshots {
  import opened Bytes
  import opened Grids

  type int32 = x: int | -0x8000_0000 <= x < 0x8000_0000

  const MAGIC: u32 := 0x57545331
  const VERSION: u32 := 1
  const BUFFER: nat := 8192
  const MAX_GRID: nat := 16_000_000
  const MAX_SIDE: nat := 4096
  const MAX_STRING: nat := 1024 * 1024
  const ESC_BUF: nat := 512
  const ESC_ARGS: nat := 16
  const ESC_CSI: nat := 2
  const SEL_READY: int := 2
  const SEL_RECTANGULAR: int := 2
  const SEL_REGULAR: int := 1
  const SNAP_LINE: int := 2

  datatype Glyph = Glyph(rune: u32, mode: int, foreground: u32, background: u32)

  type Line = seq<Glyph>

  datatype Point = Point(x: int32, y: int32)

  datatype Cursor = Cursor(attr: Glyph, x: int32, y: int32, state: byte)

  /** `nb` and `ne` are normalized, `ob` and `oe` as dragged. */
  datatype Selection = Selection(mode: int32, kind: int32, snap: int32, nb: Point, ne: Point, ob: Point, oe: Point, alt: int32)

  datatype Csi = Csi(buf: seq<byte>, len: nat, priv: byte, args: seq<int32>, narg: int32, mode: seq<byte>)

  datatype Transport = Transport(pending: int32, remoteScroll: int32, outputKind: int32, buffer: seq<byte>)

  datatype Header = Header(
    magic: u32, version: u32, bytes: u32, glyphBytes: u32, history: u32,
    row: int32, col: int32, histlen: int32, scr: int32,
    c: Cursor, saved: (Cursor, Cursor), selection: Selection, csi: Csi,
    ocx: int32, ocy: int32, top: int32, bot: int32, mode: int32, esc: int32,
    trantbl: seq<byte>, charset: int32, icharset: int32, lastc: u32,
    altscreen: int32, pending: int32, remoteScroll: int32, outputKind: int32, buffer: seq<byte>,
    strType: byte, strLen: u32)

  /**
   The engine's own state. `hist` is the ring, empty until first used; what drawing, timing and event
   delivery keep beside the grid is not part of a snapshot.
   */
  datatype Term = Term(
    row: int32, col: int32, line: seq<Line>, alt: seq<Line>, hist: seq<Line>, histlen: int32, histi: int32, scr: int32,
    c: Cursor, saved: (Cursor, Cursor), selection: Selection, csi: Csi,
    ocx: int32, ocy: int32, top: int32, bot: int32, mode: int32, esc: int32,
    trantbl: seq<byte>, charset: int32, icharset: int32, lastc: u32,
    altscreen: int32, strType: byte, str: seq<byte>, tabs: seq<int32>,
    dirty: seq<bool>, deadline: int, expired: bool, now: int, events: bool)

  // ---- Layouts ----

  /** How one C value lies in memory. */
  datatype Layout<!T> = Layout(size: nat, encode: T -> seq<byte>, decode: seq<byte> -> T)

  datatype Abi = Abi(header: Layout<Header>, glyph: Layout<Glyph>, stop: Layout<int32>)

  /** The arrays of the struct have their declared lengths. */
  predicate Sized(h: Header) {
    && |h.csi.buf| == ESC_BUF && |h.csi.args| == ESC_ARGS && |h.csi.mode| == 2 && h.csi.len < 0x1_0000_0000_0000_0000
    && |h.trantbl| == 4 && |h.buffer| == BUFFER
    && 0 <= h.c.attr.mode < 0x1_0000 && 0 <= h.saved.0.attr.mode < 0x1_0000 && 0 <= h.saved.1.attr.mode < 0x1_0000
  }

  ghost predicate Faithful(abi: Abi) {
    && (forall h | Sized(h) :: |abi.header.encode(h)| == abi.header.size && abi.header.decode(abi.header.encode(h)) == h)
    && (forall g: Glyph | 0 <= g.mode < 0x1_0000 :: |abi.glyph.encode(g)| == abi.glyph.size && abi.glyph.decode(abi.glyph.encode(g)) == g)
    && (forall x: int32 :: |abi.stop.encode(x)| == abi.stop.size && abi.stop.decode(abi.stop.encode(x)) == x)
    && abi.header.size < 0x1_0000_0000 && abi.glyph.size < 0x1_0000_0000 && abi.glyph.size > 0 && abi.stop.size > 0
    && forall h, b | |b| == abi.header.size && h == abi.header.decode(b) :: Sized(h)
  }

  function EncodeItems<T>(l: Layout<T>, items: seq<T>): (parts: seq<seq<byte>>)
    ensures |parts| == |items|
  {
    seq(|items|, i requires 0 <= i < |items| => l.encode(items[i]))
  }

  function DecodeItems<T>(l: Layout<T>, b: seq<byte>, count: nat): (items: seq<T>)
    requires |b| == count * l.size
    ensures |items| == count
  {
    seq(count, i requires 0 <= i < count => l.decode(Part(b, l.size, count, i)))
  }

  /** One fixed-size piece of a buffer. */
  function Part(b: seq<byte>, size: nat, count: nat, i: nat): (p: seq<byte>)
    requires |b| == count * size && i < count
    ensures |p| == size
  {
    Distribute(i, 1, size);
    Distribute(i + 1, count - i - 1, size);
    b[i * size..(i + 1) * size]
  }

  lemma ItemsRoundTrip<T>(l: Layout<T>, items: seq<T>)
    requires forall i | 0 <= i < |items| :: |l.encode(items[i])| == l.size && l.decode(l.encode(items[i])) == items[i]
    ensures |Flat(EncodeItems(l, items))| == |items| * l.size
    ensures DecodeItems(l, Flat(EncodeItems(l, items)), |items|) == items
  {
    hide Flat;
    var parts := EncodeItems(l, items);
    FlatLength(parts, l.size);
    forall i | 0 <= i < |items|
      ensures DecodeItems(l, Flat(parts), |items|)[i] == items[i]
    {
      FlatRow(parts, l.size, i);
      assert Part(Flat(parts), l.size, |items|, i) == parts[i] == l.encode(items[i]);
    }
  }

  // ---- The history ring ----

  function Mod(a: int, m: int): (r: int)
    requires m > 0 && -m <= a < 2 * m
    ensures 0 <= r < m
  {
    if a < 0 then a + m else if a < m then a else a - m
  }

  predicate RingOk(t: Term, capacity: nat) {
    && 0 <= t.histlen <= capacity && 0 <= t.histi && (t.histi < capacity || (capacity == 0 && t.histi == 0))
    && (t.hist == [] || |t.hist| == capacity) && (t.hist == [] ==> t.histlen == 0)
  }

  /** The slot of the k-th oldest history row. */
  function Slot(t: Term, capacity: nat, k: nat): (i: nat)
    requires RingOk(t, capacity) && k < t.histlen
    ensures i < |t.hist|
  {
    Mod(t.histi - t.histlen + k, capacity)
  }

  /** The history, oldest first, wherever the ring starts. */
  function History(t: Term, capacity: nat): (rows: seq<Line>)
    requires RingOk(t, capacity)
    ensures |rows| == t.histlen
  {
    seq(t.histlen, k requires 0 <= k < t.histlen => t.hist[Slot(t, capacity, k)])
  }

  /** The wrap the code writes as a remainder is the one above. */
  lemma SlotIs(t: Term, capacity: nat, k: nat)
    requires RingOk(t, capacity) && k < t.histlen
    ensures capacity > 0 && Slot(t, capacity, k) == (t.histi - t.histlen + k + capacity) % capacity
  {
    Remainder(t.histi - t.histlen + k, capacity);
  }

  lemma Remainder(a: int, m: int)
    requires m > 0 && -m <= a < m
    ensures (a + m) % m == Mod(a, m)
  {
    if a < 0 {
      SmallRemainder(a + m, m);
    } else {
      SmallRemainder(a, m);
      assert (a + m) / m == 1 by { Quotient(a + m, m, 1); }
    }
  }

  lemma SmallRemainder(a: int, m: int)
    requires 0 <= a < m
    ensures a / m == 0 && a % m == a
  {
    Quotient(a, m, 0);
  }

  lemma Quotient(a: int, m: int, q: int)
    requires m > 0 && q * m <= a < (q + 1) * m
    ensures a / m == q
  {
    var d := a / m;
    DivisionBounds(a, m);
    if q > d {
      Monotone(q, d + 1, m);
    } else if d > q {
      Monotone(d, q + 1, m);
    }
  }

  lemma DivisionBounds(a: int, m: int)
    requires m > 0
    ensures a / m * m <= a < (a / m + 1) * m
  {
    assert (a / m + 1) * m == a / m * m + m;
  }

  lemma Monotone(x: int, y: int, m: int)
    requires x >= y && m >= 0
    ensures x * m >= y * m
  {
    assert (x - y) * m >= 0;
  }

  /** A row scrolled off the top enters the ring. */
  function PushHistory(t: Term, capacity: nat, line: Line): (r: Term)
    requires RingOk(t, capacity) && capacity > 0 && capacity < 0x8000_0000 && 0 <= t.scr <= t.histlen
    ensures RingOk(r, capacity) && 0 <= r.scr <= r.histlen
  {
    var ring := if t.hist == [] then seq(capacity, _ => []) else t.hist;
    var histlen := if t.histlen < capacity then t.histlen + 1 else t.histlen;
    t.(hist := ring[t.histi := line], histi := if t.histi + 1 == capacity then 0 else t.histi + 1, histlen := histlen,
       scr := if t.scr != 0 then Min(t.scr + 1, histlen) else 0)
  }

  /** The ring keeps the newest rows in order. */
  lemma PushKeepsOrder(t: Term, capacity: nat, line: Line)
    requires RingOk(t, capacity) && 0 < capacity < 0x8000_0000 && 0 <= t.scr <= t.histlen
    ensures var all := History(t, capacity) + [line];
      History(PushHistory(t, capacity, line), capacity) == all[|all| - PushHistory(t, capacity, line).histlen..]
  {
    var r := PushHistory(t, capacity, line);
    var all := History(t, capacity) + [line];
    var dropped := |all| - r.histlen;
    forall k | 0 <= k < r.histlen
      ensures History(r, capacity)[k] == all[dropped..][k]
    {
      if k < r.histlen - 1 {
        assert all[dropped..][k] == History(t, capacity)[k + dropped];
      }
    }
  }

  // ---- What is written ----

  predicate ValidTransport(t: Transport) {
    |t.buffer| == BUFFER
  }

  predicate LineOk(l: Line, col: int) {
    |l| == col && forall i | 0 <= i < |l| :: 0 <= l[i].mode < 0x1_0000
  }

  /** The shape every engine keeps: a grid, its alternate, a ring of equally wide rows, fixed arrays. */
  predicate ValidTerm(e: Term, capacity: nat) {
    && RingOk(e, capacity) && capacity < 0x8000_0000
    && 1 <= e.row && 1 <= e.col && |e.line| == |e.alt| == e.row && |e.tabs| == e.col
    && (forall i | 0 <= i < |e.line| :: LineOk(e.line[i], e.col))
    && (forall i | 0 <= i < |e.alt| :: LineOk(e.alt[i], e.col))
    && (forall k | 0 <= k < |History(e, capacity)| :: LineOk(History(e, capacity)[k], e.col))
    && |e.csi.buf| == ESC_BUF && |e.csi.args| == ESC_ARGS && |e.csi.mode| == 2 && e.csi.len < 0x1_0000_0000_0000_0000
    && |e.trantbl| == 4
    && 0 <= e.c.attr.mode < 0x1_0000 && 0 <= e.saved.0.attr.mode < 0x1_0000 && 0 <= e.saved.1.attr.mode < 0x1_0000
  }

  predicate TransportExportable(t: Transport) {
    0 <= t.pending <= BUFFER && -1 <= t.outputKind <= 1
  }

  /** Effects must be applied before a snapshot; sizes are bounded. */
  predicate Exportable(e: Term, t: Transport) {
    !e.events && TransportExportable(t) && |e.str| <= MAX_STRING && e.col * (e.row * 2 + e.histlen) <= MAX_GRID
  }

  function HeaderOf(abi: Abi, capacity: nat, e: Term, t: Transport): (h: Header)
    requires ValidTerm(e, capacity) && Exportable(e, t) && abi.header.size < 0x1_0000_0000 && abi.glyph.size < 0x1_0000_0000
  {
    Header(MAGIC, VERSION, abi.header.size, abi.glyph.size, capacity, e.row, e.col, e.histlen, e.scr,
           e.c, e.saved, e.selection, e.csi, e.ocx, e.ocy, e.top, e.bot, e.mode, e.esc,
           e.trantbl, e.charset, e.icharset, e.lastc, e.altscreen, t.pending, t.remoteScroll, t.outputKind, t.buffer,
           e.strType, |e.str|)
  }

  /** The live rows, the alternate rows, then the history, oldest first. */
  function Rows(e: Term, capacity: nat): (rows: seq<Line>)
    requires RingOk(e, capacity)
  {
    e.line + e.alt + History(e, capacity)
  }

  function EncodeLines(l: Layout<Glyph>, rows: seq<Line>): (parts: seq<seq<byte>>)
    ensures |parts| == |rows|
  {
    seq(|rows|, i requires 0 <= i < |rows| => Flat(EncodeItems(l, rows[i])))
  }

  function Exported(abi: Abi, capacity: nat, e: Term, t: Transport): (b: seq<byte>)
    requires ValidTerm(e, capacity) && Exportable(e, t) && abi.header.size < 0x1_0000_0000 && abi.glyph.size < 0x1_0000_0000
  {
    abi.header.encode(HeaderOf(abi, capacity, e, t)) + Flat(EncodeItems(abi.stop, e.tabs)) + e.str +
    Flat(EncodeLines(abi.glyph, Rows(e, capacity)))
  }

  // ---- What is read ----

  predicate InGrid(p: Point, h: Header) {
    0 <= p.x < h.col && 0 <= p.y < h.row
  }

  /** Cleared selections keep stale coordinates; only active bounds are meaningful. */
  predicate ValidSelection(h: Header) {
    var s := h.selection;
    s.ob.x == -1 ||
    (0 <= s.mode <= SEL_READY && SEL_REGULAR <= s.kind <= SEL_RECTANGULAR && 0 <= s.snap <= SNAP_LINE && s.nb.y <= s.ne.y &&
     InGrid(s.ob, h) && InGrid(s.oe, h) && InGrid(s.nb, h) && InGrid(s.ne, h))
  }

  /** The header's history size as C reads it: an int. */
  function AsInt(v: u32): (x: int32) {
    if v >= 0x8000_0000 then v - 0x1_0000_0000 else v
  }

  predicate HeaderOk(abi: Abi, capacity: nat, h: Header) {
    && h.magic == MAGIC && h.version == VERSION && h.bytes == abi.header.size && h.glyphBytes == abi.glyph.size
    && 1 <= h.row <= MAX_SIDE && 1 <= h.col <= MAX_SIDE
    && h.col * (h.row * 2 + Max(h.histlen, 0)) <= MAX_GRID
    && 0 <= h.histlen <= capacity && h.histlen <= AsInt(h.history)
    && 0 <= h.scr <= h.histlen && 0 <= h.top <= h.bot < h.row
    && 0 <= h.c.x < h.col && 0 <= h.c.y < h.row
    && 0 <= h.charset <= 3 && 0 <= h.icharset <= 3
    && 0 <= h.pending <= BUFFER && h.strLen <= MAX_STRING
    && -1 <= h.outputKind <= 1 && h.csi.len <= ESC_BUF && 0 <= h.csi.narg <= ESC_ARGS
    && !(h.esc / ESC_CSI % 2 == 1 && h.csi.len >= ESC_BUF - 1)
    && ValidSelection(h)
  }

  /** Where the parts of a snapshot with this header end. */
  function TabsEnd(abi: Abi, h: Header): (n: nat)
    requires h.col >= 0
  {
    abi.header.size + h.col * abi.stop.size
  }

  function RowsStart(abi: Abi, h: Header): (n: nat)
    requires h.col >= 0
  {
    TabsEnd(abi, h) + h.strLen
  }

  function RowCount(h: Header): (n: nat)
    requires h.row >= 0 && h.histlen >= 0
  {
    h.row * 2 + h.histlen
  }

  function Size(abi: Abi, h: Header): (n: nat)
    requires h.col >= 0 && h.row >= 0 && h.histlen >= 0
  {
    RowsStart(abi, h) + RowCount(h) * (h.col * abi.glyph.size)
  }

  function DecodeLines(l: Layout<Glyph>, b: seq<byte>, count: nat, col: nat): (rows: seq<Line>)
    requires |b| == count * (col * l.size)
    ensures |rows| == count
  {
    seq(count, i requires 0 <= i < count => DecodeItems(l, Part(b, col * l.size, count, i), col))
  }

  /** A ring that starts with the given rows. */
  function Ring(rows: seq<Line>, capacity: nat): (ring: seq<Line>)
    requires |rows| <= capacity
    ensures |ring| == if rows == [] then 0 else capacity
  {
    if rows == [] then [] else rows + seq(capacity - |rows|, _ => [])
  }

  function Imported(capacity: nat, h: Header, tabs: seq<int32>, str: seq<byte>, rows: seq<Line>): (e: Term)
    requires h.row >= 0 && 0 <= h.histlen <= capacity && |rows| == RowCount(h)
  {
    Term(h.row, h.col, rows[..h.row], rows[h.row..2 * h.row], Ring(rows[2 * h.row..], capacity), h.histlen,
         if h.histlen == capacity then 0 else h.histlen, h.scr,
         h.c, h.saved, h.selection, h.csi, h.ocx, h.ocy, h.top, h.bot, h.mode, h.esc,
         h.trantbl, h.charset, h.icharset, h.lastc, h.altscreen, h.strType, str, tabs,
         seq(h.row, _ => true), 0, false, 0, false)
  }

  datatype Arrival = Arrival(engine: Term, transport: Transport, used: nat)

  predicate HeaderShape(h: Header, capacity: nat) {
    h.row >= 1 && h.col >= 1 && 0 <= h.histlen <= capacity
  }

  lemma OkShape(abi: Abi, capacity: nat, h: Header)
    requires HeaderOk(abi, capacity, h)
    ensures HeaderShape(h, capacity)
  {
  }

  /** The parts after a header, in order. */
  function Parts(abi: Abi, h: Header, b: seq<byte>): (r: (seq<byte>, seq<byte>, seq<byte>))
    requires h.row >= 0 && h.col >= 0 && h.histlen >= 0 && |b| >= Size(abi, h)
    ensures |r.0| == h.col * abi.stop.size && |r.1| == h.strLen && |r.2| == RowCount(h) * (h.col * abi.glyph.size)
  {
    Offsets(abi, h);
    (b[abi.header.size..TabsEnd(abi, h)], b[TabsEnd(abi, h)..RowsStart(abi, h)], b[RowsStart(abi, h)..Size(abi, h)])
  }

  function Arrived(abi: Abi, capacity: nat, h: Header, parts: (seq<byte>, seq<byte>, seq<byte>)): (r: Arrival)
    requires HeaderShape(h, capacity)
    requires |parts.0| == h.col * abi.stop.size && |parts.2| == RowCount(h) * (h.col * abi.glyph.size)
  {
    Arrival(Imported(capacity, h, DecodeItems(abi.stop, parts.0, h.col), parts.1, DecodeLines(abi.glyph, parts.2, RowCount(h), h.col)),
            Transport(h.pending, h.remoteScroll, h.outputKind, h.buffer), Size(abi, h))
  }

  function Import(abi: Abi, capacity: nat, b: seq<byte>): (r: Option<Arrival>) {
    hide HeaderOk;
    if |b| < abi.header.size then None
    else
      var h := abi.header.decode(b[..abi.header.size]);
      if !HeaderOk(abi, capacity, h) then None
      else
        OkShape(abi, capacity, h);
        if |b| < Size(abi, h) then None else Some(Arrived(abi, capacity, h, Parts(abi, h, b)))
  }

  // ---- Round trips ----

  /** What of an engine survives: everything but the ring's position, damage, timers and undelivered effects. */
  function Normal(e: Term, capacity: nat): (r: Term)
    requires RingOk(e, capacity) && e.row >= 0
  {
    e.(hist := Ring(History(e, capacity), capacity), histi := if e.histlen == capacity then 0 else e.histlen,
       dirty := seq(e.row, _ => true), deadline := 0, expired := false, now := 0, events := false)
  }

  lemma NormalHistory(e: Term, capacity: nat)
    requires ValidTerm(e, capacity)
    ensures RingOk(Normal(e, capacity), capacity) && History(Normal(e, capacity), capacity) == History(e, capacity)
    ensures ValidTerm(Normal(e, capacity), capacity)
  {
    hide LineOk;
    var r := Normal(e, capacity);
    assert RingOk(r, capacity);
    forall k | 0 <= k < e.histlen
      ensures History(r, capacity)[k] == History(e, capacity)[k]
    {
      assert Slot(r, capacity, k) == k;
    }
  }

  lemma LinesRoundTrip(l: Layout<Glyph>, rows: seq<Line>, col: nat)
    requires forall g: Glyph | 0 <= g.mode < 0x1_0000 :: |l.encode(g)| == l.size && l.decode(l.encode(g)) == g
    requires forall i | 0 <= i < |rows| :: LineOk(rows[i], col)
    ensures |Flat(EncodeLines(l, rows))| == |rows| * (col * l.size)
    ensures DecodeLines(l, Flat(EncodeLines(l, rows)), |rows|, col) == rows
  {
    hide Flat, EncodeItems, DecodeItems;
    var parts := EncodeLines(l, rows);
    forall i | 0 <= i < |rows|
      ensures |parts[i]| == col * l.size && DecodeItems(l, parts[i], col) == rows[i]
    {
      ItemsRoundTrip(l, rows[i]);
    }
    FlatLength(parts, col * l.size);
    forall i | 0 <= i < |rows|
      ensures DecodeLines(l, Flat(parts), |rows|, col)[i] == rows[i]
    {
      FlatRow(parts, col * l.size, i);
      assert Part(Flat(parts), col * l.size, |rows|, i) == parts[i];
    }
  }

  lemma RowsOk(e: Term, capacity: nat)
    requires ValidTerm(e, capacity)
    ensures |Rows(e, capacity)| == e.row * 2 + e.histlen
    ensures forall i | 0 <= i < |Rows(e, capacity)| :: LineOk(Rows(e, capacity)[i], e.col)
  {
    hide LineOk, History;
  }

  /** The pieces of an exported snapshot, with anything behind it. */
  lemma ExportedParts(abi: Abi, capacity: nat, e: Term, t: Transport, rest: seq<byte>)
    requires Faithful(abi) && ValidTerm(e, capacity) && ValidTransport(t) && Exportable(e, t)
    ensures var h, b := HeaderOf(abi, capacity, e, t), Exported(abi, capacity, e, t);
      && |b| == Size(abi, h) >= abi.header.size && abi.header.decode((b + rest)[..abi.header.size]) == h
      && Parts(abi, h, b + rest) == (Flat(EncodeItems(abi.stop, e.tabs)), e.str, Flat(EncodeLines(abi.glyph, Rows(e, capacity))))
  {
    hide Flat, EncodeItems, EncodeLines, LineOk, History, Size, Parts;
    var h := HeaderOf(abi, capacity, e, t);
    HeaderRoundTrip(abi, h);
    RowsOk(e, capacity);
    LinesRoundTrip(abi.glyph, Rows(e, capacity), e.col);
    ItemsRoundTrip(abi.stop, e.tabs);
    PartsOf(abi, h, abi.header.encode(h), Flat(EncodeItems(abi.stop, e.tabs)), e.str, Flat(EncodeLines(abi.glyph, Rows(e, capacity))), rest);
  }

  lemma HeaderRoundTrip(abi: Abi, h: Header)
    requires Faithful(abi) && Sized(h)
    ensures |abi.header.encode(h)| == abi.header.size && abi.header.decode(abi.header.encode(h)) == h
  {
  }

  lemma PartsOf(abi: Abi, h: Header, head: seq<byte>, tabs: seq<byte>, str: seq<byte>, rows: seq<byte>, rest: seq<byte>)
    requires h.row >= 0 && h.col >= 0 && h.histlen >= 0 && |head| == abi.header.size && |tabs| == h.col * abi.stop.size
    requires |str| == h.strLen && |rows| == RowCount(h) * (h.col * abi.glyph.size)
    ensures var b := head + tabs + str + rows;
      |b| == Size(abi, h) >= abi.header.size && (b + rest)[..abi.header.size] == head && Parts(abi, h, b + rest) == (tabs, str, rows)
  {
    FourParts(head, tabs, str, rows, rest);
  }

  lemma FourParts(a: seq<byte>, b: seq<byte>, c: seq<byte>, d: seq<byte>, rest: seq<byte>)
    ensures var all := a + b + c + d + rest; var i := |a| + |b|; var j := i + |c|; var k := j + |d|;
      all[..|a|] == a && all[|a|..i] == b && all[i..j] == c && all[j..k] == d
  {
  }

  /**
   Import after export: exactly when the header passes import's checks, the engine comes back in its normal
   form, with its transport state, having consumed exactly the exported bytes whatever follows them.
   */
  lemma RoundTrip(abi: Abi, capacity: nat, e: Term, t: Transport, rest: seq<byte>)
    requires Faithful(abi) && ValidTerm(e, capacity) && ValidTransport(t) && Exportable(e, t)
    ensures var b := Exported(abi, capacity, e, t);
      Import(abi, capacity, b + rest) ==
        if HeaderOk(abi, capacity, HeaderOf(abi, capacity, e, t)) then Some(Arrival(Normal(e, capacity), t, |b|)) else None
  {
    hide Flat, EncodeItems, EncodeLines, DecodeItems, DecodeLines, HeaderOk, History, Exported, Rows, Ring;
    var h, b := HeaderOf(abi, capacity, e, t), Exported(abi, capacity, e, t);
    ExportedParts(abi, capacity, e, t, rest);
    if HeaderOk(abi, capacity, h) {
      OkShape(abi, capacity, h);
      var tabs, rows := Flat(EncodeItems(abi.stop, e.tabs)), Flat(EncodeLines(abi.glyph, Rows(e, capacity)));
      RowsOk(e, capacity);
      ItemsRoundTrip(abi.stop, e.tabs);
      LinesRoundTrip(abi.glyph, Rows(e, capacity), e.col);
      ImportedIsNormal(capacity, e, h);
    }
  }

  lemma ImportedIsNormal(capacity: nat, e: Term, h: Header)
    requires ValidTerm(e, capacity) && h.row == e.row && h.col == e.col && h.histlen == e.histlen && h.scr == e.scr
    requires h.c == e.c && h.saved == e.saved && h.selection == e.selection && h.csi == e.csi && h.ocx == e.ocx && h.ocy == e.ocy
    requires h.top == e.top && h.bot == e.bot && h.mode == e.mode && h.esc == e.esc && h.trantbl == e.trantbl
    requires h.charset == e.charset && h.icharset == e.icharset && h.lastc == e.lastc && h.altscreen == e.altscreen && h.strType == e.strType
    ensures |Rows(e, capacity)| == RowCount(h) && Imported(capacity, h, e.tabs, e.str, Rows(e, capacity)) == Normal(e, capacity)
  {
    hide History, Ring, LineOk;
    var rows := Rows(e, capacity);
    assert rows[..e.row] == e.line && rows[e.row..2 * e.row] == e.alt && rows[2 * e.row..] == History(e, capacity);
  }

  /** Exporting again what was imported writes the identical bytes. */
  lemma ReExport(abi: Abi, capacity: nat, e: Term, t: Transport)
    requires Faithful(abi) && ValidTerm(e, capacity) && ValidTransport(t) && Exportable(e, t)
    ensures var r := Normal(e, capacity);
      ValidTerm(r, capacity) && Exportable(r, t) && Exported(abi, capacity, r, t) == Exported(abi, capacity, e, t)
  {
    hide History, LineOk, Ring, ValidTerm, Flat, EncodeItems, EncodeLines;
    NormalHistory(e, capacity);
    TermRing(e, capacity);
    assert Rows(Normal(e, capacity), capacity) == Rows(e, capacity);
  }

  lemma TermRing(e: Term, capacity: nat)
    requires ValidTerm(e, capacity)
    ensures RingOk(e, capacity) && e.row >= 1
  {
  }

  /** No strict prefix of a snapshot is accepted. */
  lemma TruncatedIsRefused(abi: Abi, capacity: nat, e: Term, t: Transport, n: nat)
    requires Faithful(abi) && ValidTerm(e, capacity) && ValidTransport(t) && Exportable(e, t)
    requires n < |Exported(abi, capacity, e, t)|
    ensures Import(abi, capacity, Exported(abi, capacity, e, t)[..n]).None?
  {
    hide Flat, EncodeItems, EncodeLines, HeaderOk, History, Exported, Rows, Ring, Parts, Arrived;
    var b := Exported(abi, capacity, e, t);
    ExportedParts(abi, capacity, e, t, []);
    assert b + [] == b;
    if n >= abi.header.size {
      assert b[..n][..abi.header.size] == b[..abi.header.size];
    }
  }

  /** Import reads nothing past what it consumes. */
  lemma ImportIsPrefix(abi: Abi, capacity: nat, b: seq<byte>, rest: seq<byte>)
    requires Import(abi, capacity, b).Some?
    ensures Import(abi, capacity, b).value.used <= |b|
    ensures Import(abi, capacity, b + rest) == Import(abi, capacity, b)
  {
    hide HeaderOk, RowCount, Imported, Parts, Size, DecodeItems, DecodeLines;
    SamePart(b, rest, 0, abi.header.size);
    var h := abi.header.decode(b[..abi.header.size]);
    OkShape(abi, capacity, h);
    SameParts(abi, h, b, rest);
  }

  lemma SameParts(abi: Abi, h: Header, b: seq<byte>, rest: seq<byte>)
    requires h.row >= 0 && h.col >= 0 && h.histlen >= 0 && |b| >= Size(abi, h)
    ensures Parts(abi, h, b + rest) == Parts(abi, h, b)
  {
    Offsets(abi, h);
    hide Size, TabsEnd, RowsStart, RowCount;
    SamePart(b, rest, abi.header.size, TabsEnd(abi, h));
    SamePart(b, rest, TabsEnd(abi, h), RowsStart(abi, h));
    SamePart(b, rest, RowsStart(abi, h), Size(abi, h));
  }

  lemma Offsets(abi: Abi, h: Header)
    requires h.row >= 0 && h.col >= 0 && h.histlen >= 0
    ensures abi.header.size <= TabsEnd(abi, h) <= RowsStart(abi, h) <= Size(abi, h)
  {
    hide RowCount;
    Monotone(h.col * abi.glyph.size, 0, RowCount(h));
  }

  lemma SamePart(b: seq<byte>, rest: seq<byte>, i: nat, j: nat)
    requires i <= j <= |b|
    ensures (b + rest)[i..j] == b[i..j]
  {
  }

  // ---- The transfer stream and the loops over it ----

  /** A memory stream: counting only advances, writing fills a given buffer, reading takes from it. */
  class Stream {
    var data: seq<byte>
    var used: nat
    const counting: bool

    ghost predicate Valid()
      reads this
    {
      counting || used <= |data|
    }

    constructor (data: seq<byte>, counting: bool)
      ensures Valid() && this.data == data && used == 0 && this.counting == counting
    {
      this.data, used, this.counting := data, 0, counting;
    }

    method Put(bytes: seq<byte>) returns (ok: bool)
      requires Valid()
      modifies this
      ensures Valid() && |data| == |old(data)|
      ensures ok <==> counting || |bytes| <= |old(data)| - old(used)
      ensures ok ==> used == old(used) + |bytes|
      ensures ok && !counting ==> data == old(data)[..old(used)] + bytes + old(data)[used..]
      ensures counting ==> data == old(data)
      ensures !ok ==> unchanged(this)
    {
      if !counting && |bytes| > |data| - used {
        return false;
      }
      if !counting {
        data := data[..used] + bytes + data[used + |bytes|..];
      }
      used := used + |bytes|;
      ok := true;
    }

    method Get(count: nat) returns (bytes: Option<seq<byte>>)
      requires Valid() && !counting
      modifies this`used
      ensures Valid()
      ensures bytes.Some? <==> count <= |data| - old(used)
      ensures bytes.Some? ==> bytes.value == data[old(used)..old(used) + count] && used == old(used) + count
      ensures bytes.None? ==> used == old(used)
    {
      if count > |data| - used {
        return None;
      }
      bytes := Some(data[used..used + count]);
      used := used + count;
    }
  }

  /** Since a stream stood at `start`, exactly these bytes have gone through it. */
  ghost predicate Wrote(io: Stream, data: seq<byte>, start: nat, done: seq<byte>)
    reads io
  {
    && io.Valid() && io.used == start + |done|
    && if io.counting then io.data == data
       else start + |done| <= |data| && io.data == data[..start] + done + data[start + |done|..]
  }

  /** Put the next bytes of a whole that either fits or does not. */
  method PutNext(io: Stream, bytes: seq<byte>, ghost data: seq<byte>, ghost start: nat, ghost done: seq<byte>) returns (ok: bool)
    requires Wrote(io, data, start, done)
    modifies io
    ensures io.Valid()
    ensures ok <==> io.counting || start + |done + bytes| <= |data|
    ensures ok ==> Wrote(io, data, start, done + bytes)
  {
    ok := io.Put(bytes);
    if ok && !io.counting {
      assert io.data == data[..start] + (done + bytes) + data[start + |done + bytes|..];
    }
  }

  /** The i-th row of a snapshot: live, alternate, or from the ring. */
  method RowAt(e: Term, capacity: nat, i: nat) returns (row: Line)
    requires ValidTerm(e, capacity) && i < e.row * 2 + e.histlen
    ensures row == Rows(e, capacity)[i]
  {
    if i < e.row {
      row := e.line[i];
    } else if i < 2 * e.row {
      row := e.alt[i - e.row];
    } else {
      SlotIs(e, capacity, i - 2 * e.row);
      row := e.hist[(e.histi - e.histlen + (i - 2 * e.row) + capacity) % capacity];
    }
  }

  method EncodedLine(l: Layout<Glyph>, row: Line) returns (bytes: seq<byte>)
    ensures bytes == Flat(EncodeItems(l, row))
  {
    bytes := EncodedItems(l, row);
  }

  method EncodedItems<T>(l: Layout<T>, items: seq<T>) returns (bytes: seq<byte>)
    ensures bytes == Flat(EncodeItems(l, items))
  {
    bytes := [];
    assert EncodeItems(l, items[..0]) == [];
    for i := 0 to |items|
      invariant bytes == Flat(EncodeItems(l, items[..i]))
    {
      assert EncodeItems(l, items[..i + 1]) == EncodeItems(l, items[..i]) + [l.encode(items[i])];
      FlatConcat(EncodeItems(l, items[..i]), [l.encode(items[i])]);
      FlatOne(l.encode(items[i]));
      bytes := bytes + l.encode(items[i]);
    }
    assert items[..|items|] == items;
  }

  lemma LinesNext(l: Layout<Glyph>, rows: seq<Line>, i: nat)
    requires i < |rows|
    ensures Flat(EncodeLines(l, rows[..i + 1])) == Flat(EncodeLines(l, rows[..i])) + Flat(EncodeItems(l, rows[i]))
    ensures |Flat(EncodeLines(l, rows[..i + 1]))| <= |Flat(EncodeLines(l, rows))|
  {
    hide Flat, EncodeItems;
    var part := Flat(EncodeItems(l, rows[i]));
    assert EncodeLines(l, rows[..i + 1]) == EncodeLines(l, rows[..i]) + [part];
    FlatConcat(EncodeLines(l, rows[..i]), [part]);
    FlatOne(part);
    assert EncodeLines(l, rows) == EncodeLines(l, rows[..i + 1]) + EncodeLines(l, rows[i + 1..]);
    FlatConcat(EncodeLines(l, rows[..i + 1]), EncodeLines(l, rows[i + 1..]));
  }

  /** The rows of a snapshot, one after another. */
  method PutRows(abi: Abi, capacity: nat, e: Term, io: Stream, ghost data: seq<byte>, ghost start: nat, ghost done: seq<byte>) returns (ok: bool)
    requires ValidTerm(e, capacity) && Wrote(io, data, start, done)
    modifies io
    ensures io.Valid()
    ensures var whole := done + Flat(EncodeLines(abi.glyph, Rows(e, capacity)));
      (ok <==> io.counting || start + |whole| <= |data|) && (ok ==> Wrote(io, data, start, whole))
  {
    hide Flat, EncodeItems, History, LineOk, Rows, EncodeLines;
    ghost var rows := Rows(e, capacity);
    RowsOk(e, capacity);
    NoLines(abi.glyph, rows);
    assert done + [] == done;
    for i := 0 to e.row * 2 + e.histlen
      invariant Wrote(io, data, start, done + Flat(EncodeLines(abi.glyph, rows[..i])))
    {
      var row := RowAt(e, capacity, i);
      var bytes := EncodedLine(abi.glyph, row);
      LinesNext(abi.glyph, rows, i);
      ghost var sofar := Flat(EncodeLines(abi.glyph, rows[..i]));
      assert (done + sofar) + bytes == done + (sofar + bytes);
      ok := PutNext(io, bytes, data, start, done + sofar);
      if !ok {
        return;
      }
    }
    assert rows[..|rows|] == rows;
    ok := true;
  }

  lemma NoLines(l: Layout<Glyph>, rows: seq<Line>)
    ensures Flat(EncodeLines(l, rows[..0])) == []
  {
  }

  /** The export pass: refused states write nothing; otherwise it counts or writes exactly the snapshot. */
  method ExportTo(abi: Abi, capacity: nat, e: Term, t: Transport, io: Stream) returns (ok: bool)
    requires Faithful(abi) && ValidTerm(e, capacity) && ValidTransport(t) && io.Valid()
    modifies io
    ensures io.Valid()
    ensures !Exportable(e, t) ==> !ok && unchanged(io)
    ensures Exportable(e, t) ==>
      var whole := Exported(abi, capacity, e, t);
      (ok <==> io.counting || old(io.used) + |whole| <= |old(io.data)|) && (ok ==> Wrote(io, old(io.data), old(io.used), whole))
  {
    hide Flat, EncodeItems, EncodeLines, Faithful, ValidTerm, Rows;
    if e.events || t.pending < 0 || t.pending > BUFFER || t.outputKind < -1 || t.outputKind > 1 || |e.str| > MAX_STRING ||
       e.col * (e.row * 2 + e.histlen) > MAX_GRID {
      return false;
    }
    ghost var data, start := io.data, io.used;
    LayoutSizes(abi);
    var head := abi.header.encode(HeaderOf(abi, capacity, e, t));
    var tabs := EncodedItems(abi.stop, e.tabs);
    assert [] + head == head;
    ok := PutNext(io, head, data, start, []);
    if ok {
      ok := PutNext(io, tabs, data, start, head);
    }
    if ok {
      ok := PutNext(io, e.str, data, start, head + tabs);
    }
    if ok {
      ok := PutRows(abi, capacity, e, io, data, start, head + tabs + e.str);
    }
  }

  lemma LayoutSizes(abi: Abi)
    requires Faithful(abi)
    ensures abi.header.size < 0x1_0000_0000 && 0 < abi.glyph.size < 0x1_0000_0000
  {
  }

  datatype Status = Ok | Invalid | Capacity | Pending

  /** The counting pass measures exactly what the writing pass writes. */
  method Export(abi: Abi, capacity: nat, e: Term, t: Transport, data: seq<byte>) returns (status: Status, required: nat, filled: seq<byte>)
    requires Faithful(abi) && ValidTerm(e, capacity) && ValidTransport(t)
    ensures status == Pending <==> e.events && TransportExportable(t)
    ensures status == Invalid <==> !TransportExportable(t) || (!e.events && !Exportable(e, t))
    ensures status == Capacity || status == Ok ==> Exportable(e, t) && required == |Exported(abi, capacity, e, t)|
    ensures status == Capacity ==> |data| < required
    ensures status == Ok ==> required <= |data| && filled == Exported(abi, capacity, e, t) + data[required..]
    ensures status != Ok ==> filled == data
  {
    hide Exported, Faithful, ValidTerm;
    required, filled := 0, data;
    if !(0 <= t.pending <= BUFFER && -1 <= t.outputKind <= 1) {
      return Invalid, 0, data;
    }
    if e.events {
      return Pending, 0, data;
    }
    LayoutSizes(abi);
    var counter := new Stream([], true);
    var counted := ExportTo(abi, capacity, e, t, counter);
    if !counted {
      return Invalid, 0, data;
    }
    required := counter.used;
    if |data| < required {
      return Capacity, required, data;
    }
    var stream := new Stream(data, false);
    var written := ExportTo(abi, capacity, e, t, stream);
    assert data[..0] + Exported(abi, capacity, e, t) == Exported(abi, capacity, e, t);
    filled := stream.data;
    status := Ok;
  }

  method DecodedItems<T>(l: Layout<T>, bytes: seq<byte>, count: nat) returns (items: seq<T>)
    requires |bytes| == count * l.size
    ensures items == DecodeItems(l, bytes, count)
  {
    items := [];
    for i := 0 to count
      invariant |items| == i && forall k | 0 <= k < i :: items[k] == DecodeItems(l, bytes, count)[k]
    {
      items := items + [l.decode(Part(bytes, l.size, count, i))];
    }
  }

  lemma PartOfSlice(b: seq<byte>, start: nat, size: nat, count: nat, i: nat)
    requires start + count * size <= |b| && i < count
    ensures start + i * size + size <= |b|
    ensures Part(b[start..start + count * size], size, count, i) == b[start + i * size..start + i * size + size]
  {
    Distribute(i, 1, size);
    Distribute(i + 1, count - i - 1, size);
  }

  /** The rows of a snapshot, one read each; the first that is cut short fails them all. */
  method GetRows(abi: Abi, io: Stream, count: nat, col: nat) returns (rows: Option<seq<Line>>)
    requires io.Valid() && !io.counting
    modifies io`used
    ensures rows.Some? <==> old(io.used) + count * (col * abi.glyph.size) <= |io.data|
    ensures rows.Some? ==>
      var end := old(io.used) + count * (col * abi.glyph.size);
      io.used == end && rows.value == DecodeLines(abi.glyph, io.data[old(io.used)..end], count, col)
  {
    hide Part, DecodeItems;
    var size := col * abi.glyph.size;
    ghost var start, b := io.used, io.data;
    var sofar: seq<Line> := [];
    for i := 0 to count
      invariant io.data == b && start <= io.used <= |b| && io.used == start + i * size && |sofar| == i
      invariant start + count * size <= |b| ==>
        forall k | 0 <= k < i :: sofar[k] == DecodeLines(abi.glyph, b[start..start + count * size], count, col)[k]
    {
      Distribute(i, 1, size);
      Monotone(count, i + 1, size);
      var bytes := io.Get(size);
      if bytes.None? {
        return None;
      }
      if start + count * size <= |b| {
        PartOfSlice(b, start, size, count, i);
      }
      var row := DecodedItems(abi.glyph, bytes.value, col);
      sofar := sofar + [row];
    }
    rows := Some(sofar);
  }

  /** Import stages everything and publishes it whole: the result is exactly what the snapshot's bytes mean. */
  method ImportPrefix(abi: Abi, capacity: nat, bytes: seq<byte>) returns (r: Option<Arrival>)
    ensures r == Import(abi, capacity, bytes)
  {
    hide HeaderOk, Imported, DecodeItems, DecodeLines;
    var io := new Stream(bytes, false);
    var head := io.Get(abi.header.size);
    if head.None? {
      return None;
    }
    var h := abi.header.decode(head.value);
    if !HeaderOk(abi, capacity, h) {
      return None;
    }
    OkShape(abi, capacity, h);
    Offsets(abi, h);
    var tabBytes := io.Get(h.col * abi.stop.size);
    if tabBytes.None? {
      return None;
    }
    var tabs := DecodedItems(abi.stop, tabBytes.value, h.col);
    var str := io.Get(h.strLen);
    if str.None? {
      return None;
    }
    var rows := GetRows(abi, io, h.row * 2 + h.histlen, h.col);
    if rows.None? {
      return None;
    }
    r := Some(Arrival(Imported(capacity, h, tabs, str.value, rows.value), Transport(h.pending, h.remoteScroll, h.outputKind, h.buffer), io.used));
  }
}
