/**
 The transfer snapshot: what a donor writes for its tabs, the descriptors it sends with it, and what a
 receiver reads back. Words inside a tab's record are big-endian, those around the records little-endian.
 */
module Snapshots {
  import opened Bytes
  import opened EngineSnapshots
  import F = Framing
  import T = Transfers

  const HANDOFF_MAGIC: u32 := 0x57484f31
  const MANUAL_VERSION: u32 := 1
  const UPGRADE_VERSION: u32 := 2
  const MAX_RECORD: nat := 8 * 1024 * 1024
  const INPUT_QUEUE: nat := 1024 * 1024
  const MAX_PID: nat := 0x7fff_ffff

  type Fd = nat

  /** Where a tab's printer output goes. */
  datatype Printer = ToClient | ToFile(fd: Fd) | NoPrinter

  datatype SavedTerminal = SavedTerminal(
    engine: Term, master: Fd, child: nat, input: seq<byte>, pending: seq<byte>, remoteScroll: int32, printer: Printer)

  datatype SavedTab = SavedTab(
    id: u32, title: seq<byte>, initialTitle: seq<byte>, directory: seq<byte>, clipboard: seq<byte>, url: Option<seq<byte>>,
    mode: u32, style: u32, colors: Option<seq<Option<seq<byte>>>>, terminal: Option<SavedTerminal>)

  /** The engine's layouts and ring size, the number of colour names, and which masters and pids can be adopted. */
  datatype Env = Env(abi: Abi, capacity: nat, colors: nat, adoptable: (Fd, nat) -> bool, stdout: Fd)

  ghost predicate EnvOk(env: Env) {
    Faithful(env.abi) && env.colors < 0x1_0000_0000
  }

  // ---- Words and strings ----

  function PutNative(v: u32): (b: seq<byte>)
    ensures |b| == 4
  {
    var p := PutU32(v);
    [p[3], p[2], p[1], p[0]]
  }

  function GetNative(b: seq<byte>): (v: u32)
    requires |b| == 4
  {
    GetU32([b[3], b[2], b[1], b[0]])
  }

  function Native(b: seq<byte>): (r: Option<(u32, seq<byte>)>) {
    if |b| < 4 then None else Some((GetNative(b[..4]), b[4..]))
  }

  predicate ShortTexts(texts: seq<seq<byte>>) {
    forall i | 0 <= i < |texts| :: |texts[i]| < 0x1_0000_0000
  }

  function PutTexts(texts: seq<seq<byte>>): (b: seq<byte>)
    requires ShortTexts(texts)
  {
    if texts == [] then [] else PutU32(|texts[0]|) + texts[0] + PutTexts(texts[1..])
  }

  function Texts(b: seq<byte>, count: nat): (r: Option<(seq<seq<byte>>, seq<byte>)>)
    ensures r.Some? ==> |r.value.0| == count
    decreases count
  {
    if count == 0 then Some(([], b))
    else
      var (n, b1) :- Word(b);
      if n > |b1| then None
      else
        var (more, b2) :- Texts(b1[n..], count - 1);
        Some(([UpToNul(b1[..n])] + more, b2))
  }

  function Words(b: seq<byte>, count: nat): (r: Option<(seq<u32>, seq<byte>)>)
    ensures r.Some? ==> |r.value.0| == count
    decreases count
  {
    if count == 0 then Some(([], b))
    else
      var (v, b1) :- Word(b);
      var (more, b2) :- Words(b1, count - 1);
      Some(([v] + more, b2))
  }

  lemma NativeOf(v: u32, rest: seq<byte>)
    ensures Native(PutNative(v) + rest) == Some((v, rest))
  {
    var b := PutNative(v) + rest;
    assert b[..4] == PutNative(v) && b[4..] == rest;
    GetPut(v);
    var p := PutU32(v);
    assert [PutNative(v)[3], PutNative(v)[2], PutNative(v)[1], PutNative(v)[0]] == p;
  }

  lemma {:induction false} WordsOf(vs: seq<u32>, rest: seq<byte>)
    ensures Words(PutWords(vs) + rest, |vs|) == Some((vs, rest))
  {
    hide PutU32, Word;
    if vs == [] {
      assert PutWords(vs) + rest == rest;
    } else {
      assert PutWords(vs) + rest == PutU32(vs[0]) + (PutWords(vs[1..]) + rest);
      WordOf(vs[0], PutWords(vs[1..]) + rest);
      WordsOf(vs[1..], rest);
      assert [vs[0]] + vs[1..] == vs;
    }
  }

  function Cut(texts: seq<seq<byte>>): (r: seq<seq<byte>>)
    ensures |r| == |texts|
  {
    seq(|texts|, i requires 0 <= i < |texts| => UpToNul(texts[i]))
  }

  /** Strings come back in order, each up to its first NUL, and nothing behind them is touched. */
  lemma {:induction false} TextsOf(texts: seq<seq<byte>>, rest: seq<byte>)
    requires ShortTexts(texts)
    ensures Texts(PutTexts(texts) + rest, |texts|) == Some((Cut(texts), rest))
  {
    hide PutU32, Word, UpToNul;
    if texts == [] {
      assert PutTexts(texts) + rest == rest;
    } else {
      var tail := PutTexts(texts[1..]) + rest;
      assert PutTexts(texts) + rest == PutU32(|texts[0]|) + (texts[0] + tail);
      WordOf(|texts[0]|, texts[0] + tail);
      assert (texts[0] + tail)[..|texts[0]|] == texts[0] && (texts[0] + tail)[|texts[0]|..] == tail;
      TextsOf(texts[1..], rest);
      assert Cut(texts) == [UpToNul(texts[0])] + Cut(texts[1..]);
    }
  }

  // ---- One tab's record ----

  function Flag(b: bool): u32 {
    if b then 1 else 0
  }

  function Named(t: SavedTab): (texts: seq<seq<byte>>)
    ensures |texts| == 5
  {
    [t.title, t.initialTitle, t.directory, t.clipboard, if t.url.Some? then t.url.value else []]
  }

  /** Every colour name, empty where it is not overridden. */
  function ColorTexts(t: SavedTab, count: nat): (texts: seq<seq<byte>>)
    requires t.colors.Some? ==> |t.colors.value| == count
    ensures |texts| == count
  {
    seq(count, i requires 0 <= i < count => if t.colors.Some? && t.colors.value[i].Some? then t.colors.value[i].value else [])
  }

  function Input(t: SavedTab): seq<byte> {
    if t.terminal.Some? then t.terminal.value.input else []
  }

  /** Sizes that fit their fields, and colour lists as long as the list of names. */
  predicate Encodable(t: SavedTab, env: Env) {
    && (t.colors.Some? ==> |t.colors.value| == env.colors)
    && ShortTexts(Named(t)) && ShortTexts(ColorTexts(t, env.colors))
    && |Input(t)| <= INPUT_QUEUE && env.colors < 0x1_0000_0000
    && (t.terminal.Some? ==> t.terminal.value.child <= MAX_PID)
  }

  function Body(t: SavedTab, env: Env): (b: seq<byte>)
    requires Encodable(t, env)
  {
    PutWords([Flag(t.url.Some?), t.mode, t.style, if t.terminal.Some? then t.terminal.value.child else 0]) +
    (PutTexts(Named(t)) + (PutU32(env.colors) + (PutTexts(ColorTexts(t, env.colors)) + (PutU32(|Input(t)|) + Input(t)))))
  }

  datatype Fields = Fields(words: seq<u32>, texts: seq<seq<byte>>, colors: seq<seq<byte>>, input: seq<byte>)

  function ReadBody(b: seq<byte>, env: Env): (r: Option<Fields>)
    ensures r.Some? ==> |r.value.words| == 4 && |r.value.texts| == 5 && |r.value.colors| == env.colors
    ensures r.Some? ==> r.value.words[0] <= 1 && r.value.words[2] <= 7 && r.value.words[3] <= MAX_PID && |r.value.input| <= INPUT_QUEUE
  {
    var (words, b1) :- Words(b, 4);
    if words[0] > 1 || words[2] > 7 || words[3] > MAX_PID then None
    else
      var (texts, b2) :- Texts(b1, 5);
      var (count, b3) :- Word(b2);
      if count != env.colors then None
      else
        var (colors, b4) :- Texts(b3, env.colors);
        var (n, b5) :- Word(b4);
        if n > INPUT_QUEUE || |b5| != n then None else Some(Fields(words, texts, colors, b5))
  }

  lemma BodyOf(t: SavedTab, env: Env)
    requires Encodable(t, env) && t.style <= 7
    ensures ReadBody(Body(t, env), env) ==
      Some(Fields([Flag(t.url.Some?), t.mode, t.style, if t.terminal.Some? then t.terminal.value.child else 0],
                  Cut(Named(t)), Cut(ColorTexts(t, env.colors)), Input(t)))
  {
    hide PutWords, PutTexts, PutU32, Words, Texts, Word, Cut, ColorTexts, Named;
    var input := PutU32(|Input(t)|) + Input(t);
    var colors := PutTexts(ColorTexts(t, env.colors)) + input;
    var counted := PutU32(env.colors) + colors;
    var texts := PutTexts(Named(t)) + counted;
    var words := [Flag(t.url.Some?), t.mode, t.style, if t.terminal.Some? then t.terminal.value.child else 0];
    WordsOf(words, texts);
    TextsOf(Named(t), counted);
    WordOf(env.colors, colors);
    TextsOf(ColorTexts(t, env.colors), input);
    WordOf(|Input(t)|, Input(t));
  }

  /** Empty colour names mean no override, and no override at all means no list. */
  function Overrides(names: seq<seq<byte>>): (r: Option<seq<Option<seq<byte>>>>) {
    if forall i | 0 <= i < |names| :: names[i] == [] then None
    else Some(seq(|names|, i requires 0 <= i < |names| => if names[i] == [] then None else Some(names[i])))
  }

  function TransportOf(t: SavedTerminal): (r: Transport)
    requires |t.pending| <= BUFFER
  {
    Transport(|t.pending|, t.remoteScroll, match t.printer case ToClient => 1 case ToFile(_) => 0 case NoPrinter => -1,
              t.pending + seq(BUFFER - |t.pending|, _ => 0))
  }

  /** What the donor's own invariants give: a page or a terminal, never both or neither, and engines that can be exported. */
  predicate Savable(t: SavedTab, env: Env) {
    && Encodable(t, env) && t.style <= 7
    && (t.url.Some? <==> t.terminal.None?)
    && |Body(t, env)| <= MAX_RECORD - 4
    && (t.terminal.Some? ==> SavableTerminal(t.terminal.value, env))
  }

  predicate SavableTerminal(t: SavedTerminal, env: Env) {
    && |t.pending| <= BUFFER && ValidTerm(t.engine, env.capacity) && Exportable(t.engine, TransportOf(t))
    && env.abi.header.size < 0x1_0000_0000 && env.abi.glyph.size < 0x1_0000_0000
  }

  function Record(t: SavedTab, env: Env): (b: seq<byte>)
    requires Savable(t, env)
  {
    PutNative(|Body(t, env)|) + Body(t, env) +
    (if t.terminal.Some? then Exported(env.abi, env.capacity, t.terminal.value.engine, TransportOf(t.terminal.value)) else [])
  }

  function TabFds(t: SavedTab, env: Env): (fds: seq<Fd>) {
    if t.terminal.None? then []
    else [t.terminal.value.master, if t.terminal.value.printer.ToFile? then t.terminal.value.printer.fd else env.stdout]
  }

  // ---- Reading one tab ----

  datatype Taken = Taken(tab: SavedTab, rest: seq<byte>, fds: seq<Fd>)

  function ReadTerminal(b: seq<byte>, f: Fields, fds: seq<Fd>, env: Env): (r: Option<(SavedTerminal, seq<byte>, seq<Fd>)>)
    requires |f.words| == 4
  {
    var a :- Import(env.abi, env.capacity, b);
    if a.used > |b| || |fds| < 2 || !env.adoptable(fds[0], f.words[3]) || !(0 <= a.transport.pending <= |a.transport.buffer|) then None
    else
      var printer: Option<Printer> :=
        if a.transport.outputKind == 0 then Some(ToFile(fds[1]))
        else if a.transport.outputKind == 1 then Some(ToClient)
        else if a.transport.outputKind == -1 then Some(NoPrinter) else None;
      var output :- printer;
      Some((SavedTerminal(a.engine, fds[0], f.words[3], f.input, a.transport.buffer[..a.transport.pending], a.transport.remoteScroll, output),
            b[a.used..], fds[2..]))
  }

  function ReadTab(b: seq<byte>, id: u32, fds: seq<Fd>, env: Env): (r: Option<Taken>) {
    var (length, b1) :- Native(b);
    if length > MAX_RECORD || length > |b1| then None
    else
      var f :- ReadBody(b1[..length], env);
      var tab := SavedTab(id, f.texts[0], f.texts[1], f.texts[2], f.texts[3], None, f.words[1], f.words[2], Overrides(f.colors), None);
      if f.words[0] == 1 then Some(Taken(tab.(url := Some(f.texts[4])), b1[length..], fds))
      else
        var (terminal, rest, left) :- ReadTerminal(b1[length..], f, fds, env);
        Some(Taken(tab.(terminal := Some(terminal)), rest, left))
  }

  /** A tab as a receiver has it: strings up to their first NUL, empty overrides gone, the engine in its normal form. */
  function Restored(t: SavedTab, id: u32, env: Env): (r: SavedTab)
    requires Savable(t, env)
  {
    SavedTab(id, UpToNul(t.title), UpToNul(t.initialTitle), UpToNul(t.directory), UpToNul(t.clipboard),
             if t.url.Some? then Some(UpToNul(t.url.value)) else None, t.mode, t.style, Overrides(Cut(ColorTexts(t, env.colors))),
             if t.terminal.Some? then Some(t.terminal.value.(engine := Normal(t.terminal.value.engine, env.capacity))) else None)
  }

  /** What only the receiver can refuse: an engine header outside its bounds, or a master and child it cannot take. */
  predicate Acceptable(t: SavedTab, env: Env)
    requires Savable(t, env)
  {
    t.terminal.Some? ==>
      && HeaderOk(env.abi, env.capacity, HeaderOf(env.abi, env.capacity, t.terminal.value.engine, TransportOf(t.terminal.value)))
      && env.adoptable(t.terminal.value.master, t.terminal.value.child)
  }

  lemma TerminalOf(t: SavedTab, f: Fields, rest: seq<byte>, fds: seq<Fd>, env: Env)
    requires EnvOk(env) && Savable(t, env) && t.terminal.Some? && |f.words| == 4
    requires f.words[3] == t.terminal.value.child && f.input == t.terminal.value.input
    ensures var e := t.terminal.value;
      ReadTerminal(Exported(env.abi, env.capacity, e.engine, TransportOf(e)) + rest, f, TabFds(t, env) + fds, env) ==
        if Acceptable(t, env) then Some((e.(engine := Normal(e.engine, env.capacity)), rest, fds)) else None
  {
    hide Exported, Import, HeaderOk, Faithful, ValidTerm, Exportable, Normal, HeaderOf, Body, Encodable;
    var e := t.terminal.value;
    var b := Exported(env.abi, env.capacity, e.engine, TransportOf(e));
    RoundTrip(env.abi, env.capacity, e.engine, TransportOf(e), rest);
    assert (b + rest)[|b|..] == rest;
    assert (TabFds(t, env) + fds)[2..] == fds;
    assert TransportOf(e).buffer[..|e.pending|] == e.pending;
  }

  /** One record read back: the same tab, its own two descriptors, nothing more and nothing less consumed. */
  lemma TabRoundTrip(t: SavedTab, id: u32, rest: seq<byte>, fds: seq<Fd>, env: Env)
    requires EnvOk(env) && Savable(t, env)
    ensures ReadTab(Record(t, env) + rest, id, TabFds(t, env) + fds, env) ==
      if Acceptable(t, env) then Some(Taken(Restored(t, id, env), rest, fds)) else None
  {
    hide Exported, Import, HeaderOk, Faithful, ValidTerm, Exportable, Normal, HeaderOf, ReadTerminal, ReadBody, Body, Native, PutNative,
      ColorTexts, Overrides, UpToNul;
    var body := Body(t, env);
    var tail := (if t.terminal.Some? then Exported(env.abi, env.capacity, t.terminal.value.engine, TransportOf(t.terminal.value)) else []) + rest;
    assert Record(t, env) + rest == PutNative(|body|) + (body + tail);
    NativeOf(|body|, body + tail);
    BodyOf(t, env);
    assert (body + tail)[..|body|] == body && (body + tail)[|body|..] == tail;
    var f := ReadBody(body, env).value;
    if t.terminal.Some? {
      TerminalOf(t, f, rest, fds, env);
    } else {
      assert TabFds(t, env) + fds == fds;
      assert [] + rest == rest;
    }
  }

  // ---- A whole snapshot ----

  function Records(tabs: seq<SavedTab>, upgrade: bool, env: Env): (b: seq<byte>)
    requires forall i | 0 <= i < |tabs| :: Savable(tabs[i], env)
  {
    if tabs == [] then []
    else (if upgrade then PutNative(tabs[0].id) else []) + Record(tabs[0], env) + Records(tabs[1..], upgrade, env)
  }

  /** The descriptors sent with a snapshot: master and output of every terminal, in tab order. */
  function AllFds(tabs: seq<SavedTab>, env: Env): (fds: seq<Fd>) {
    if tabs == [] then [] else TabFds(tabs[0], env) + AllFds(tabs[1..], env)
  }

  function SnapshotBytes(tabs: seq<SavedTab>, nextId: Option<u32>, env: Env): (b: seq<byte>)
    requires |tabs| <= T.HANDOFF_MAX_TABS && forall i | 0 <= i < |tabs| :: Savable(tabs[i], env)
  {
    PutNative(HANDOFF_MAGIC) + (PutNative(if nextId.Some? then UPGRADE_VERSION else MANUAL_VERSION) + (PutNative(|tabs|) +
      ((if nextId.Some? then PutNative(nextId.value) else []) + Records(tabs, nextId.Some?, env))))
  }

  function ReadTabs(b: seq<byte>, count: nat, upgrade: bool, ids: seq<u32>, fds: seq<Fd>, env: Env): (r: Option<(seq<SavedTab>, seq<byte>, seq<Fd>)>)
    requires !upgrade ==> |ids| == count
    ensures r.Some? ==> |r.value.0| == count
    decreases count
  {
    if count == 0 then Some(([], b, fds))
    else
      var (id, b1) :- if upgrade then Native(b) else Some((ids[0], b));
      var first :- ReadTab(b1, id, fds, env);
      var (more, rest, left) :- ReadTabs(first.rest, count - 1, upgrade, if upgrade then ids else ids[1..], first.fds, env);
      Some(([first.tab] + more, rest, left))
  }

  function Ids(tabs: seq<SavedTab>): (ids: seq<u32>)
    ensures |ids| == |tabs|
  {
    seq(|tabs|, i requires 0 <= i < |tabs| => tabs[i].id)
  }

  /** The words before the records: how many there are, and the next ID the receiver will have. */
  function ReadHeader(b: seq<byte>, incoming: T.Incoming, nextId: u32, idle: bool): (r: Option<(nat, u32, seq<byte>)>)
    ensures r.Some? ==> r.value.0 <= T.HANDOFF_MAX_TABS && nextId + r.value.0 <= 0xffff_ffff
    ensures r.Some? && incoming.Mapped? ==> |incoming.ids| == r.value.0
  {
    var (magic, b1) :- Native(b);
    var (version, b2) :- Native(b1);
    var (count, b3) :- Native(b2);
    if magic != HANDOFF_MAGIC || version != (if incoming.Upgrade? then UPGRADE_VERSION else MANUAL_VERSION) ||
       count > T.HANDOFF_MAX_TABS || (!incoming.Upgrade? && count == 0) || nextId + count > 0xffff_ffff ||
       (!incoming.Append? && !idle) || (incoming.Mapped? && |incoming.ids| != count)
    then None
    else
      var (saved, rest) :-
        (match incoming
         case Append => Some((nextId + count, b3))
         case Upgrade => Native(b3)
         case Mapped(_, next, _) => Some((next, b3)));
      if saved == 0 then None else Some((count, saved, rest))
  }

  /** The IDs a receiver assigns itself, when the snapshot does not carry them. */
  function AssignedIds(incoming: T.Incoming, nextId: u32, count: nat): (ids: seq<u32>)
    requires nextId + count <= 0xffff_ffff && (incoming.Mapped? ==> |incoming.ids| == count)
    ensures !incoming.Upgrade? ==> |ids| == count
  {
    match incoming
    case Append => seq(count, i requires 0 <= i < count => nextId + i)
    case Upgrade => []
    case Mapped(ids, _, _) => ids
  }

  /** What a receiver makes of a mapped snapshot: the tabs to adopt and its next ID. */
  function ReadSnapshot(b: seq<byte>, fds: seq<Fd>, incoming: T.Incoming, nextId: u32, idle: bool, env: Env): (r: Option<(seq<SavedTab>, u32)>) {
    var (count, saved, b1) :- ReadHeader(b, incoming, nextId, idle);
    var (tabs, rest, left) :- ReadTabs(b1, count, incoming.Upgrade?, AssignedIds(incoming, nextId, count), fds, env);
    if Complete(tabs, saved, rest, left, incoming) then Some((tabs, saved)) else None
  }

  /** IDs in order where they are kept, and neither a byte nor a descriptor to spare. */
  predicate Complete(tabs: seq<SavedTab>, saved: u32, rest: seq<byte>, left: seq<Fd>, incoming: T.Incoming) {
    (incoming.Append? || T.Increasing(Ids(tabs), saved)) && rest == [] && left == []
  }

  function AllRestored(tabs: seq<SavedTab>, ids: seq<u32>, env: Env): (r: seq<SavedTab>)
    requires |ids| == |tabs| && forall i | 0 <= i < |tabs| :: Savable(tabs[i], env)
    ensures |r| == |tabs|
  {
    seq(|tabs|, i requires 0 <= i < |tabs| => Restored(tabs[i], ids[i], env))
  }

  predicate AllAcceptable(tabs: seq<SavedTab>, env: Env)
    requires forall i | 0 <= i < |tabs| :: Savable(tabs[i], env)
  {
    forall i | 0 <= i < |tabs| :: Acceptable(tabs[i], env)
  }

  /** Record after record, every tab comes back under its ID with its own descriptors; the first refusal refuses all. */
  lemma {:induction false} TabsRoundTrip(tabs: seq<SavedTab>, upgrade: bool, ids: seq<u32>, rest: seq<byte>, fds: seq<Fd>, env: Env)
    requires EnvOk(env) && (forall i | 0 <= i < |tabs| :: Savable(tabs[i], env)) && |ids| == |tabs| && (upgrade ==> ids == Ids(tabs))
    ensures ReadTabs(Records(tabs, upgrade, env) + rest, |tabs|, upgrade, ids, AllFds(tabs, env) + fds, env) ==
      if AllAcceptable(tabs, env) then Some((AllRestored(tabs, ids, env), rest, fds)) else None
    decreases |tabs|
  {
    hide Record, Savable, Acceptable, Restored, ReadTab, Native, PutNative, TabFds, EnvOk;
    if tabs == [] {
      assert Records(tabs, upgrade, env) + rest == rest && AllFds(tabs, env) + fds == fds;
    } else {
      var t, more := tabs[0], tabs[1..];
      var tail, left := Records(more, upgrade, env) + rest, AllFds(more, env) + fds;
      assert Records(tabs, upgrade, env) + rest == (if upgrade then PutNative(t.id) else []) + (Record(t, env) + tail);
      if upgrade {
        NativeOf(t.id, Record(t, env) + tail);
        assert ids[0] == t.id && ids[1..] == Ids(more);
        IdsUnused(tail, |more|, ids, ids[1..], left, env);
      } else {
        assert [] + (Record(t, env) + tail) == Record(t, env) + tail;
      }
      assert AllFds(tabs, env) + fds == TabFds(t, env) + left;
      TabRoundTrip(t, ids[0], tail, left, env);
      TabsRoundTrip(more, upgrade, ids[1..], rest, fds, env);
      assert AllAcceptable(tabs, env) <==> Acceptable(t, env) && AllAcceptable(more, env) by {
        assert forall i | 0 <= i < |more| :: more[i] == tabs[i + 1];
      }
      assert AllRestored(tabs, ids, env) == [Restored(t, ids[0], env)] + AllRestored(more, ids[1..], env);
    }
  }

  lemma {:induction false} IdsUnused(b: seq<byte>, count: nat, ids: seq<u32>, others: seq<u32>, fds: seq<Fd>, env: Env)
    ensures ReadTabs(b, count, true, ids, fds, env) == ReadTabs(b, count, true, others, fds, env)
    decreases count
  {
    hide ReadTab, Native;
    if count > 0 {
      var first := Native(b);
      if first.Some? {
        var t := ReadTab(first.value.1, first.value.0, fds, env);
        if t.Some? {
          IdsUnused(t.value.rest, count - 1, ids, others, t.value.fds, env);
        }
      }
    }
  }

  /** The snapshot as the transfer protocol sees it. */
  function Sketch(tabs: seq<SavedTab>, nextId: Option<u32>): (sn: T.Snapshot) {
    T.Snapshot(nextId, seq(|tabs|, i requires 0 <= i < |tabs| => T.Held(tabs[i].id, None)))
  }

  function StagedIds(tabs: seq<T.Held>): (ids: seq<u32>)
    ensures |ids| == |tabs|
  {
    seq(|tabs|, i requires 0 <= i < |tabs| => tabs[i].id)
  }

  /**
   Reading what was written: a snapshot is accepted exactly when the protocol's staging rules accept its IDs
   and every terminal can be taken; then every tab is back under its staged ID, every terminal has its own
   master and output, and no byte and no descriptor is left over.
   */
  lemma SnapshotRoundTrip(tabs: seq<SavedTab>, nextId: Option<u32>, incoming: T.Incoming, d: T.Daemon, env: Env)
    requires EnvOk(env) && |tabs| <= T.HANDOFF_MAX_TABS && forall i | 0 <= i < |tabs| :: Savable(tabs[i], env)
    ensures var staged := T.Stage(Sketch(tabs, nextId), incoming, d);
      && (staged.Some? ==> |staged.value.0| == |tabs|)
      && ReadSnapshot(SnapshotBytes(tabs, nextId, env), AllFds(tabs, env), incoming, d.nextId, d.tabs == [], env) ==
           if staged.Some? && AllAcceptable(tabs, env) then Some((AllRestored(tabs, StagedIds(staged.value.0), env), staged.value.1)) else None
  {
    hide Native, PutNative, Records, ReadTabs, AllFds, Savable, T.Increasing, EnvOk, AllAcceptable;
    var body := (if nextId.Some? then PutNative(nextId.value) else []) + Records(tabs, nextId.Some?, env);
    var counted := PutNative(|tabs|) + body;
    var version: u32 := if nextId.Some? then UPGRADE_VERSION else MANUAL_VERSION;
    NativeOf(HANDOFF_MAGIC, PutNative(version) + counted);
    NativeOf(version, counted);
    NativeOf(|tabs|, body);
    if nextId.Some? == incoming.Upgrade? && d.nextId + |tabs| <= 0xffff_ffff && (incoming.Mapped? ==> |incoming.ids| == |tabs|) {
      RecordsRead(tabs, nextId, incoming, d, env, body);
      StageReads(tabs, nextId, incoming, d);
    }
  }

  /** The IDs the receiver reads or assigns. */
  function ReadIds(tabs: seq<SavedTab>, incoming: T.Incoming, nextId: u32): (ids: seq<u32>)
    requires nextId + |tabs| <= 0xffff_ffff && (incoming.Mapped? ==> |incoming.ids| == |tabs|)
    ensures |ids| == |tabs|
  {
    match incoming
    case Append => seq(|tabs|, i requires 0 <= i < |tabs| => nextId + i)
    case Upgrade => Ids(tabs)
    case Mapped(ids, _, _) => ids
  }

  lemma RecordsRead(tabs: seq<SavedTab>, nextId: Option<u32>, incoming: T.Incoming, d: T.Daemon, env: Env, body: seq<byte>)
    requires EnvOk(env) && forall i | 0 <= i < |tabs| :: Savable(tabs[i], env)
    requires nextId.Some? == incoming.Upgrade? && d.nextId + |tabs| <= 0xffff_ffff && (incoming.Mapped? ==> |incoming.ids| == |tabs|)
    requires body == (if nextId.Some? then PutNative(nextId.value) else []) + Records(tabs, nextId.Some?, env)
    ensures incoming.Upgrade? ==> Native(body) == Some((nextId.value, Records(tabs, true, env)))
    ensures !incoming.Upgrade? ==> body == Records(tabs, false, env)
    ensures var ids := ReadIds(tabs, incoming, d.nextId);
      && (forall any | incoming.Upgrade? || any == ids ::
            ReadTabs(Records(tabs, incoming.Upgrade?, env), |tabs|, incoming.Upgrade?, any, AllFds(tabs, env), env) ==
            if AllAcceptable(tabs, env) then Some((AllRestored(tabs, ids, env), [], [])) else None)
      && Ids(AllRestored(tabs, ids, env)) == ids
  {
    hide Native, PutNative, Records, ReadTabs, AllFds, Savable, EnvOk, AllAcceptable;
    var ids := ReadIds(tabs, incoming, d.nextId);
    if incoming.Upgrade? {
      NativeOf(nextId.value, Records(tabs, true, env));
    } else {
      assert [] + Records(tabs, false, env) == Records(tabs, false, env);
    }
    TabsRoundTrip(tabs, incoming.Upgrade?, ids, [], [], env);
    assert Records(tabs, incoming.Upgrade?, env) + [] == Records(tabs, incoming.Upgrade?, env);
    assert AllFds(tabs, env) + [] == AllFds(tabs, env);
    forall any | incoming.Upgrade? || any == ids
      ensures ReadTabs(Records(tabs, incoming.Upgrade?, env), |tabs|, incoming.Upgrade?, any, AllFds(tabs, env), env) ==
        if AllAcceptable(tabs, env) then Some((AllRestored(tabs, ids, env), [], [])) else None
    {
      if incoming.Upgrade? {
        IdsUnused(Records(tabs, true, env), |tabs|, any, ids, AllFds(tabs, env), env);
      }
    }
  }

  lemma StageReads(tabs: seq<SavedTab>, nextId: Option<u32>, incoming: T.Incoming, d: T.Daemon)
    requires nextId.Some? == incoming.Upgrade? && d.nextId + |tabs| <= 0xffff_ffff && (incoming.Mapped? ==> |incoming.ids| == |tabs|)
    requires |tabs| <= T.HANDOFF_MAX_TABS
    ensures var ids := ReadIds(tabs, incoming, d.nextId);
      var saved: u32 := if incoming.Append? then d.nextId + |tabs| else if incoming.Upgrade? then nextId.value else incoming.nextId;
      var staged := T.Stage(Sketch(tabs, nextId), incoming, d);
      && (staged.Some? <==>
            ((incoming.Upgrade? || tabs != []) && (incoming.Append? || d.tabs == []) && saved != 0 &&
             (incoming.Append? || T.Increasing(ids, saved))))
      && (staged.Some? ==> |staged.value.0| == |tabs| && StagedIds(staged.value.0) == ids && staged.value.1 == saved)
  {
    hide T.Increasing;
    assert T.StagedIds(Sketch(tabs, nextId), incoming, d) == ReadIds(tabs, incoming, d.nextId);
  }

  // ---- The writing and reading loops ----

  /** Strings one after another into a bounded buffer; the first that does not fit stops. */
  method PutAll(buffer: F.Buffer, texts: seq<seq<byte>>) returns (ok: bool)
    requires buffer.Valid() && ShortTexts(texts)
    modifies buffer
    ensures buffer.Valid()
    ensures ok <==> |old(buffer.bytes)| + |PutTexts(texts)| <= buffer.limit
    ensures ok ==> buffer.bytes == old(buffer.bytes) + PutTexts(texts)
  {
    hide PutU32;
    ghost var start := buffer.bytes;
    assert start + PutTexts(texts[..0]) == start;
    for i := 0 to |texts|
      invariant buffer.Valid() && buffer.bytes == start + PutTexts(texts[..i])
    {
      TextsNext(texts, i);
      ok := buffer.PutString(texts[i]);
      if !ok {
        return;
      }
      assert buffer.bytes == start + (PutTexts(texts[..i]) + PutU32(|texts[i]|) + texts[i]);
    }
    assert texts[..|texts|] == texts;
    ok := true;
  }

  lemma {:induction false} TextsConcat(a: seq<seq<byte>>, b: seq<seq<byte>>)
    requires ShortTexts(a) && ShortTexts(b)
    ensures ShortTexts(a + b) && PutTexts(a + b) == PutTexts(a) + PutTexts(b)
  {
    if a == [] {
      assert a + b == b;
    } else {
      TextsConcat(a[1..], b);
      assert (a + b)[1..] == a[1..] + b;
      hide ShortTexts, PutU32;
      var head := PutU32(|a[0]|) + a[0];
      assert head + (PutTexts(a[1..]) + PutTexts(b)) == head + PutTexts(a[1..]) + PutTexts(b);
    }
  }

  lemma OneText(text: seq<byte>)
    requires |text| < 0x1_0000_0000
    ensures ShortTexts([text]) && PutTexts([text]) == PutU32(|text|) + text
  {
    hide PutU32;
    var texts := [text];
    assert texts[1..] == [];
  }

  lemma TextsNext(texts: seq<seq<byte>>, i: nat)
    requires i < |texts| && ShortTexts(texts)
    ensures |texts[i]| < 0x1_0000_0000 && ShortTexts(texts[..i]) && ShortTexts(texts[..i + 1])
    ensures PutTexts(texts[..i + 1]) == PutTexts(texts[..i]) + PutU32(|texts[i]|) + texts[i]
    ensures |PutTexts(texts[..i + 1])| <= |PutTexts(texts)|
  {
    hide PutU32;
    assert texts[..i + 1] == texts[..i] + [texts[i]];
    OneText(texts[i]);
    TextsConcat(texts[..i], [texts[i]]);
    assert texts == texts[..i + 1] + texts[i + 1..];
    TextsConcat(texts[..i + 1], texts[i + 1..]);
    assert PutTexts(texts[..i]) + (PutU32(|texts[i]|) + texts[i]) == PutTexts(texts[..i]) + PutU32(|texts[i]|) + texts[i];
  }

  /** A tab's metadata, or nothing when it is over the limit older readers allow. */
  method EncodeBody(t: SavedTab, env: Env) returns (body: Option<seq<byte>>)
    requires Encodable(t, env)
    ensures body.Some? <==> |Body(t, env)| <= MAX_RECORD - 4
    ensures body.Some? ==> body.value == Body(t, env)
  {
    hide PutWords, PutU32, PutTexts, ColorTexts, Named;
    var buffer := new F.Buffer(MAX_RECORD - 4);
    var words := [Flag(t.url.Some?), t.mode, t.style, if t.terminal.Some? then t.terminal.value.child else 0];
    var ok := buffer.PutBytes(PutWords(words));
    if ok {
      ok := PutAll(buffer, Named(t));
    }
    if ok {
      ok := buffer.PutBytes(PutU32(env.colors));
    }
    if ok {
      ok := PutAll(buffer, ColorTexts(t, env.colors));
    }
    if ok {
      ok := buffer.PutBytes(PutU32(|Input(t)|));
    }
    if ok {
      ok := buffer.PutBytes(Input(t));
    }
    if !ok {
      return None;
    }
    Nested(PutWords(words), PutTexts(Named(t)), PutU32(env.colors), PutTexts(ColorTexts(t, env.colors)), PutU32(|Input(t)|), Input(t));
    body := Some(buffer.bytes);
  }

  lemma Nested(a: seq<byte>, b: seq<byte>, c: seq<byte>, d: seq<byte>, e: seq<byte>, f: seq<byte>)
    ensures [] + a + b + c + d + e + f == a + (b + (c + (d + (e + f))))
  {
  }

  /** The receiver's position in a mapped snapshot. */
  class Cursor {
    const bytes: seq<byte>
    var offset: nat

    ghost predicate Valid()
      reads this
    {
      offset <= |bytes|
    }

    function Remaining(): (b: seq<byte>)
      requires Valid()
      reads this
    {
      bytes[offset..]
    }

    constructor (bytes: seq<byte>)
      ensures Valid() && this.bytes == bytes && Remaining() == bytes
    {
      this.bytes, offset := bytes, 0;
    }

    method Take(count: nat) returns (r: Option<seq<byte>>)
      requires Valid()
      modifies this
      ensures Valid()
      ensures r.Some? <==> count <= |old(Remaining())|
      ensures r.Some? ==> r.value == old(Remaining())[..count] && Remaining() == old(Remaining())[count..]
      ensures r.None? ==> offset == old(offset)
    {
      var end := offset + count;
      if end > |bytes| {
        return None;
      }
      r := Some(bytes[offset..end]);
      offset := end;
    }

    method Number() returns (r: Option<u32>)
      requires Valid()
      modifies this
      ensures Valid()
      ensures Native(old(Remaining())) == if r.Some? then Some((r.value, Remaining())) else None
    {
      hide GetNative;
      var word := Take(4);
      if word.None? {
        return None;
      }
      r := Some(GetNative(word.value));
    }
  }

  method ReadText(payload: F.Payload) returns (r: Option<seq<byte>>)
    modifies payload
    ensures Texts(old(payload.bytes), 1) == if r.Some? then Some(([r.value], payload.bytes)) else None
  {
    hide WordAt;
    var length := payload.Word();
    if length.None? {
      return None;
    }
    var text := payload.Take(length.value);
    if text.None? {
      return None;
    }
    r := Some(UpToNul(text.value));
    assert [r.value] + [] == [r.value];
    TextsNone(payload.bytes);
  }

  lemma TextsFirst(b: seq<byte>, count: nat)
    requires count > 0
    ensures var first := Texts(b, 1);
      Texts(b, count) ==
        if first.None? then None
        else
          var more := Texts(first.value.1, count - 1);
          if more.None? then None else Some((first.value.0 + more.value.0, more.value.1))
  {
    hide UpToNul;
    var word := Word(b);
    if word.Some? && word.value.0 <= |word.value.1| {
      var n, b1 := word.value.0, word.value.1;
      TextsNone(b1[n..]);
      assert [UpToNul(b1[..n])] + [] == [UpToNul(b1[..n])];
    }
  }

  /** A run of strings; a short payload fails them all. */
  method ReadTexts(payload: F.Payload, count: nat) returns (r: Option<seq<seq<byte>>>)
    modifies payload
    ensures Texts(old(payload.bytes), count) == if r.Some? then Some((r.value, payload.bytes)) else None
  {
    hide Texts;
    ghost var b := payload.bytes;
    var texts: seq<seq<byte>> := [];
    var left: nat := count;
    TextsNone(b);
    while left > 0
      invariant left <= count
      invariant var more := Texts(payload.bytes, left);
        Texts(b, count) == if more.None? then None else Some((texts + more.value.0, more.value.1))
    {
      TextsFirst(payload.bytes, left);
      var text := ReadText(payload);
      if text.None? {
        return None;
      }
      ghost var more := Texts(payload.bytes, left - 1);
      if more.Some? {
        assert texts + ([text.value] + more.value.0) == (texts + [text.value]) + more.value.0;
      }
      texts := texts + [text.value];
      left := left - 1;
    }
    TextsNone(payload.bytes);
    assert texts + [] == texts;
    r := Some(texts);
  }

  lemma TextsNone(b: seq<byte>)
    ensures Texts(b, 0) == Some(([], b))
    ensures forall count | Texts(b, count).Some? :: [] + Texts(b, count).value.0 == Texts(b, count).value.0
  {
  }

  method ReadWords(payload: F.Payload) returns (r: Option<seq<u32>>)
    modifies payload
    ensures Words(old(payload.bytes), 4) == if r.Some? then Some((r.value, payload.bytes)) else None
  {
    hide WordAt;
    var a := payload.Word();
    var b := payload.Word();
    var c := payload.Word();
    var d := payload.Word();
    if d.None? {
      return None;
    }
    r := Some([a.value, b.value, c.value, d.value]);
    assert [c.value] + ([d.value] + []) == [c.value, d.value];
    assert [a.value] + ([b.value] + [c.value, d.value]) == r.value;
  }

  /** A record's metadata: every check in the order the fields are read, and nothing left behind. */
  method DecodeBody(bytes: seq<byte>, env: Env) returns (f: Option<Fields>)
    ensures f == ReadBody(bytes, env)
  {
    hide Words, Texts, WordAt;
    var payload := new F.Payload(bytes);
    var words := ReadWords(payload);
    if words.None? || words.value[0] > 1 || words.value[2] > 7 || words.value[3] > MAX_PID {
      return None;
    }
    var texts := ReadTexts(payload, 5);
    if texts.None? {
      return None;
    }
    var count := payload.Word();
    if count.None? || count.value != env.colors {
      return None;
    }
    var colors := ReadTexts(payload, env.colors);
    if colors.None? {
      return None;
    }
    var n := payload.Word();
    if n.None? || n.value > INPUT_QUEUE {
      return None;
    }
    var input := payload.Take(n.value);
    if input.None? || payload.bytes != [] {
      return None;
    }
    assert input.value + [] == input.value;
    f := Some(Fields(words.value, texts.value, colors.value, input.value));
  }

  /** The descriptors that came with a snapshot, handed out in order. */
  class Descriptors {
    var left: seq<Fd>

    constructor (fds: seq<Fd>)
      ensures left == fds
    {
      left := fds;
    }

    method Next() returns (fd: Option<Fd>)
      modifies this
      ensures fd.Some? <==> old(left) != []
      ensures fd.Some? ==> fd.value == old(left)[0] && left == old(left)[1..]
      ensures fd.None? ==> left == old(left)
    {
      if left == [] {
        return None;
      }
      fd := Some(left[0]);
      left := left[1..];
    }
  }

  /** An engine, the two descriptors that belong to it, and where its printer output goes. */
  method DecodeTerminal(cursor: Cursor, f: Fields, fds: Descriptors, env: Env) returns (t: Option<SavedTerminal>)
    requires cursor.Valid() && |f.words| == 4
    modifies cursor, fds
    ensures cursor.Valid()
    ensures ReadTerminal(old(cursor.Remaining()), f, old(fds.left), env) == if t.Some? then Some((t.value, cursor.Remaining(), fds.left)) else None
  {
    hide Import;
    var a := ImportPrefix(env.abi, env.capacity, cursor.Remaining());
    if a.None? {
      return None;
    }
    var Arrival(engine, transport, used) := a.value;
    var skipped := cursor.Take(used);
    if skipped.None? {
      return None;
    }
    var master := fds.Next();
    var output := fds.Next();
    if output.None? || !env.adoptable(master.value, f.words[3]) || !(0 <= transport.pending <= |transport.buffer|) {
      return None;
    }
    assert old(fds.left)[1..][0] == old(fds.left)[1] && old(fds.left)[1..][1..] == old(fds.left)[2..];
    var printer: Printer;
    if transport.outputKind == 0 {
      printer := ToFile(output.value);
    } else if transport.outputKind == 1 {
      printer := ToClient;
    } else if transport.outputKind == -1 {
      printer := NoPrinter;
    } else {
      return None;
    }
    t := Some(SavedTerminal(engine, master.value, f.words[3], f.input, transport.buffer[..transport.pending], transport.remoteScroll, printer));
  }

  /** One record from the mapping. */
  method DecodeTab(cursor: Cursor, id: u32, fds: Descriptors, env: Env) returns (t: Option<SavedTab>)
    requires cursor.Valid()
    modifies cursor, fds
    ensures cursor.Valid()
    ensures ReadTab(old(cursor.Remaining()), id, old(fds.left), env) == if t.Some? then Some(Taken(t.value, cursor.Remaining(), fds.left)) else None
  {
    hide ReadBody, ReadTerminal, Native, Overrides;
    var length := cursor.Number();
    if length.None? || length.value > MAX_RECORD {
      return None;
    }
    var bytes := cursor.Take(length.value);
    if bytes.None? {
      return None;
    }
    var fields := DecodeBody(bytes.value, env);
    if fields.None? {
      return None;
    }
    var f := fields.value;
    BodyShape(bytes.value, env);
    var tab := SavedTab(id, f.texts[0], f.texts[1], f.texts[2], f.texts[3], None, f.words[1], f.words[2], Overrides(f.colors), None);
    if f.words[0] == 1 {
      return Some(tab.(url := Some(f.texts[4])));
    }
    var terminal := DecodeTerminal(cursor, f, fds, env);
    if terminal.None? {
      return None;
    }
    t := Some(tab.(terminal := terminal));
  }

  lemma BodyShape(b: seq<byte>, env: Env)
    ensures var f := ReadBody(b, env);
      f.Some? ==> |f.value.words| == 4 && |f.value.texts| == 5 && f.value.words[0] <= 1
  {
    hide ReadBody;
  }

  /**
   The receiver's staging loop: every record in turn, IDs checked as they are read, and the whole refused if
   anything is left over. Nothing is adopted here.
   */
  method StageTabs(cursor: Cursor, count: nat, upgrade: bool, ids: seq<u32>, fds: Descriptors, env: Env) returns (tabs: Option<seq<SavedTab>>)
    requires cursor.Valid() && (!upgrade ==> |ids| == count)
    modifies cursor, fds
    ensures cursor.Valid()
    ensures ReadTabs(old(cursor.Remaining()), count, upgrade, ids, old(fds.left), env) ==
      if tabs.Some? then Some((tabs.value, cursor.Remaining(), fds.left)) else None
  {
    hide ReadTab, Native, ReadTabs;
    ghost var whole := ReadTabs(cursor.Remaining(), count, upgrade, ids, fds.left, env);
    var staged: seq<SavedTab> := [];
    var left := ids;
    var remaining: nat := count;
    if whole.Some? {
      assert [] + whole.value.0 == whole.value.0;
    }
    while remaining > 0
      invariant cursor.Valid() && remaining <= count && (!upgrade ==> |left| == remaining)
      invariant var more := ReadTabs(cursor.Remaining(), remaining, upgrade, left, fds.left, env);
        whole == if more.None? then None else Some((staged + more.value.0, more.value.1, more.value.2))
    {
      var id: u32;
      TabsFirst(cursor.Remaining(), remaining, upgrade, left, fds.left, env);
      if upgrade {
        var number := cursor.Number();
        if number.None? {
          return None;
        }
        id := number.value;
      } else {
        id := left[0];
        left := left[1..];
      }
      var t := DecodeTab(cursor, id, fds, env);
      if t.None? {
        return None;
      }
      ghost var more := ReadTabs(cursor.Remaining(), remaining - 1, upgrade, left, fds.left, env);
      if more.Some? {
        assert staged + ([t.value] + more.value.0) == (staged + [t.value]) + more.value.0;
      }
      staged := staged + [t.value];
      remaining := remaining - 1;
    }
    TabsNone(cursor.Remaining(), upgrade, left, fds.left, env);
    assert staged + [] == staged;
    tabs := Some(staged);
  }

  lemma TabsNone(b: seq<byte>, upgrade: bool, ids: seq<u32>, fds: seq<Fd>, env: Env)
    requires !upgrade ==> |ids| == 0
    ensures ReadTabs(b, 0, upgrade, ids, fds, env) == Some(([], b, fds))
  {
  }

  lemma TabsFirst(b: seq<byte>, count: nat, upgrade: bool, ids: seq<u32>, fds: seq<Fd>, env: Env)
    requires count > 0 && (!upgrade ==> |ids| == count)
    ensures var id := if upgrade then Native(b) else Some((ids[0], b));
      ReadTabs(b, count, upgrade, ids, fds, env) ==
        if id.None? then None
        else
          var first := ReadTab(id.value.1, id.value.0, fds, env);
          if first.None? then None
          else
            var more := ReadTabs(first.value.rest, count - 1, upgrade, if upgrade then ids else ids[1..], first.value.fds, env);
            if more.None? then None else Some(([first.value.tab] + more.value.0, more.value.1, more.value.2))
  {
    hide ReadTab, Native;
  }

  method DecodeHeader(cursor: Cursor, incoming: T.Incoming, nextId: u32, idle: bool) returns (r: Option<(nat, u32)>)
    requires cursor.Valid()
    modifies cursor
    ensures cursor.Valid()
    ensures ReadHeader(old(cursor.Remaining()), incoming, nextId, idle) == if r.Some? then Some((r.value.0, r.value.1, cursor.Remaining())) else None
  {
    hide Native;
    NativeShort(cursor.Remaining());
    var magic := cursor.Number();
    if magic.None? {
      return None;
    }
    var version := cursor.Number();
    if version.None? {
      return None;
    }
    var count := cursor.Number();
    if count.None? || magic.value != HANDOFF_MAGIC || version.value != (if incoming.Upgrade? then UPGRADE_VERSION else MANUAL_VERSION) ||
       count.value > T.HANDOFF_MAX_TABS || (!incoming.Upgrade? && count.value == 0) || nextId + count.value > 0xffff_ffff ||
       (!incoming.Append? && !idle) || (incoming.Mapped? && |incoming.ids| != count.value) {
      return None;
    }
    var saved: u32;
    match incoming {
      case Append => saved := nextId + count.value;
      case Upgrade =>
        var number := cursor.Number();
        if number.None? {
          return None;
        }
        saved := number.value;
      case Mapped(_, next, _) => saved := next;
    }
    r := if saved == 0 then None else Some((count.value, saved));
  }

  /** Everything the receiver checks before it says it is ready. */
  method Receive(bytes: seq<byte>, descriptors: seq<Fd>, incoming: T.Incoming, nextId: u32, idle: bool, env: Env)
    returns (r: Option<(seq<SavedTab>, u32)>)
    ensures r == ReadSnapshot(bytes, descriptors, incoming, nextId, idle, env)
  {
    hide ReadHeader, ReadTabs, T.Increasing, T.IncreasingFrom, AssignedIds, Ids, Complete;
    var cursor := new Cursor(bytes);
    var fds := new Descriptors(descriptors);
    var header := DecodeHeader(cursor, incoming, nextId, idle);
    if header.None? {
      return None;
    }
    var (count, saved) := header.value;
    var tabs := StageTabs(cursor, count, incoming.Upgrade?, AssignedIds(incoming, nextId, count), fds, env);
    if tabs.None? {
      return None;
    }
    r := if Complete(tabs.value, saved, cursor.Remaining(), fds.left, incoming) then Some((tabs.value, saved)) else None;
  }

  /** A missing word means every later one is missing too. */
  lemma NativeShort(b: seq<byte>)
    ensures Native(b).None? <==> |b| < 4
    ensures Native(b).Some? ==> Native(b).value.1 == b[4..]
  {
  }

  /** An engine's own bytes: measured, then written into exactly that much room. */
  method EngineBytes(e: Term, t: Transport, env: Env) returns (b: seq<byte>)
    requires EnvOk(env) && ValidTerm(e, env.capacity) && ValidTransport(t) && Exportable(e, t)
    ensures b == Exported(env.abi, env.capacity, e, t)
  {
    LayoutSizes(env.abi);
    hide Exported, Faithful, ValidTerm;
    var status, required, filled := Export(env.abi, env.capacity, e, t, []);
    if status == Capacity {
      status, required, b := Export(env.abi, env.capacity, e, t, seq(required, _ => 0));
      assert seq(required, _ => 0)[required..] == [];
    } else {
      b := filled;
    }
    assert b == Exported(env.abi, env.capacity, e, t) + [];
  }

  /** One record as the donor writes it. */
  method EncodeTab(t: SavedTab, env: Env) returns (b: seq<byte>)
    requires EnvOk(env) && Savable(t, env)
    ensures b == Record(t, env)
  {
    hide Body, PutNative, Exported, ValidTerm, Faithful, Exportable;
    var body := EncodeBody(t, env);
    b := PutNative(|body.value|) + body.value;
    if t.terminal.Some? {
      var e := t.terminal.value;
      var engine := EngineBytes(e.engine, TransportOf(e), env);
      b := b + engine;
    } else {
      assert b + [] == b;
    }
  }

  /** The donor's loop: every tab's ID when it is being replaced, every record, and every terminal's two descriptors. */
  method EncodeSnapshot(tabs: seq<SavedTab>, nextId: Option<u32>, env: Env) returns (b: seq<byte>, fds: seq<Fd>)
    requires EnvOk(env) && |tabs| <= T.HANDOFF_MAX_TABS && forall i | 0 <= i < |tabs| :: Savable(tabs[i], env)
    ensures b == SnapshotBytes(tabs, nextId, env) && fds == AllFds(tabs, env)
  {
    hide PutNative, Record, Savable, TabFds, EnvOk;
    var head := PutNative(HANDOFF_MAGIC) + PutNative(if nextId.Some? then UPGRADE_VERSION else MANUAL_VERSION) + PutNative(|tabs|) +
      (if nextId.Some? then PutNative(nextId.value) else []);
    b, fds := head, [];
    assert head + Records(tabs[..0], nextId.Some?, env) == head;
    for i := 0 to |tabs|
      invariant b == head + Records(tabs[..i], nextId.Some?, env) && fds == AllFds(tabs[..i], env)
    {
      RecordsNext(tabs, i, nextId.Some?, env);
      var record := EncodeTab(tabs[i], env);
      var id := if nextId.Some? then PutNative(tabs[i].id) else [];
      assert head + (Records(tabs[..i], nextId.Some?, env) + (id + record)) == head + Records(tabs[..i], nextId.Some?, env) + id + record;
      b := b + id + record;
      fds := fds + TabFds(tabs[i], env);
    }
    assert tabs[..|tabs|] == tabs;
  }

  lemma {:induction false} RecordsNext(tabs: seq<SavedTab>, i: nat, upgrade: bool, env: Env)
    requires i < |tabs| && forall k | 0 <= k < |tabs| :: Savable(tabs[k], env)
    ensures Records(tabs[..i + 1], upgrade, env) ==
      Records(tabs[..i], upgrade, env) + ((if upgrade then PutNative(tabs[i].id) else []) + Record(tabs[i], env))
    ensures AllFds(tabs[..i + 1], env) == AllFds(tabs[..i], env) + TabFds(tabs[i], env)
    decreases i
  {
    hide PutNative, Record, Savable, TabFds;
    var first := (if upgrade then PutNative(tabs[0].id) else []) + Record(tabs[0], env);
    if i == 0 {
      assert tabs[..1][1..] == [] && tabs[..0] == [];
      assert Records(tabs[..1], upgrade, env) == first + [];
      assert AllFds(tabs[..1], env) == TabFds(tabs[0], env) + [];
    } else {
      RecordsNext(tabs[1..], i - 1, upgrade, env);
      assert tabs[..i + 1][1..] == tabs[1..][..i] && tabs[..i][1..] == tabs[1..][..i - 1];
      var more := Records(tabs[1..][..i - 1], upgrade, env);
      var last := (if upgrade then PutNative(tabs[i].id) else []) + Record(tabs[i], env);
      assert first + (more + last) == (first + more) + last;
      var left := AllFds(tabs[1..][..i - 1], env);
      assert TabFds(tabs[0], env) + (left + TabFds(tabs[i], env)) == (TabFds(tabs[0], env) + left) + TabFds(tabs[i], env);
    }
  }
}
