/**
 Handing live terminals from one daemon to another: any number of daemons, sessions between pairs of
 them, and the markers H (snapshot and descriptors), R, C and A on each session's channel. Authority over
 a PTY, the right to read its master or signal its child, moves when C is sent and arrives when C is
 received. A daemon is single threaded: while it sends or receives it does nothing else.
 */
module Transfers {
  import opened Bytes

  /** Daemons, sessions and PTYs are numbered from one supply. */
  type Id = nat

  const HANDOFF_MAX_TABS: nat := 100

  datatype Identity = Local | Transferred | NoProcess

  /** `fed` is the output this holder's engine state already reflects, its pending bytes included. */
  datatype Pty = Pty(x: Id, identity: Identity, master: bool, fed: seq<byte>)

  /** A tab as the transfer sees it; a browser tab has no PTY. */
  datatype Held = Held(id: u32, pty: Option<Pty>)

  /** An upgrade snapshot carries the donor's next ID and each tab's ID; a manual one carries neither. */
  datatype Snapshot = Snapshot(nextId: Option<u32>, tabs: seq<Held>)

  datatype Marker = H(snapshot: Snapshot) | R | C | A

  datatype Incoming = Append | Upgrade | Mapped(ids: seq<u32>, nextId: u32, pause: bool)

  datatype DonorStage = Snapshotting | AwaitReady | Committing | Disowning(done: nat) | AwaitAck

  datatype ReceiverStage =
    | AwaitSnapshot
    | Prepared(staged: seq<Held>, saved: u32)
    | AwaitCommit(staged: seq<Held>, saved: u32)
    | Adopting(staged: seq<Held>, saved: u32, done: nat)

  datatype Pc =
    | Serving
    | Waiting(incoming: Incoming)
    | Sending(session: Id, donor: DonorStage)
    | Receiving(session: Id, incoming: Incoming, receiver: ReceiverStage)
    | Dead

  datatype Daemon = Daemon(pc: Pc, tabs: seq<Held>, nextId: u32, paused: bool)

  /** `spawned`: the donor started this receiver itself, to replace its own executable. */
  datatype Session = Session(
    donor: Id, receiver: Id, spawned: bool, accepted: bool, donorOpen: bool, receiverOpen: bool,
    toReceiver: seq<Marker>, toDonor: seq<Marker>,
    snapshot: Option<Snapshot>, committed: bool, received: bool, aborted: bool)

  /** What happened to authority, in order. */
  datatype Event =
    | Opened(daemon: Id, x: Id)
    | Exercised(daemon: Id, x: Id)
    | Sent(daemon: Id, xs: set<Id>, session: Id)
    | Received(daemon: Id, xs: set<Id>, session: Id)
    | Aborted(daemon: Id, session: Id)
    | Killed(daemon: Id, victim: Id, session: Id)

  /** `streams` is everything ever read from each PTY. */
  datatype World = World(
    daemons: map<Id, Daemon>, sessions: map<Id, Session>, streams: map<Id, seq<byte>>, log: seq<Event>, supply: Id)

  // ---- Authority, as the history alone defines it ----

  datatype Owner = Nobody | At(holder: Id) | Flying(session: Id)

  function OwnerAfter(o: Owner, e: Event, x: Id): (r: Owner) {
    match e
    case Opened(p, y) => if x == y then At(p) else o
    case Sent(_, xs, sid) => if x in xs then Flying(sid) else o
    case Received(q, xs, _) => if x in xs then At(q) else o
    case _ => o
  }

  function OwnerOf(log: seq<Event>, x: Id): (o: Owner) {
    if log == [] then Nobody else OwnerAfter(OwnerOf(log[..|log| - 1], x), log[|log| - 1], x)
  }

  /** An event allowed by the history before it. */
  ghost predicate Legal(log: seq<Event>, e: Event) {
    match e
    case Opened(_, x) => OwnerOf(log, x) == Nobody
    case Exercised(p, x) => OwnerOf(log, x) == At(p)
    case Sent(p, xs, sid) => Undecided(log, sid) && forall x | x in xs :: OwnerOf(log, x) == At(p)
    case Received(_, xs, sid) =>
      && (exists f | f in log :: f.Sent? && f.session == sid && f.xs == xs)
      && (forall f | f in log && f.Received? :: f.session != sid)
      && forall x | x in xs :: OwnerOf(log, x) == Flying(sid)
    case Aborted(_, sid) => Undecided(log, sid)
    case Killed(_, _, sid) => forall f | f in log && f.Sent? :: f.session != sid
  }

  /** The session has neither committed nor been given up. */
  predicate Undecided(log: seq<Event>, sid: Id) {
    forall f | f in log && (f.Sent? || f.Aborted?) :: f.session != sid
  }

  ghost predicate Disciplined(log: seq<Event>) {
    forall i | 0 <= i < |log| :: Legal(log[..i], log[i])
  }

  lemma OwnerNext(log: seq<Event>, e: Event, x: Id)
    ensures OwnerOf(log + [e], x) == OwnerAfter(OwnerOf(log, x), e, x)
  {
    assert (log + [e])[..|log|] == log;
  }

  lemma DisciplinedNext(log: seq<Event>, e: Event)
    requires Disciplined(log) && Legal(log, e)
    ensures Disciplined(log + [e])
  {
    hide Legal;
    forall i | 0 <= i < |log + [e]|
      ensures Legal((log + [e])[..i], (log + [e])[i])
    {
      if i < |log| {
        assert (log + [e])[..i] == log[..i];
      } else {
        assert (log + [e])[..i] == log;
      }
    }
  }

  // ---- What a daemon holds ----

  /** The tabs a daemon answers for: none once it has sent C, and all it is adopting once it has received C. */
  function Holdings(d: Daemon): (tabs: seq<Held>)
    requires d.pc.Receiving? && d.pc.receiver.Adopting? ==> d.pc.receiver.done <= |d.pc.receiver.staged|
  {
    match d.pc
    case Dead => []
    case Sending(_, Disowning(_)) => []
    case Receiving(_, _, Adopting(staged, _, done)) => d.tabs + staged[done..]
    case _ => d.tabs
  }

  function Ptys(tabs: seq<Held>): (xs: set<Id>) {
    set i | 0 <= i < |tabs| && tabs[i].pty.Some? :: tabs[i].pty.value.x
  }

  /** No PTY twice, each owned as stated, and each engine has been fed exactly what was ever read. */
  ghost predicate Owned(tabs: seq<Held>, owner: Owner, log: seq<Event>, streams: map<Id, seq<byte>>) {
    && (forall i | 0 <= i < |tabs| && tabs[i].pty.Some? :: OwnedPty(tabs[i].pty.value, owner, log, streams))
    && forall i, j | 0 <= i < j < |tabs| && tabs[i].pty.Some? && tabs[j].pty.Some? :: tabs[i].pty.value.x != tabs[j].pty.value.x
  }

  ghost predicate OwnedPty(p: Pty, owner: Owner, log: seq<Event>, streams: map<Id, seq<byte>>) {
    OwnerOf(log, p.x) == owner && p.x in streams && p.fed == streams[p.x]
  }

  /** IDs are nonzero, strictly increasing in list order, and below the next one. */
  predicate Ordered(tabs: seq<Held>, nextId: u32) {
    && 0 < nextId
    && (forall i | 0 <= i < |tabs| :: 0 < tabs[i].id < nextId)
    && forall i, j | 0 <= i < j < |tabs| :: tabs[i].id < tabs[j].id
  }

  function NextOf(d: Daemon): u32 {
    if d.pc.Receiving? && d.pc.receiver.Adopting? then d.pc.receiver.saved else d.nextId
  }

  /** The same terminals with the same state, renumbered. */
  predicate SameState(a: seq<Held>, b: seq<Held>) {
    && |a| == |b|
    && forall i | 0 <= i < |a| :: SameTab(a[i], b[i])
  }

  predicate SameTab(a: Held, b: Held) {
    && (a.pty.Some? <==> b.pty.Some?)
    && (a.pty.Some? ==> a.pty.value.x == b.pty.value.x && a.pty.value.fed == b.pty.value.fed)
  }

  predicate Disowned(tabs: seq<Held>, done: nat) {
    done <= |tabs| && forall i | 0 <= i < done && tabs[i].pty.Some? :: tabs[i].pty.value.identity == NoProcess && !tabs[i].pty.value.master
  }

  // ---- Staging, as the receiver checks a snapshot ----

  /** The tabs a receiver would adopt and the next ID it would have, if the snapshot is acceptable to it. */
  function Stage(sn: Snapshot, incoming: Incoming, d: Daemon): (r: Option<(seq<Held>, u32)>) {
    var count := |sn.tabs|;
    if sn.nextId.Some? != incoming.Upgrade? || count > HANDOFF_MAX_TABS || (!incoming.Upgrade? && count == 0) ||
       d.nextId + count > 0xffff_ffff || (!incoming.Append? && d.tabs != []) ||
       (incoming.Mapped? && |incoming.ids| != count)
    then None
    else
      var saved: u32 :=
        match incoming
        case Append => d.nextId + count
        case Upgrade => sn.nextId.value
        case Mapped(_, nextId, _) => nextId;
      var ids := StagedIds(sn, incoming, d);
      if saved == 0 || (!incoming.Append? && !Increasing(ids, saved)) then None
      else Some((seq(count, i requires 0 <= i < count => Staged(sn.tabs[i], ids[i])), saved))
  }

  function StagedIds(sn: Snapshot, incoming: Incoming, d: Daemon): (ids: seq<u32>)
    requires d.nextId + |sn.tabs| <= 0xffff_ffff && (incoming.Mapped? ==> |incoming.ids| == |sn.tabs|)
    ensures |ids| == |sn.tabs|
  {
    match incoming
    case Append => seq(|sn.tabs|, i requires 0 <= i < |sn.tabs| => d.nextId + i)
    case Upgrade => seq(|sn.tabs|, i requires 0 <= i < |sn.tabs| => sn.tabs[i].id)
    case Mapped(ids, _, _) => ids
  }

  function Staged(t: Held, id: u32): (r: Held) {
    Held(id, if t.pty.None? then None else Some(Pty(t.pty.value.x, Transferred, true, t.pty.value.fed)))
  }

  /** The check a preserving receiver makes while it reads IDs: each above the last, all below the next. */
  predicate Increasing(ids: seq<u32>, saved: u32) {
    IncreasingFrom(ids, saved, 0)
  }

  predicate IncreasingFrom(ids: seq<u32>, saved: u32, previous: u32) {
    ids == [] || (previous < ids[0] < saved && IncreasingFrom(ids[1..], saved, ids[0]))
  }

  lemma {:induction false} IncreasingIs(ids: seq<u32>, saved: u32, previous: u32)
    ensures IncreasingFrom(ids, saved, previous) <==>
      (forall i | 0 <= i < |ids| :: previous < ids[i] < saved) && (forall i, j | 0 <= i < j < |ids| :: ids[i] < ids[j])
  {
    if ids != [] {
      IncreasingIs(ids[1..], saved, ids[0]);
      forall i | 0 < i < |ids|
        ensures ids[i] == ids[1..][i - 1]
      {
      }
    }
  }

  lemma StageShape(sn: Snapshot, incoming: Incoming, d: Daemon)
    requires Stage(sn, incoming, d).Some?
    ensures d.nextId + |sn.tabs| <= 0xffff_ffff && (incoming.Mapped? ==> |incoming.ids| == |sn.tabs|)
    ensures var (staged, saved) := Stage(sn, incoming, d).value;
      && SameState(staged, sn.tabs) && saved > 0
      && (forall i | 0 <= i < |staged| :: staged[i].id == StagedIds(sn, incoming, d)[i])
      && (incoming.Append? ==> saved == d.nextId + |sn.tabs|)
      && (!incoming.Append? ==> d.tabs == [] && Increasing(StagedIds(sn, incoming, d), saved))
  {
    hide Increasing;
  }

  lemma OrderedAppend(a: seq<Held>, middle: u32, b: seq<Held>, next: u32)
    requires Ordered(a, middle)
    requires forall i | 0 <= i < |b| :: 0 < b[i].id < next && (a != [] ==> middle <= b[i].id)
    requires forall i, j | 0 <= i < j < |b| :: b[i].id < b[j].id
    requires 0 < next && (a != [] ==> middle <= next)
    ensures Ordered(a + b, next)
  {
    forall i, j | 0 <= i < j < |a + b|
      ensures (a + b)[i].id < (a + b)[j].id
    {
      if j < |a| {
        assert a[i].id < a[j].id;
      } else if i >= |a| {
        assert b[i - |a|].id < b[j - |a|].id;
      } else {
        assert a[i].id < middle && middle <= b[j - |a|].id;
      }
    }
  }

  /** Whatever is staged continues the receiver's list in order. */
  lemma StageOrdered(sn: Snapshot, incoming: Incoming, d: Daemon)
    requires Ordered(d.tabs, d.nextId) && Stage(sn, incoming, d).Some?
    ensures var (staged, saved) := Stage(sn, incoming, d).value;
      Ordered(d.tabs + staged, saved) && SameState(staged, sn.tabs)
  {
    hide Stage, SameState, Ordered;
    StageShape(sn, incoming, d);
    var (staged, saved) := Stage(sn, incoming, d).value;
    var ids := StagedIds(sn, incoming, d);
    StagedLength(staged, sn.tabs);
    if !incoming.Append? {
      IncreasingIs(ids, saved, 0);
    } else {
      assert d.nextId > 0 by { OrderedNext(d.tabs, d.nextId); }
    }
    OrderedAppend(d.tabs, d.nextId, staged, saved);
  }

  lemma OrderedNext(tabs: seq<Held>, nextId: u32)
    requires Ordered(tabs, nextId)
    ensures nextId > 0
  {
  }

  lemma StagedLength(a: seq<Held>, b: seq<Held>)
    requires SameState(a, b)
    ensures |a| == |b|
  {
  }

  /** A donor whose own list is in order always passes an upgrade receiver's ordering checks. */
  lemma UpgradeAlwaysStages(donor: Daemon, receiver: Daemon)
    requires Ordered(donor.tabs, donor.nextId) && |donor.tabs| <= HANDOFF_MAX_TABS
    requires receiver.tabs == [] && receiver.nextId == 1
    ensures var staged := Stage(Snapshot(Some(donor.nextId), donor.tabs), Upgrade, receiver);
      && staged.Some? && staged.value.1 == donor.nextId
      && |staged.value.0| == |donor.tabs| && forall i | 0 <= i < |donor.tabs| :: staged.value.0[i].id == donor.tabs[i].id
  {
    var sn := Snapshot(Some(donor.nextId), donor.tabs);
    IncreasingIs(StagedIds(sn, Upgrade, receiver), donor.nextId, 0);
  }

  // ---- The invariant ----

  /** What a daemon's program counter promises about the session it is in. */
  ghost predicate PcOk(d: Daemon, p: Id, sessions: map<Id, Session>) {
    match d.pc
    case Serving => true
    case Dead => true
    case Waiting(_) => d.tabs == [] && d.nextId == 1
    case Sending(sid, stage) => sid in sessions && DonorOk(d, p, sessions[sid], stage)
    case Receiving(sid, incoming, stage) => sid in sessions && ReceiverOk(d, p, sessions[sid], incoming, stage)
  }

  ghost predicate DonorOk(d: Daemon, p: Id, s: Session, stage: DonorStage) {
    && s.donor == p && !s.aborted
    && match stage
       case Snapshotting => !s.committed && s.snapshot.None? && |d.tabs| <= HANDOFF_MAX_TABS
       case AwaitReady => !s.committed && s.snapshot.Some? && s.snapshot.value.tabs == d.tabs
       case Committing => !s.committed && s.snapshot.Some? && s.snapshot.value.tabs == d.tabs
       case Disowning(done) => s.committed && Disowned(d.tabs, done)
       case AwaitAck => s.committed && d.tabs == []
  }

  ghost predicate ReceiverOk(d: Daemon, p: Id, s: Session, incoming: Incoming, stage: ReceiverStage) {
    && s.receiver == p && s.accepted
    && (!incoming.Append? && !stage.Adopting? ==> d.tabs == [] && d.nextId == 1)
    && (incoming.Upgrade? ==> s.spawned)
    && match stage
       case AwaitSnapshot => !s.received
       case Prepared(staged, saved) => !s.received && StagedOk(d, s, staged, saved)
       case AwaitCommit(staged, saved) => !s.received && StagedOk(d, s, staged, saved)
       case Adopting(staged, saved, done) => s.received && done <= |staged|
  }

  ghost predicate StagedOk(d: Daemon, s: Session, staged: seq<Held>, saved: u32) {
    s.snapshot.Some? && SameState(staged, s.snapshot.value.tabs) && Ordered(d.tabs + staged, saved)
  }

  predicate Adoptable(d: Daemon) {
    d.pc.Receiving? && d.pc.receiver.Adopting? ==> d.pc.receiver.done <= |d.pc.receiver.staged|
  }

  ghost predicate DaemonOk(d: Daemon, p: Id, sessions: map<Id, Session>, log: seq<Event>, streams: map<Id, seq<byte>>) {
    && Adoptable(d) && 0 < d.nextId
    && Owned(Holdings(d), At(p), log, streams)
    && Ordered(Holdings(d), NextOf(d))
    && PcOk(d, p, sessions)
  }

  /** A replacement its donor started stays with that donor's session until it receives C. */
  predicate Expecting(pc: Pc, sid: Id) {
    || pc == Waiting(Upgrade)
    || (pc.Receiving? && pc.session == sid && pc.incoming == Upgrade && !pc.receiver.Adopting?)
    || pc == Dead
  }

  predicate PartnerOk(s: Session, sid: Id, daemons: map<Id, Daemon>) {
    && s.donor in daemons && s.receiver in daemons
    && if s.spawned then s.receiver == sid && s.donor < sid && (s.received || Expecting(daemons[sid].pc, sid))
       else daemons[s.receiver].pc != Waiting(Upgrade)
  }

  /** What a donor writes: its own ordered list, with its next ID exactly when it is being replaced. */
  predicate SnapshotOk(sn: Snapshot, spawned: bool) {
    && |sn.tabs| <= HANDOFF_MAX_TABS && (sn.nextId.Some? <==> spawned)
    && (spawned ==> Ordered(sn.tabs, sn.nextId.value))
  }

  ghost predicate SessionOk(s: Session, sid: Id, log: seq<Event>, streams: map<Id, seq<byte>>) {
    && (forall m | m in s.toReceiver && m.H? :: s.snapshot == Some(m.snapshot))
    && (s.snapshot.Some? ==> SnapshotOk(s.snapshot.value, s.spawned))
    && (C in s.toReceiver ==> s.committed && !s.received)
    && (s.received ==> s.committed && s.accepted)
    && (forall i, j | 0 <= i < j < |s.toReceiver| :: s.toReceiver[i] != C || s.toReceiver[j] != C)
    && (s.committed ==> s.snapshot.Some? && !s.aborted && Sent(s.donor, Ptys(s.snapshot.value.tabs), sid) in log)
    && (s.committed && !s.received ==> Owned(s.snapshot.value.tabs, Flying(sid), log, streams))
  }

  /** What each event of the history left in its session. */
  ghost predicate Recorded(e: Event, sessions: map<Id, Session>) {
    match e
    case Sent(_, _, sid) => sid in sessions && sessions[sid].committed
    case Received(_, _, sid) => sid in sessions && sessions[sid].received
    case Aborted(_, sid) => sid in sessions && sessions[sid].aborted
    case Killed(_, _, sid) => sid in sessions && sessions[sid].aborted
    case _ => true
  }

  ghost predicate LogOk(w: World) {
    && Disciplined(w.log)
    && forall e | e in w.log :: Recorded(e, w.sessions)
  }

  ghost predicate SupplyOk(w: World) {
    && (forall p | p in w.daemons :: p < w.supply)
    && (forall sid | sid in w.sessions :: sid < w.supply)
    && (forall x | x in w.streams :: x < w.supply)
    && (forall x: Id | x >= w.supply :: OwnerOf(w.log, x) == Nobody)
  }

  ghost predicate DaemonsOk(w: World) {
    forall p | p in w.daemons :: DaemonOk(w.daemons[p], p, w.sessions, w.log, w.streams)
  }

  ghost predicate SessionsOk(w: World) {
    forall sid | sid in w.sessions ::
      SessionOk(w.sessions[sid], sid, w.log, w.streams) && PartnerOk(w.sessions[sid], sid, w.daemons)
  }

  ghost predicate Valid(w: World) {
    SupplyOk(w) && DaemonsOk(w) && SessionsOk(w) && LogOk(w)
  }

  // ---- What leaves the others alone ----

  /** Everything one owner has stays with it, with the same output read. */
  ghost predicate Keeps(w: World, v: World, owner: Owner) {
    forall x | OwnerOf(w.log, x) == owner && x in w.streams ::
      OwnerOf(v.log, x) == owner && x in v.streams && v.streams[x] == w.streams[x]
  }

  lemma OwnedKept(tabs: seq<Held>, owner: Owner, w: World, v: World)
    requires Owned(tabs, owner, w.log, w.streams) && Keeps(w, v, owner)
    ensures Owned(tabs, owner, v.log, v.streams)
  {
    hide OwnerOf;
    forall i | 0 <= i < |tabs| && tabs[i].pty.Some?
      ensures OwnedPty(tabs[i].pty.value, owner, v.log, v.streams)
    {
      assert OwnedPty(tabs[i].pty.value, owner, w.log, w.streams);
    }
  }

  /** A step by one side of a session keeps what the other side relies on. */
  ghost predicate FairTo(s: Session, t: Session, p: Id) {
    && (s.donor != p ==> t.donor == s.donor && t.aborted == s.aborted && t.committed == s.committed && t.snapshot == s.snapshot)
    && (s.receiver != p ==>
          t.receiver == s.receiver && t.spawned == s.spawned && t.accepted == s.accepted && t.received == s.received &&
          (s.snapshot.Some? ==> t.snapshot == s.snapshot))
  }

  ghost predicate StepOf(w: World, v: World, p: Id) {
    && (forall sid | sid in w.sessions :: sid in v.sessions && FairTo(w.sessions[sid], v.sessions[sid], p))
    && (forall q | q in w.daemons && q != p :: q in v.daemons && v.daemons[q] == w.daemons[q].(paused := v.daemons[q].paused))
    && (forall q | q in w.daemons && q != p :: Keeps(w, v, At(q)))
  }

  lemma OtherDaemons(w: World, v: World, p: Id)
    requires DaemonsOk(w) && StepOf(w, v, p)
    ensures forall q | q in w.daemons && q != p :: DaemonOk(v.daemons[q], q, v.sessions, v.log, v.streams)
  {
    hide Owned, Ordered, Keeps;
    forall q | q in w.daemons && q != p
      ensures DaemonOk(v.daemons[q], q, v.sessions, v.log, v.streams)
    {
      assert DaemonOk(w.daemons[q], q, w.sessions, w.log, w.streams);
      OwnedKept(Holdings(w.daemons[q]), At(q), w, v);
      OtherPc(w, v, p, q);
    }
  }

  lemma OtherPc(w: World, v: World, p: Id, q: Id)
    requires q in w.daemons && q != p && q in v.daemons && v.daemons[q] == w.daemons[q].(paused := v.daemons[q].paused)
    requires forall sid | sid in w.sessions :: sid in v.sessions && FairTo(w.sessions[sid], v.sessions[sid], p)
    requires PcOk(w.daemons[q], q, w.sessions)
    ensures PcOk(v.daemons[q], q, v.sessions)
  {
    hide Ordered, SameState, Disowned;
    var d := w.daemons[q];
    match d.pc
    case Sending(sid, stage) => assert FairTo(w.sessions[sid], v.sessions[sid], p);
    case Receiving(sid, incoming, stage) => assert FairTo(w.sessions[sid], v.sessions[sid], p);
    case _ =>
  }

  /** One daemon's counter may change in ways its sessions allow. */
  ghost predicate PartnersKeep(w: World, v: World, p: Id) {
    && (forall q | q in w.daemons :: q in v.daemons && (q != p ==> v.daemons[q].pc == w.daemons[q].pc))
    && (p in w.daemons ==>
          && (v.daemons[p].pc == Waiting(Upgrade) ==> w.daemons[p].pc == Waiting(Upgrade))
          && (Expecting(w.daemons[p].pc, p) ==> Expecting(v.daemons[p].pc, p) || (p in v.sessions && v.sessions[p].received)))
  }

  lemma OtherSessions(w: World, v: World, p: Id, mine: Id)
    requires SessionsOk(w) && PartnersKeep(w, v, p)
    requires forall e | e in w.log :: e in v.log
    requires forall sid | sid in w.sessions && sid != mine :: sid in v.sessions && v.sessions[sid] == w.sessions[sid] && Keeps(w, v, Flying(sid))
    ensures forall sid | sid in w.sessions && sid != mine ::
      SessionOk(v.sessions[sid], sid, v.log, v.streams) && PartnerOk(v.sessions[sid], sid, v.daemons)
  {
    hide Owned, Keeps, Ptys;
    forall sid | sid in w.sessions && sid != mine
      ensures SessionOk(v.sessions[sid], sid, v.log, v.streams) && PartnerOk(v.sessions[sid], sid, v.daemons)
    {
      var s := w.sessions[sid];
      assert SessionOk(s, sid, w.log, w.streams) && PartnerOk(s, sid, w.daemons);
      if s.committed && !s.received {
        OwnedKept(s.snapshot.value.tabs, Flying(sid), w, v);
      }
    }
  }

  // ---- Steps ----

  predicate Runs(w: World, p: Id) {
    p in w.daemons && !w.daemons[p].paused
  }

  predicate Serves(w: World, p: Id) {
    Runs(w, p) && w.daemons[p].pc == Serving
  }

  /** Inside `send`, at one stage, with its session at hand. */
  predicate Donates(w: World, p: Id) {
    Runs(w, p) && w.daemons[p].pc.Sending? && w.daemons[p].pc.session in w.sessions
  }

  predicate Receives(w: World, q: Id) {
    Runs(w, q) && w.daemons[q].pc.Receiving? && w.daemons[q].pc.session in w.sessions
  }

  function PutDaemon(w: World, p: Id, d: Daemon): World {
    w.(daemons := w.daemons[p := d])
  }

  function PutSession(w: World, sid: Id, s: Session): World {
    w.(sessions := w.sessions[sid := s])
  }

  function Record(w: World, e: Event): World {
    w.(log := w.log + [e])
  }

  // ---- A daemon on its own ----

  /** A new tab: a shell of its own, a serial line without a child, or a browser. */
  function Open(w: World, p: Id, terminal: bool, identity: Identity): (r: World) {
    if Serves(w, p) && w.daemons[p].nextId < 0xffff_ffff then
      var d, x := w.daemons[p], w.supply;
      var tab := Held(d.nextId, if terminal then Some(Pty(x, identity, true, [])) else None);
      var v := PutDaemon(w, p, d.(tabs := d.tabs + [tab], nextId := d.nextId + 1));
      if terminal then Record(v, Opened(p, x)).(streams := v.streams[x := []], supply := x + 1) else v
    else w
  }

  /** Read some output: the engine advances by exactly what the PTY gave. */
  function Read(w: World, p: Id, i: nat, bytes: seq<byte>): (r: World) {
    if Serves(w, p) && i < |w.daemons[p].tabs| && w.daemons[p].tabs[i].pty.Some? && w.daemons[p].tabs[i].pty.value.master &&
       w.daemons[p].tabs[i].pty.value.x in w.streams
    then
      var d := w.daemons[p];
      var pty := d.tabs[i].pty.value;
      var next := d.tabs[i].(pty := Some(pty.(fed := pty.fed + bytes)));
      Record(PutDaemon(w, p, d.(tabs := d.tabs[i := next])), Exercised(p, pty.x))
        .(streams := w.streams[pty.x := w.streams[pty.x] + bytes])
    else w
  }

  /** Stopping a tab signals its child wherever an identity is still held. */
  function Signals(p: Id, tabs: seq<Held>): (es: seq<Event>) {
    if tabs == [] then []
    else
      (if tabs[0].pty.Some? && tabs[0].pty.value.identity != NoProcess then [Exercised(p, tabs[0].pty.value.x)] else []) +
      Signals(p, tabs[1..])
  }

  /** The PTY hung up: its child is signalled if its identity is still held, and identity and master are let go. */
  function Hangup(w: World, p: Id, i: nat): (r: World) {
    if Serves(w, p) && i < |w.daemons[p].tabs| && w.daemons[p].tabs[i].pty.Some? then
      var d := w.daemons[p];
      PutDaemon(w, p, d.(tabs := d.tabs[i := Disown(d.tabs[i])])).(log := w.log + Signals(p, [d.tabs[i]]))
    else w
  }

  function Close(w: World, p: Id, i: nat): (r: World) {
    if Serves(w, p) && i < |w.daemons[p].tabs| then
      var d := w.daemons[p];
      PutDaemon(w, p, d.(tabs := d.tabs[..i] + d.tabs[i + 1..])).(log := w.log + Signals(p, [d.tabs[i]]))
    else w
  }

  // ---- Lemmas: each keeps the invariant ----

  lemma NoLog(w: World)
    ensures w.log + [] == w.log
  {
  }

  /** A daemon may change by itself while every other owner keeps what it has. */
  lemma DaemonStep(w: World, v: World, p: Id)
    requires Valid(w) && p in w.daemons && p in v.daemons
    requires v.sessions == w.sessions && v.daemons == w.daemons[p := v.daemons[p]]
    requires PartnersKeep(w, v, p)
    requires forall e | e in w.log :: e in v.log
    requires forall q | q != p :: Keeps(w, v, At(q))
    requires forall sid :: Keeps(w, v, Flying(sid))
    requires DaemonOk(v.daemons[p], p, v.sessions, v.log, v.streams)
    requires LogOk(v) && SupplyOk(v)
    ensures Valid(v)
  {
    hide Keeps, LogOk, SupplyOk, SessionOk, PartnerOk, DaemonOk, PartnersKeep, Recorded;
    forall sid | sid in w.sessions
      ensures FairTo(w.sessions[sid], v.sessions[sid], p)
    {
    }
    OtherDaemons(w, v, p);
    SessionKeys(w);
    OtherSessions(w, v, p, w.supply);
  }

  /** While it serves, a daemon may change its own tabs. */
  lemma LocalStep(w: World, v: World, p: Id)
    requires Valid(w) && Serves(w, p) && p in v.daemons && v.daemons[p].pc == Serving
    requires v.sessions == w.sessions && v.daemons == w.daemons[p := v.daemons[p]]
    requires forall e | e in w.log :: e in v.log
    requires forall q | q != p :: Keeps(w, v, At(q))
    requires forall sid :: Keeps(w, v, Flying(sid))
    requires Owned(v.daemons[p].tabs, At(p), v.log, v.streams) && Ordered(v.daemons[p].tabs, v.daemons[p].nextId)
    requires LogOk(v) && SupplyOk(v)
    ensures Valid(v)
  {
    hide Keeps, Owned, LogOk, SupplyOk, PcOk;
    ServingPc(v.daemons[p], p, v.sessions);
    hide Valid;
    DaemonStep(w, v, p);
  }

  lemma SessionKeys(w: World)
    requires Valid(w)
    ensures forall sid | sid in w.sessions :: sid < w.supply
    ensures forall p | p in w.daemons :: p < w.supply
  {
    hide DaemonsOk, SessionsOk, LogOk;
  }

  lemma ServingPc(d: Daemon, p: Id, sessions: map<Id, Session>)
    requires d.pc == Serving
    ensures PcOk(d, p, sessions) && Adoptable(d) && Holdings(d) == d.tabs && NextOf(d) == d.nextId
  {
  }

  /** What is known of a serving daemon. */
  lemma Served(w: World, p: Id)
    requires Valid(w) && Serves(w, p)
    ensures var d := w.daemons[p]; Owned(d.tabs, At(p), w.log, w.streams) && Ordered(d.tabs, d.nextId)
  {
    hide Owned, Ordered, SessionsOk, LogOk, PcOk;
    assert DaemonOk(w.daemons[p], p, w.sessions, w.log, w.streams);
  }

  /** The history grows by an allowed event that no session has to record. */
  lemma LogGrows(w: World, v: World, e: Event)
    requires LogOk(w) && v.sessions == w.sessions && v.log == w.log + [e] && Legal(w.log, e) && (e.Opened? || e.Exercised?)
    ensures LogOk(v)
  {
    hide Legal, Disciplined;
    DisciplinedNext(w.log, e);
  }

  /** Exercising authority moves none. */
  lemma OwnersSame(w: World, v: World, e: Event)
    requires v.log == w.log + [e] && !e.Opened? && !e.Sent? && !e.Received?
    ensures forall x :: OwnerOf(v.log, x) == OwnerOf(w.log, x)
  {
    forall x
      ensures OwnerOf(v.log, x) == OwnerOf(w.log, x)
    {
      OwnerNext(w.log, e, x);
    }
  }

  lemma OpenKeeps(w: World, p: Id, terminal: bool, identity: Identity)
    requires Valid(w)
    ensures Valid(Open(w, p, terminal, identity))
  {
    hide Valid, Owned, Ordered, Keeps, SupplyOk, LogOk, OwnerOf;
    var v := Open(w, p, terminal, identity);
    if Serves(w, p) && w.daemons[p].nextId < 0xffff_ffff {
      OpenedLog(w, v, p, terminal, identity);
      var d := w.daemons[p];
      Served(w, p);
      NewTab(w, v, p, d.tabs, v.daemons[p].tabs[|d.tabs|], d.nextId);
      LocalStep(w, v, p);
    }
  }

  lemma OpenedLog(w: World, v: World, p: Id, terminal: bool, identity: Identity)
    requires Valid(w) && Serves(w, p) && w.daemons[p].nextId < 0xffff_ffff && v == Open(w, p, terminal, identity)
    ensures SupplyOk(w) && SupplyOk(v) && LogOk(v)
    ensures forall q :: Keeps(w, v, At(q))
    ensures forall sid :: Keeps(w, v, Flying(sid))
    ensures terminal ==> OwnerOf(v.log, w.supply) == At(p)
  {
    hide SessionsOk, DaemonsOk, Recorded, Disciplined, Legal, OwnerOf;
    if terminal {
      OpenedOwners(w, v, p);
      LogGrows(w, v, Opened(p, w.supply));
    }
  }

  lemma NewTab(w: World, v: World, p: Id, tabs: seq<Held>, t: Held, nextId: u32)
    requires Owned(tabs, At(p), w.log, w.streams) && Ordered(tabs, nextId) && SupplyOk(w) && Keeps(w, v, At(p))
    requires t.id == nextId < 0xffff_ffff
    requires t.pty.Some? ==> t.pty.value.x == w.supply && OwnedPty(t.pty.value, At(p), v.log, v.streams)
    ensures Owned(tabs + [t], At(p), v.log, v.streams) && Ordered(tabs + [t], nextId + 1)
  {
    Listed(tabs, At(p), w);
    OwnedKept(tabs, At(p), w, v);
    hide Owned, Ordered, SupplyOk, OwnedPty;
    OwnedAppend(tabs, t, At(p), v.log, v.streams);
    OrderedNextTab(tabs, nextId, t.pty);
  }

  lemma NothingMoves(w: World, v: World)
    requires v.log == w.log && v.streams == w.streams
    ensures forall owner :: Keeps(w, v, owner)
    ensures SupplyOk(w) && v.daemons.Keys == w.daemons.Keys && v.sessions == w.sessions && v.supply == w.supply ==> SupplyOk(v)
  {
  }

  lemma OrderedNextTab(tabs: seq<Held>, nextId: u32, pty: Option<Pty>)
    requires Ordered(tabs, nextId) && nextId < 0xffff_ffff
    ensures Ordered(tabs + [Held(nextId, pty)], nextId + 1)
  {
    OrderedAppend(tabs, nextId, [Held(nextId, pty)], nextId + 1);
  }

  /** A new PTY's number is nobody's yet. */
  lemma OpenedOwners(w: World, v: World, p: Id)
    requires SupplyOk(w) && v.log == w.log + [Opened(p, w.supply)] && v.supply == w.supply + 1
    requires v.streams == w.streams[w.supply := []] && v.sessions == w.sessions && v.daemons.Keys == w.daemons.Keys
    ensures SupplyOk(v) && Legal(w.log, Opened(p, w.supply)) && OwnerOf(v.log, w.supply) == At(p)
    ensures forall q :: Keeps(w, v, At(q))
    ensures forall sid :: Keeps(w, v, Flying(sid))
  {
    hide OwnerOf;
    forall x: Id
      ensures OwnerOf(v.log, x) == if x == w.supply then At(p) else OwnerOf(w.log, x)
    {
      OwnerNext(w.log, Opened(p, w.supply), x);
    }
  }

  lemma OwnedAppend(tabs: seq<Held>, t: Held, owner: Owner, log: seq<Event>, streams: map<Id, seq<byte>>)
    requires Owned(tabs, owner, log, streams)
    requires t.pty.Some? ==> OwnedPty(t.pty.value, owner, log, streams)
    requires t.pty.Some? ==> forall i | 0 <= i < |tabs| && tabs[i].pty.Some? :: tabs[i].pty.value.x != t.pty.value.x
    ensures Owned(tabs + [t], owner, log, streams)
  {
    hide OwnedPty;
  }

  /** Every PTY in an owned list is on record. */
  lemma Listed(tabs: seq<Held>, owner: Owner, w: World)
    requires Owned(tabs, owner, w.log, w.streams) && SupplyOk(w)
    ensures forall i | 0 <= i < |tabs| && tabs[i].pty.Some? :: tabs[i].pty.value.x in w.streams && tabs[i].pty.value.x < w.supply
  {
    hide OwnerOf;
    forall i | 0 <= i < |tabs| && tabs[i].pty.Some?
      ensures tabs[i].pty.value.x in w.streams
    {
      assert OwnedPty(tabs[i].pty.value, owner, w.log, w.streams);
    }
  }

  lemma ReadKeeps(w: World, p: Id, i: nat, bytes: seq<byte>)
    requires Valid(w)
    ensures Valid(Read(w, p, i, bytes))
  {
    hide SessionsOk, DaemonsOk, Recorded, Disciplined, OwnerOf;
    var v := Read(w, p, i, bytes);
    if v != w {
      var d := w.daemons[p];
      var x := d.tabs[i].pty.value.x;
      Served(w, p);
      assert OwnedPty(d.tabs[i].pty.value, At(p), w.log, w.streams);
      LogGrows(w, v, Exercised(p, x));
      OwnersSame(w, v, Exercised(p, x));
      OwnedRead(d.tabs, i, bytes, At(p), w, v);
      LocalStep(w, v, p);
    }
  }

  lemma OwnedRead(tabs: seq<Held>, i: nat, bytes: seq<byte>, owner: Owner, w: World, v: World)
    requires i < |tabs| && tabs[i].pty.Some? && Owned(tabs, owner, w.log, w.streams)
    requires forall x :: OwnerOf(v.log, x) == OwnerOf(w.log, x)
    requires tabs[i].pty.value.x in w.streams
    requires v.streams == w.streams[tabs[i].pty.value.x := w.streams[tabs[i].pty.value.x] + bytes]
    ensures Owned(tabs[i := tabs[i].(pty := Some(tabs[i].pty.value.(fed := tabs[i].pty.value.fed + bytes)))], owner, v.log, v.streams)
  {
    hide OwnerOf;
    var next := tabs[i := tabs[i].(pty := Some(tabs[i].pty.value.(fed := tabs[i].pty.value.fed + bytes)))];
    forall j | 0 <= j < |next| && next[j].pty.Some?
      ensures OwnedPty(next[j].pty.value, owner, v.log, v.streams)
    {
      assert OwnedPty(tabs[j].pty.value, owner, w.log, w.streams);
      if j < i || j > i {
        assert tabs[j].pty.value.x != tabs[i].pty.value.x;
      }
    }
  }

  lemma SignalsOne(p: Id, t: Held)
    ensures Signals(p, [t]) == if t.pty.Some? && t.pty.value.identity != NoProcess then [Exercised(p, t.pty.value.x)] else []
  {
    assert [t][1..] == [];
  }

  /** Stopping one owned tab exercises authority its owner has. */
  lemma StopKeeps(w: World, v: World, p: Id, i: nat)
    requires Valid(w) && Serves(w, p) && i < |w.daemons[p].tabs|
    requires v.log == w.log + Signals(p, [w.daemons[p].tabs[i]])
    requires v.sessions == w.sessions && v.streams == w.streams && v.supply == w.supply && v.daemons.Keys == w.daemons.Keys
    ensures LogOk(v) && SupplyOk(v) && (forall e | e in w.log :: e in v.log)
    ensures forall x :: OwnerOf(v.log, x) == OwnerOf(w.log, x)
  {
    hide SessionsOk, DaemonsOk, Recorded, Disciplined, OwnerOf;
    var d := w.daemons[p];
    Served(w, p);
    SignalsOne(p, d.tabs[i]);
    if d.tabs[i].pty.Some? && d.tabs[i].pty.value.identity != NoProcess {
      var x := d.tabs[i].pty.value.x;
      assert OwnedPty(d.tabs[i].pty.value, At(p), w.log, w.streams);
      assert v.log == w.log + [Exercised(p, x)];
      LogGrows(w, v, Exercised(p, x));
      OwnersSame(w, v, Exercised(p, x));
    } else {
      NoLog(w);
      assert v.log == w.log;
    }
  }

  lemma HangupKeeps(w: World, p: Id, i: nat)
    requires Valid(w)
    ensures Valid(Hangup(w, p, i))
  {
    hide SessionsOk, DaemonsOk, LogOk, OwnerOf, Signals;
    var v := Hangup(w, p, i);
    if Serves(w, p) && i < |w.daemons[p].tabs| && w.daemons[p].tabs[i].pty.Some? {
      Served(w, p);
      StopKeeps(w, v, p, i);
      forall j | 0 <= j < |v.daemons[p].tabs| && v.daemons[p].tabs[j].pty.Some?
        ensures OwnedPty(v.daemons[p].tabs[j].pty.value, At(p), v.log, v.streams)
      {
        assert OwnedPty(w.daemons[p].tabs[j].pty.value, At(p), w.log, w.streams);
      }
      LocalStep(w, v, p);
    }
  }

  lemma CloseKeeps(w: World, p: Id, i: nat)
    requires Valid(w)
    ensures Valid(Close(w, p, i))
  {
    hide SessionsOk, DaemonsOk, LogOk, OwnerOf, Signals;
    var v := Close(w, p, i);
    if Serves(w, p) && i < |w.daemons[p].tabs| {
      var d := w.daemons[p];
      Served(w, p);
      StopKeeps(w, v, p, i);
      OwnedKept(d.tabs, At(p), w, v);
      OwnedWithout(d.tabs, i, At(p), v.log, v.streams, d.nextId);
      LocalStep(w, v, p);
    }
  }

  lemma OwnedWithout(tabs: seq<Held>, i: nat, owner: Owner, log: seq<Event>, streams: map<Id, seq<byte>>, nextId: u32)
    requires i < |tabs| && Owned(tabs, owner, log, streams) && Ordered(tabs, nextId)
    ensures Owned(tabs[..i] + tabs[i + 1..], owner, log, streams) && Ordered(tabs[..i] + tabs[i + 1..], nextId)
  {
    hide OwnedPty;
    var rest := tabs[..i] + tabs[i + 1..];
    forall j | 0 <= j < |rest|
      ensures rest[j] == tabs[if j < i then j else j + 1]
    {
    }
  }

  // ---- The donor's side ----

  /** Connect to a listener whose name is known; a replacement's own listener is known only to its donor. */
  function Offer(w: World, p: Id, q: Id): (r: World) {
    if Serves(w, p) && 1 <= |w.daemons[p].tabs| <= HANDOFF_MAX_TABS && q in w.daemons && w.daemons[q].pc != Waiting(Upgrade) then
      Begin(w, p, q, false, w.supply)
    else w
  }

  function Begin(w: World, p: Id, q: Id, spawned: bool, sid: Id): World
    requires p in w.daemons
  {
    PutSession(PutDaemon(w, p, w.daemons[p].(pc := Sending(sid, Snapshotting))), sid,
      Session(p, q, spawned, false, true, true, [], [], None, false, false, false)).(supply := sid + 1)
  }

  /** Start a replacement of this executable and connect to it; nothing is due after that but the transfer. */
  function Replace(w: World, p: Id): (r: World) {
    if Serves(w, p) && |w.daemons[p].tabs| <= HANDOFF_MAX_TABS then
      var q := w.supply;
      Begin(PutDaemon(w, q, Daemon(Waiting(Upgrade), [], 1, false)), p, q, true, q)
    else w
  }

  /** A replacement for a donor of the older protocol, told the IDs its tabs shall have. */
  function StartMapped(w: World, ids: seq<u32>, nextId: u32, pause: bool): (r: World) {
    PutDaemon(w, w.supply, Daemon(Waiting(Mapped(ids, nextId, pause)), [], 1, false)).(supply := w.supply + 1)
  }

  predicate AllOpen(tabs: seq<Held>) {
    forall i | 0 <= i < |tabs| && tabs[i].pty.Some? :: tabs[i].pty.value.master
  }

  /** Write the sealed snapshot and send it with every master; a tab whose PTY is gone cannot be sent. */
  function SendSnapshot(w: World, p: Id): (r: World) {
    if Donates(w, p) && w.daemons[p].pc.donor == Snapshotting && AllOpen(w.daemons[p].tabs) &&
       w.sessions[w.daemons[p].pc.session].receiverOpen
    then
      var d, sid := w.daemons[p], w.daemons[p].pc.session;
      var s := w.sessions[sid];
      var sn := Snapshot(if s.spawned then Some(d.nextId) else None, d.tabs);
      PutSession(PutDaemon(w, p, d.(pc := Sending(sid, AwaitReady))), sid, s.(toReceiver := s.toReceiver + [H(sn)], snapshot := Some(sn)))
    else w
  }

  function TakeReady(w: World, p: Id): (r: World) {
    if Donates(w, p) && w.daemons[p].pc.donor == AwaitReady then
      var d, sid := w.daemons[p], w.daemons[p].pc.session;
      var s := w.sessions[sid];
      if s.toDonor != [] && s.toDonor[0] == R then
        PutSession(PutDaemon(w, p, d.(pc := Sending(sid, Committing))), sid, s.(toDonor := s.toDonor[1..]))
      else w
    else w
  }

  /** The irrevocable step: C is on its way, and with it all authority over the donor's PTYs. */
  function SendCommit(w: World, p: Id): (r: World) {
    if Donates(w, p) && w.daemons[p].pc.donor == Committing && w.sessions[w.daemons[p].pc.session].receiverOpen then
      var d, sid := w.daemons[p], w.daemons[p].pc.session;
      var s := w.sessions[sid];
      Record(PutSession(PutDaemon(w, p, d.(pc := Sending(sid, Disowning(0)))), sid,
               s.(toReceiver := s.toReceiver + [C], committed := true)),
             Sent(p, Ptys(d.tabs), sid))
    else w
  }

  function Disown(t: Held): Held {
    if t.pty.None? then t else t.(pty := Some(t.pty.value.(identity := NoProcess, master := false)))
  }

  function DisownNext(w: World, p: Id): (r: World) {
    if Donates(w, p) && w.daemons[p].pc.donor.Disowning? && w.daemons[p].pc.donor.done < |w.daemons[p].tabs| then
      var d := w.daemons[p];
      var k := d.pc.donor.done;
      PutDaemon(w, p, d.(tabs := d.tabs[k := Disown(d.tabs[k])], pc := Sending(d.pc.session, Disowning(k + 1))))
    else w
  }

  /** Drop the tabs; dropping one would still signal a child whose identity was kept. */
  function Clear(w: World, p: Id): (r: World) {
    if Donates(w, p) && w.daemons[p].pc.donor.Disowning? && w.daemons[p].pc.donor.done == |w.daemons[p].tabs| then
      var d := w.daemons[p];
      PutDaemon(w, p, d.(tabs := [], pc := Sending(d.pc.session, AwaitAck))).(log := w.log + Signals(p, d.tabs))
    else w
  }

  /** A or its timeout; either way the transfer succeeded, and a replaced daemon is done. */
  function Finish(w: World, p: Id): (r: World) {
    if Donates(w, p) && w.daemons[p].pc.donor == AwaitAck then
      var d, sid := w.daemons[p], w.daemons[p].pc.session;
      var s := w.sessions[sid];
      PutSession(PutDaemon(w, p, d.(pc := if s.spawned then Dead else Serving)), sid, s.(donorOpen := false))
    else w
  }

  /** Any failure before C: give the session up and keep every tab; a replacement it started is killed. */
  function Fail(w: World, p: Id): (r: World) {
    if Donates(w, p) && (w.daemons[p].pc.donor == Snapshotting || w.daemons[p].pc.donor == AwaitReady || w.daemons[p].pc.donor == Committing)
    then
      var sid := w.daemons[p].pc.session;
      var v := GiveUp(w, p);
      if w.sessions[sid].spawned then Kill(v, p, sid) else v
    else w
  }

  function GiveUp(w: World, p: Id): World
    requires Donates(w, p)
  {
    var d, sid := w.daemons[p], w.daemons[p].pc.session;
    Record(PutSession(PutDaemon(w, p, d.(pc := Serving)), sid, w.sessions[sid].(donorOpen := false, aborted := true)), Aborted(p, sid))
  }

  function Kill(w: World, p: Id, sid: Id): World {
    if sid in w.sessions && w.sessions[sid].receiver in w.daemons then
      var q := w.sessions[sid].receiver;
      Record(PutDaemon(w, q, w.daemons[q].(pc := Dead)), Killed(p, q, sid))
    else w
  }

  // ---- The receiver's side ----

  /** Between transfers a daemon accepts whoever connected to its listener. */
  function Accept(w: World, q: Id, sid: Id): (r: World) {
    if Runs(w, q) && (w.daemons[q].pc.Serving? || w.daemons[q].pc.Waiting?) && sid in w.sessions &&
       w.sessions[sid].receiver == q && !w.sessions[sid].accepted
    then
      var d := w.daemons[q];
      var incoming := if d.pc.Serving? then Append else d.pc.incoming;
      PutSession(PutDaemon(w, q, d.(pc := Receiving(sid, incoming, AwaitSnapshot))), sid, w.sessions[sid].(accepted := true))
    else w
  }

  /** Stage a snapshot that passes every check; nothing staged has any authority. */
  function TakeSnapshot(w: World, q: Id): (r: World) {
    if Receives(w, q) && w.daemons[q].pc.receiver == AwaitSnapshot then
      var d, sid := w.daemons[q], w.daemons[q].pc.session;
      var s := w.sessions[sid];
      if s.toReceiver != [] && s.toReceiver[0].H? then
        match Stage(s.toReceiver[0].snapshot, d.pc.incoming, d)
        case None => w
        case Some(staged) =>
          PutSession(PutDaemon(w, q, d.(pc := Receiving(sid, d.pc.incoming, Prepared(staged.0, staged.1)))), sid,
                     s.(toReceiver := s.toReceiver[1..]))
      else w
    else w
  }

  function SendReady(w: World, q: Id): (r: World) {
    if Receives(w, q) && w.daemons[q].pc.receiver.Prepared? && w.sessions[w.daemons[q].pc.session].donorOpen then
      var d, sid := w.daemons[q], w.daemons[q].pc.session;
      var s := w.sessions[sid];
      PutSession(PutDaemon(w, q, d.(pc := Receiving(sid, d.pc.incoming, AwaitCommit(d.pc.receiver.staged, d.pc.receiver.saved)))), sid,
                 s.(toDonor := s.toDonor + [R]))
    else w
  }

  /** C arrives: the receiver answers for the staged tabs from here on, and may pause a donor of the older protocol. */
  function TakeCommit(w: World, q: Id): (r: World) {
    if CommitArrived(w, q) then
      var s, incoming := w.sessions[w.daemons[q].pc.session], w.daemons[q].pc.incoming;
      if incoming.Mapped? && incoming.pause && s.donor != q then Pause(Receipt(w, q), s.donor) else Receipt(w, q)
    else w
  }

  predicate CommitArrived(w: World, q: Id) {
    && Receives(w, q) && w.daemons[q].pc.receiver.AwaitCommit?
    && var s := w.sessions[w.daemons[q].pc.session]; s.toReceiver != [] && s.toReceiver[0] == C
  }

  function Receipt(w: World, q: Id): World
    requires CommitArrived(w, q)
  {
    var d, sid := w.daemons[q], w.daemons[q].pc.session;
    var s, a := w.sessions[sid], d.pc.receiver;
    Record(PutSession(PutDaemon(w, q, d.(pc := Receiving(sid, d.pc.incoming, Adopting(a.staged, a.saved, 0)))), sid,
                      s.(toReceiver := s.toReceiver[1..], received := true)),
           Received(q, Ptys(a.staged), sid))
  }

  function Pause(w: World, p: Id): World {
    if p in w.daemons then PutDaemon(w, p, w.daemons[p].(paused := true)) else w
  }

  function Adopt(w: World, q: Id): (r: World) {
    if Receives(w, q) && w.daemons[q].pc.receiver.Adopting? && w.daemons[q].pc.receiver.done < |w.daemons[q].pc.receiver.staged| then
      var d := w.daemons[q];
      var a := d.pc.receiver;
      PutDaemon(w, q, d.(tabs := d.tabs + [a.staged[a.done]], pc := d.pc.(receiver := a.(done := a.done + 1))))
    else w
  }

  /** Everything is adopted: take the new next ID and tell the donor if it still listens. */
  function Acknowledge(w: World, q: Id): (r: World) {
    if Receives(w, q) && w.daemons[q].pc.receiver.Adopting? && w.daemons[q].pc.receiver.done == |w.daemons[q].pc.receiver.staged| then
      var d, sid := w.daemons[q], w.daemons[q].pc.session;
      var s := w.sessions[sid];
      PutSession(PutDaemon(w, q, d.(pc := Serving, nextId := d.pc.receiver.saved)), sid,
                 s.(toDonor := if s.donorOpen then s.toDonor + [A] else s.toDonor, receiverOpen := false))
    else w
  }

  /** Any failure before C: the staged tabs are dropped without reading or signalling anything. */
  function Reject(w: World, q: Id): (r: World) {
    if Receives(w, q) && !w.daemons[q].pc.receiver.Adopting? then
      var d, sid := w.daemons[q], w.daemons[q].pc.session;
      PutSession(PutDaemon(w, q, d.(pc := if d.pc.incoming.Append? then Serving else Dead)), sid, w.sessions[sid].(receiverOpen := false))
    else w
  }

  /** A daemon may die at any moment; the other end of its channel stays. */
  function Crash(w: World, p: Id): (r: World) {
    if p in w.daemons then PutDaemon(w, p, w.daemons[p].(pc := Dead)) else w
  }

  // ---- Any step, any run ----

  datatype Action =
    | DoOpen(p: Id, terminal: bool, identity: Identity)
    | DoRead(p: Id, i: nat, bytes: seq<byte>)
    | DoHangup(p: Id, i: nat)
    | DoClose(p: Id, i: nat)
    | DoOffer(p: Id, q: Id)
    | DoReplace(p: Id)
    | DoStartMapped(ids: seq<u32>, nextId: u32, pause: bool)
    | DoSendSnapshot(p: Id)
    | DoTakeReady(p: Id)
    | DoSendCommit(p: Id)
    | DoDisown(p: Id)
    | DoClear(p: Id)
    | DoFinish(p: Id)
    | DoFail(p: Id)
    | DoAccept(p: Id, session: Id)
    | DoTakeSnapshot(p: Id)
    | DoSendReady(p: Id)
    | DoTakeCommit(p: Id)
    | DoAdopt(p: Id)
    | DoAcknowledge(p: Id)
    | DoReject(p: Id)
    | DoCrash(p: Id)

  function Act(w: World, a: Action): (r: World) {
    match a
    case DoOpen(p, terminal, identity) => Open(w, p, terminal, identity)
    case DoRead(p, i, bytes) => Read(w, p, i, bytes)
    case DoHangup(p, i) => Hangup(w, p, i)
    case DoClose(p, i) => Close(w, p, i)
    case DoOffer(p, q) => Offer(w, p, q)
    case DoReplace(p) => Replace(w, p)
    case DoStartMapped(ids, nextId, pause) => StartMapped(w, ids, nextId, pause)
    case DoSendSnapshot(p) => SendSnapshot(w, p)
    case DoTakeReady(p) => TakeReady(w, p)
    case DoSendCommit(p) => SendCommit(w, p)
    case DoDisown(p) => DisownNext(w, p)
    case DoClear(p) => Clear(w, p)
    case DoFinish(p) => Finish(w, p)
    case DoFail(p) => Fail(w, p)
    case DoAccept(p, session) => Accept(w, p, session)
    case DoTakeSnapshot(p) => TakeSnapshot(w, p)
    case DoSendReady(p) => SendReady(w, p)
    case DoTakeCommit(p) => TakeCommit(w, p)
    case DoAdopt(p) => Adopt(w, p)
    case DoAcknowledge(p) => Acknowledge(w, p)
    case DoReject(p) => Reject(w, p)
    case DoCrash(p) => Crash(w, p)
  }

  /** One daemon, nothing open, nothing in progress. */
  const START: World := World(map[0 := Daemon(Serving, [], 1, false)], map[], map[], [], 1)

  function Reached(actions: seq<Action>): (w: World) {
    if actions == [] then START else Act(Reached(actions[..|actions| - 1]), actions[|actions| - 1])
  }

  // ---- Steps of a transfer keep the invariant ----

  lemma TransferStep(w: World, v: World, p: Id, sid: Id)
    requires Valid(w) && p in w.daemons && p in v.daemons && sid in w.sessions && sid in v.sessions
    requires v.sessions == w.sessions[sid := v.sessions[sid]] && FairTo(w.sessions[sid], v.sessions[sid], p)
    requires forall q | q in v.daemons :: q in w.daemons
    requires forall q | q in w.daemons && q != p :: q in v.daemons && v.daemons[q] == w.daemons[q].(paused := v.daemons[q].paused)
    requires PartnersKeep(w, v, p)
    requires forall e | e in w.log :: e in v.log
    requires forall q | q != p :: Keeps(w, v, At(q))
    requires forall other | other != sid :: Keeps(w, v, Flying(other))
    requires DaemonOk(v.daemons[p], p, v.sessions, v.log, v.streams)
    requires SessionOk(v.sessions[sid], sid, v.log, v.streams) && PartnerOk(v.sessions[sid], sid, v.daemons)
    requires LogOk(v) && SupplyOk(v)
    ensures Valid(v)
  {
    hide Keeps, LogOk, SupplyOk, SessionOk, PartnerOk, DaemonOk, PartnersKeep, Recorded;
    forall other | other in w.sessions
      ensures other in v.sessions && FairTo(w.sessions[other], v.sessions[other], p)
    {
    }
    OtherDaemons(w, v, p);
    OtherSessions(w, v, p, sid);
  }

  /** A step without events, whose session decides nothing new. */
  lemma QuietStep(w: World, v: World, p: Id, sid: Id)
    requires Valid(w) && p in w.daemons && p in v.daemons && sid in w.sessions && sid in v.sessions
    requires v.log == w.log && v.streams == w.streams && v.supply == w.supply
    requires v.daemons == w.daemons[p := v.daemons[p]] && v.sessions == w.sessions[sid := v.sessions[sid]]
    requires FairTo(w.sessions[sid], v.sessions[sid], p) && SameFate(w.sessions[sid], v.sessions[sid])
    requires PartnersKeep(w, v, p)
    requires Adoptable(v.daemons[p]) && v.daemons[p].nextId > 0 && PcOk(v.daemons[p], p, v.sessions)
    requires Owned(Holdings(v.daemons[p]), At(p), w.log, w.streams) && Ordered(Holdings(v.daemons[p]), NextOf(v.daemons[p]))
    requires SessionOk(v.sessions[sid], sid, v.log, v.streams)
    ensures Valid(v)
  {
    hide Owned, Ordered, SessionOk, PcOk, Keeps, PartnersKeep;
    NothingMoves(w, v);
    KeysKept(w, v, p, sid);
    assert LogOk(v) by { LogKept(w, v, sid); }
    PartnerKept(w, v, p, sid);
    TransferStep(w, v, p, sid);
  }

  predicate SameFate(s: Session, t: Session) {
    && t.donor == s.donor && t.receiver == s.receiver && t.spawned == s.spawned
    && t.committed == s.committed && t.received == s.received && t.aborted == s.aborted
  }

  lemma KeysKept(w: World, v: World, p: Id, sid: Id)
    requires Valid(w) && p in w.daemons && sid in w.sessions && p in v.daemons && sid in v.sessions
    requires v.log == w.log && v.streams == w.streams && v.supply == w.supply
    requires v.daemons == w.daemons[p := v.daemons[p]] && v.sessions == w.sessions[sid := v.sessions[sid]]
    ensures SupplyOk(v) && v.daemons.Keys == w.daemons.Keys
  {
    hide DaemonsOk, SessionsOk, LogOk, OwnerOf;
  }

  lemma LogKept(w: World, v: World, sid: Id)
    requires LogOk(w) && sid in w.sessions && sid in v.sessions && v.log == w.log
    requires v.sessions == w.sessions[sid := v.sessions[sid]] && SameFate(w.sessions[sid], v.sessions[sid])
    ensures LogOk(v)
  {
    hide Disciplined;
    forall e | e in v.log
      ensures Recorded(e, v.sessions)
    {
      assert Recorded(e, w.sessions);
    }
  }

  lemma PartnerKept(w: World, v: World, p: Id, sid: Id)
    requires SessionsOk(w) && sid in w.sessions && sid in v.sessions && PartnersKeep(w, v, p)
    requires SameFate(w.sessions[sid], v.sessions[sid])
    requires v.sessions == w.sessions[sid := v.sessions[sid]]
    ensures PartnerOk(v.sessions[sid], sid, v.daemons)
  {
    hide SessionOk;
    assert PartnerOk(w.sessions[sid], sid, w.daemons);
  }

  /** What is known of a daemon inside a transfer. */
  lemma Inside(w: World, p: Id)
    requires Valid(w) && (Donates(w, p) || Receives(w, p))
    ensures var d, sid := w.daemons[p], w.daemons[p].pc.session;
      && Adoptable(d) && d.nextId > 0 && PcOk(d, p, w.sessions)
      && Owned(Holdings(d), At(p), w.log, w.streams) && Ordered(Holdings(d), NextOf(d))
      && SessionOk(w.sessions[sid], sid, w.log, w.streams) && PartnerOk(w.sessions[sid], sid, w.daemons)
  {
    hide Owned, Ordered, SessionOk, PartnerOk, PcOk, LogOk, SupplyOk;
    assert DaemonOk(w.daemons[p], p, w.sessions, w.log, w.streams);
  }

  lemma SameMap<K, V>(m: map<K, V>, k: K)
    requires k in m
    ensures m[k := m[k]] == m
  {
  }

  lemma SendSnapshotKeeps(w: World, p: Id)
    requires Valid(w)
    ensures Valid(SendSnapshot(w, p))
  {
    hide Valid, Owned, Ordered;
    var v := SendSnapshot(w, p);
    if v != w {
      Inside(w, p);
      QuietStep(w, v, p, w.daemons[p].pc.session);
    }
  }

  lemma TakeReadyKeeps(w: World, p: Id)
    requires Valid(w)
    ensures Valid(TakeReady(w, p))
  {
    hide Valid, Owned, Ordered;
    var v := TakeReady(w, p);
    if v != w {
      Inside(w, p);
      QuietStep(w, v, p, w.daemons[p].pc.session);
    }
  }

  lemma DisownNextKeeps(w: World, p: Id)
    requires Valid(w)
    ensures Valid(DisownNext(w, p))
  {
    hide Valid, Owned, Ordered, SessionOk;
    var v := DisownNext(w, p);
    if v != w {
      Inside(w, p);
      SameMap(w.sessions, w.daemons[p].pc.session);
      QuietStep(w, v, p, w.daemons[p].pc.session);
    }
  }

  /** Once every tab is disowned, dropping them signals nothing. */
  lemma {:induction false} DisownedSilent(p: Id, tabs: seq<Held>)
    requires Disowned(tabs, |tabs|)
    ensures Signals(p, tabs) == []
  {
    if tabs != [] {
      assert forall i | 0 <= i < |tabs[1..]| :: tabs[1..][i] == tabs[i + 1];
      DisownedSilent(p, tabs[1..]);
    }
  }

  lemma ClearKeeps(w: World, p: Id)
    requires Valid(w)
    ensures Valid(Clear(w, p)) && Clear(w, p).log == w.log
  {
    hide Valid, Owned, Ordered, SessionOk;
    var v := Clear(w, p);
    if Donates(w, p) && w.daemons[p].pc.donor.Disowning? && w.daemons[p].pc.donor.done == |w.daemons[p].tabs| {
      Inside(w, p);
      DisownedSilent(p, w.daemons[p].tabs);
      NoLog(w);
      SameMap(w.sessions, w.daemons[p].pc.session);
      QuietStep(w, v, p, w.daemons[p].pc.session);
    }
  }

  lemma FinishKeeps(w: World, p: Id)
    requires Valid(w)
    ensures Valid(Finish(w, p))
  {
    hide Valid, Owned, Ordered;
    var v := Finish(w, p);
    if v != w {
      Inside(w, p);
      QuietStep(w, v, p, w.daemons[p].pc.session);
    }
  }

  lemma AcceptKeeps(w: World, q: Id, sid: Id)
    requires Valid(w)
    ensures Valid(Accept(w, q, sid))
  {
    hide Owned, Ordered, Valid;
    var v := Accept(w, q, sid);
    if v != w {
      Member(w, q);
      Between(w, sid);
      QuietStep(w, v, q, sid);
    }
  }

  /** What is known of any daemon, and of any session. */
  lemma Member(w: World, p: Id)
    requires Valid(w) && p in w.daemons
    ensures DaemonOk(w.daemons[p], p, w.sessions, w.log, w.streams)
  {
    hide DaemonOk, SessionsOk, LogOk, SupplyOk;
  }

  lemma Between(w: World, sid: Id)
    requires Valid(w) && sid in w.sessions
    ensures SessionOk(w.sessions[sid], sid, w.log, w.streams) && PartnerOk(w.sessions[sid], sid, w.daemons)
  {
    hide SessionOk, PartnerOk, DaemonsOk, LogOk, SupplyOk;
  }

  lemma TakeSnapshotKeeps(w: World, q: Id)
    requires Valid(w)
    ensures Valid(TakeSnapshot(w, q))
  {
    hide Valid, Owned, Stage, SameState, Ordered;
    var v := TakeSnapshot(w, q);
    if v != w {
      Inside(w, q);
      var s := w.sessions[w.daemons[q].pc.session];
      StageOrdered(s.toReceiver[0].snapshot, w.daemons[q].pc.incoming, w.daemons[q]);
      assert s.toReceiver[0] in s.toReceiver;
      QuietStep(w, v, q, w.daemons[q].pc.session);
    }
  }

  lemma SendReadyKeeps(w: World, q: Id)
    requires Valid(w)
    ensures Valid(SendReady(w, q))
  {
    hide Valid, Owned, Ordered, SameState;
    var v := SendReady(w, q);
    if v != w {
      Inside(w, q);
      QuietStep(w, v, q, w.daemons[q].pc.session);
    }
  }

  lemma AdoptKeeps(w: World, q: Id)
    requires Valid(w)
    ensures Valid(Adopt(w, q))
  {
    hide Valid, Owned, Ordered, SessionOk;
    var v := Adopt(w, q);
    if v != w {
      Inside(w, q);
      var a := w.daemons[q].pc.receiver;
      assert a.staged[a.done..] == [a.staged[a.done]] + a.staged[a.done + 1..];
      assert Holdings(v.daemons[q]) == Holdings(w.daemons[q]);
      SameMap(w.sessions, w.daemons[q].pc.session);
      QuietStep(w, v, q, w.daemons[q].pc.session);
    }
  }

  lemma AcknowledgeKeeps(w: World, q: Id)
    requires Valid(w)
    ensures Valid(Acknowledge(w, q))
  {
    hide Valid, Owned;
    var v := Acknowledge(w, q);
    if v != w {
      Inside(w, q);
      var a := w.daemons[q].pc.receiver;
      assert Holdings(v.daemons[q]) == Holdings(w.daemons[q]);
      QuietStep(w, v, q, w.daemons[q].pc.session);
    }
  }

  lemma RejectKeeps(w: World, q: Id)
    requires Valid(w)
    ensures Valid(Reject(w, q))
  {
    hide Valid;
    var v := Reject(w, q);
    if v != w {
      Inside(w, q);
      QuietStep(w, v, q, w.daemons[q].pc.session);
    }
  }

  lemma CrashKeeps(w: World, p: Id)
    requires Valid(w)
    ensures Valid(Crash(w, p))
  {
    hide Keeps, SupplyOk, LogOk, Valid;
    var v := Crash(w, p);
    if p in w.daemons {
      Member(w, p);
      NothingMoves(w, v);
      assert v.daemons.Keys == w.daemons.Keys;
      LogUnchanged(w, v);
      hide Owned;
      DaemonStep(w, v, p);
    }
  }

  lemma LogUnchanged(w: World, v: World)
    requires Valid(w) && v.log == w.log && v.sessions == w.sessions
    ensures LogOk(v) && SupplyOk(w)
  {
    hide DaemonsOk, SessionsOk, Disciplined, OwnerOf;
  }

  // ---- The steps that move authority, and those that end a session ----

  /** Sending C moves exactly the donor's PTYs from it into the session. */
  lemma SentOwners(w: World, v: World, p: Id, tabs: seq<Held>, sid: Id)
    requires Owned(tabs, At(p), w.log, w.streams)
    requires v.log == w.log + [Sent(p, Ptys(tabs), sid)] && v.streams == w.streams
    ensures forall q | q != p :: Keeps(w, v, At(q))
    ensures forall other :: Keeps(w, v, Flying(other))
    ensures Owned(tabs, Flying(sid), v.log, v.streams)
    ensures forall x | OwnerOf(w.log, x) == Nobody :: OwnerOf(v.log, x) == Nobody
  {
    hide OwnerOf;
    OwnedPtys(tabs, At(p), w.log, w.streams);
    forall x
      ensures OwnerOf(v.log, x) == if x in Ptys(tabs) then Flying(sid) else OwnerOf(w.log, x)
    {
      OwnerNext(w.log, Sent(p, Ptys(tabs), sid), x);
    }
    forall i | 0 <= i < |tabs| && tabs[i].pty.Some?
      ensures OwnedPty(tabs[i].pty.value, Flying(sid), v.log, v.streams)
    {
      assert OwnedPty(tabs[i].pty.value, At(p), w.log, w.streams);
    }
  }

  lemma OwnedPtys(tabs: seq<Held>, owner: Owner, log: seq<Event>, streams: map<Id, seq<byte>>)
    requires Owned(tabs, owner, log, streams)
    ensures forall x | x in Ptys(tabs) :: OwnerOf(log, x) == owner && x in streams
    ensures forall i | 0 <= i < |tabs| && tabs[i].pty.Some? :: tabs[i].pty.value.x in Ptys(tabs)
  {
    hide OwnerOf;
    forall x | x in Ptys(tabs)
      ensures OwnerOf(log, x) == owner && x in streams
    {
      var i :| 0 <= i < |tabs| && tabs[i].pty.Some? && tabs[i].pty.value.x == x;
      assert OwnedPty(tabs[i].pty.value, owner, log, streams);
    }
  }

  /** The history grows by an event of one session that this session is not beyond. */
  lemma LogDecides(w: World, v: World, e: Event, sid: Id)
    requires LogOk(w) && sid in w.sessions && sid in v.sessions && v.log == w.log + [e] && Legal(w.log, e)
    requires v.sessions == w.sessions[sid := v.sessions[sid]]
    requires var s, t := w.sessions[sid], v.sessions[sid];
      (s.committed ==> t.committed) && (s.received ==> t.received) && (s.aborted ==> t.aborted)
    requires Recorded(e, v.sessions)
    ensures LogOk(v)
  {
    hide Legal, Disciplined;
    DisciplinedNext(w.log, e);
    forall f | f in v.log
      ensures Recorded(f, v.sessions)
    {
      if f != e {
        assert Recorded(f, w.sessions);
      }
    }
  }

  lemma StillUndecided(w: World, sid: Id)
    requires LogOk(w) && sid in w.sessions
    ensures !w.sessions[sid].committed && !w.sessions[sid].aborted ==> Undecided(w.log, sid)
    ensures !w.sessions[sid].committed ==> forall f | f in w.log && f.Sent? :: f.session != sid
    ensures !w.sessions[sid].received ==> forall f | f in w.log && f.Received? :: f.session != sid
  {
    hide Disciplined;
    forall f | f in w.log
      ensures Recorded(f, w.sessions)
    {
    }
  }

  lemma SendCommitKeeps(w: World, p: Id)
    requires Valid(w)
    ensures Valid(SendCommit(w, p))
  {
    hide SessionsOk, DaemonsOk, Keeps, OwnerOf, LogOk, SupplyOk, Undecided, Owned, Ptys, Ordered, SameState, Disowned;
    var v := SendCommit(w, p);
    if v != w {
      Inside(w, p);
      var d, sid := w.daemons[p], w.daemons[p].pc.session;
      SentOwners(w, v, p, d.tabs, sid);
      StillUndecided(w, sid);
      OwnedPtys(d.tabs, At(p), w.log, w.streams);
      LogDecides(w, v, Sent(p, Ptys(d.tabs), sid), sid);
      SupplyKept(w, v);
      hide Valid;
      CommittedDonor(w, v, p, sid);
      CommittedSession(w, v, p, sid);
      TransferStep(w, v, p, sid);
    }
  }

  lemma CommittedDonor(w: World, v: World, p: Id, sid: Id)
    requires Valid(w) && v == SendCommit(w, p) && v != w && sid == w.daemons[p].pc.session
    ensures p in v.daemons && DaemonOk(v.daemons[p], p, v.sessions, v.log, v.streams)
  {
    hide Valid, Owned, Ordered, SessionOk, PartnerOk;
    Inside(w, p);
    HoldsNothing(At(p), v.log, v.streams, w.daemons[p].nextId);
  }

  lemma HoldsNothing(owner: Owner, log: seq<Event>, streams: map<Id, seq<byte>>, nextId: u32)
    requires nextId > 0
    ensures Owned([], owner, log, streams) && Ordered([], nextId)
  {
  }

  lemma SupplyKept(w: World, v: World)
    requires SupplyOk(w) && v.daemons.Keys == w.daemons.Keys && v.sessions.Keys == w.sessions.Keys && v.streams == w.streams
    requires v.supply == w.supply && forall x | OwnerOf(w.log, x) == Nobody :: OwnerOf(v.log, x) == Nobody
    ensures SupplyOk(v)
  {
    hide OwnerOf;
  }

  lemma CommittedSession(w: World, v: World, p: Id, sid: Id)
    requires Valid(w) && v == SendCommit(w, p) && v != w && sid == w.daemons[p].pc.session
    requires Owned(w.daemons[p].tabs, Flying(sid), v.log, v.streams)
    ensures sid in v.sessions && SessionOk(v.sessions[sid], sid, v.log, v.streams) && PartnerOk(v.sessions[sid], sid, v.daemons)
  {
    hide Owned, Ptys, Ordered, Valid;
    Inside(w, p);
    assert Sent(p, Ptys(w.daemons[p].tabs), sid) in v.log;
  }

  predicate BeforeCommit(w: World, p: Id) {
    Donates(w, p) && (w.daemons[p].pc.donor == Snapshotting || w.daemons[p].pc.donor == AwaitReady || w.daemons[p].pc.donor == Committing)
  }

  /** Giving up keeps every tab as it was. */
  lemma GiveUpKeeps(w: World, p: Id)
    requires Valid(w) && BeforeCommit(w, p)
    ensures Valid(GiveUp(w, p)) && GiveUp(w, p).daemons[p].tabs == w.daemons[p].tabs
  {
    hide SessionsOk, DaemonsOk, Keeps, OwnerOf, LogOk, SupplyOk, Undecided, Owned, Ordered;
    var v, sid := GiveUp(w, p), w.daemons[p].pc.session;
    var e := Aborted(p, sid);
    Inside(w, p);
    StillUndecided(w, sid);
    OwnersSame(w, v, e);
    KeepsAll(w, v);
    LogDecides(w, v, e, sid);
    SupplyKept(w, v);
    OwnedKept(w.daemons[p].tabs, At(p), w, v);
    hide Valid;
    TransferStep(w, v, p, sid);
  }

  lemma KeepsAll(w: World, v: World)
    requires v.streams == w.streams && forall x :: OwnerOf(v.log, x) == OwnerOf(w.log, x)
    ensures forall owner :: Keeps(w, v, owner)
  {
    hide OwnerOf;
  }

  /** Killing a replacement whose session was given up touches nothing anybody owns: it held no tab. */
  lemma KillKeeps(w: World, p: Id, sid: Id)
    requires Valid(w) && sid in w.sessions && w.sessions[sid].spawned && w.sessions[sid].aborted
    ensures Valid(Kill(w, p, sid))
    ensures w.sessions[sid].receiver in w.daemons && Holdings(w.daemons[w.sessions[sid].receiver]) == []
  {
    hide SessionsOk, DaemonsOk, Keeps, OwnerOf, LogOk, SupplyOk, Owned, Ordered;
    var v, q := Kill(w, p, sid), w.sessions[sid].receiver;
    var e := Killed(p, q, sid);
    Between(w, sid);
    Member(w, q);
    StillUndecided(w, sid);
    OwnersSame(w, v, e);
    KeepsAll(w, v);
    SameMap(w.sessions, sid);
    LogDecides(w, v, e, sid);
    SupplyKept(w, v);
    HoldsNothing(At(q), v.log, v.streams, w.daemons[q].nextId);
    hide Valid;
    DaemonStep(w, v, q);
  }

  lemma FailKeeps(w: World, p: Id)
    requires Valid(w)
    ensures Valid(Fail(w, p))
  {
    hide Valid, Kill;
    if BeforeCommit(w, p) {
      GiveUpKeeps(w, p);
      if w.sessions[w.daemons[p].pc.session].spawned {
        KillKeeps(GiveUp(w, p), p, w.daemons[p].pc.session);
      }
    }
  }

  /** Receiving C moves exactly the staged PTYs out of the session, each engine holding all that was ever read. */
  lemma ReceivedOwners(w: World, v: World, q: Id, tabs: seq<Held>, staged: seq<Held>, sent: seq<Held>, sid: Id)
    requires Owned(tabs, At(q), w.log, w.streams) && Owned(sent, Flying(sid), w.log, w.streams) && SameState(staged, sent)
    requires v.log == w.log + [Received(q, Ptys(staged), sid)] && v.streams == w.streams
    ensures Ptys(staged) == Ptys(sent)
    ensures forall p | p != q :: Keeps(w, v, At(p))
    ensures forall other | other != sid :: Keeps(w, v, Flying(other))
    ensures Owned(tabs + staged, At(q), v.log, v.streams)
    ensures forall x | OwnerOf(w.log, x) == Nobody :: OwnerOf(v.log, x) == Nobody
    ensures forall x | x in Ptys(staged) :: OwnerOf(w.log, x) == Flying(sid)
  {
    hide OwnerOf;
    SamePtys(staged, sent);
    OwnedPtys(sent, Flying(sid), w.log, w.streams);
    forall x
      ensures OwnerOf(v.log, x) == if x in Ptys(staged) then At(q) else OwnerOf(w.log, x)
    {
      OwnerNext(w.log, Received(q, Ptys(staged), sid), x);
    }
    OwnedKept(tabs, At(q), w, v);
    StagedOwned(staged, sent, At(q), w, v, sid);
    OwnedJoin(tabs, staged, At(q), w, v, sid, sent);
  }

  lemma SamePtys(a: seq<Held>, b: seq<Held>)
    requires SameState(a, b)
    ensures Ptys(a) == Ptys(b)
  {
    forall x
      ensures x in Ptys(a) <==> x in Ptys(b)
    {
      if x in Ptys(a) {
        var i :| 0 <= i < |a| && a[i].pty.Some? && a[i].pty.value.x == x;
        assert SameTab(a[i], b[i]);
      }
      if x in Ptys(b) {
        var i :| 0 <= i < |b| && b[i].pty.Some? && b[i].pty.value.x == x;
        assert SameTab(a[i], b[i]);
      }
    }
  }

  lemma StagedOwned(staged: seq<Held>, sent: seq<Held>, owner: Owner, w: World, v: World, sid: Id)
    requires SameState(staged, sent) && Owned(sent, Flying(sid), w.log, w.streams) && v.streams == w.streams
    requires forall x | x in Ptys(staged) :: OwnerOf(v.log, x) == owner
    ensures Owned(staged, owner, v.log, v.streams)
  {
    hide OwnerOf;
    forall i | 0 <= i < |staged| && staged[i].pty.Some?
      ensures OwnedPty(staged[i].pty.value, owner, v.log, v.streams)
    {
      assert SameTab(staged[i], sent[i]);
      assert OwnedPty(sent[i].pty.value, Flying(sid), w.log, w.streams);
      assert staged[i].pty.value.x in Ptys(staged);
    }
    forall i, j | 0 <= i < j < |staged| && staged[i].pty.Some? && staged[j].pty.Some?
      ensures staged[i].pty.value.x != staged[j].pty.value.x
    {
      assert SameTab(staged[i], sent[i]) && SameTab(staged[j], sent[j]);
    }
  }

  lemma OwnedJoin(tabs: seq<Held>, staged: seq<Held>, owner: Owner, w: World, v: World, sid: Id, sent: seq<Held>)
    requires Owned(tabs, owner, v.log, v.streams) && Owned(staged, owner, v.log, v.streams)
    requires Owned(tabs, owner, w.log, w.streams) && owner != Flying(sid)
    requires Owned(sent, Flying(sid), w.log, w.streams) && SameState(staged, sent)
    ensures Owned(tabs + staged, owner, v.log, v.streams)
  {
    hide OwnerOf;
    var all := tabs + staged;
    forall i, j | 0 <= i < j < |all| && all[i].pty.Some? && all[j].pty.Some?
      ensures all[i].pty.value.x != all[j].pty.value.x
    {
      if i < |tabs| <= j {
        assert SameTab(staged[j - |tabs|], sent[j - |tabs|]);
        assert OwnedPty(tabs[i].pty.value, owner, w.log, w.streams);
        assert OwnedPty(sent[j - |tabs|].pty.value, Flying(sid), w.log, w.streams);
      }
    }
  }

  lemma TakeCommitKeeps(w: World, q: Id)
    requires Valid(w)
    ensures Valid(TakeCommit(w, q))
  {
    hide Valid, Receipt, Pause;
    if CommitArrived(w, q) {
      ReceiptKeeps(w, q);
      PauseKeeps(Receipt(w, q), w.sessions[w.daemons[q].pc.session].donor);
    }
  }

  lemma PauseKeeps(w: World, p: Id)
    requires Valid(w)
    ensures Valid(Pause(w, p))
  {
    hide Keeps, SupplyOk, LogOk, Valid, Owned, Ordered;
    var v := Pause(w, p);
    if p in w.daemons {
      Member(w, p);
      NothingMoves(w, v);
      assert v.daemons.Keys == w.daemons.Keys;
      LogUnchanged(w, v);
      DaemonStep(w, v, p);
    }
  }

  lemma ReceiptKeeps(w: World, q: Id)
    requires Valid(w) && CommitArrived(w, q)
    ensures Valid(Receipt(w, q))
  {
    hide SessionsOk, DaemonsOk, Keeps, OwnerOf, LogOk, SupplyOk, Owned, Ptys, Ordered, SameState, Undecided, SessionOk, PartnerOk;
    var v := Receipt(w, q);
    Committed(w, q);
    var d, sid := w.daemons[q], w.daemons[q].pc.session;
    var s, staged := w.sessions[sid], d.pc.receiver.staged;
    ReceivedOwners(w, v, q, d.tabs, staged, s.snapshot.value.tabs, sid);
    StillUndecided(w, sid);
    LogDecides(w, v, Received(q, Ptys(staged), sid), sid);
    SupplyKept(w, v);
    assert staged[0..] == staged;
    hide Valid;
    ReceivedSession(w, v, q, sid);
    TransferStep(w, v, q, sid);
  }

  /** When C is at the head of the queue, what it moves is known to be staged here and in flight. */
  lemma Committed(w: World, q: Id)
    requires Valid(w) && CommitArrived(w, q)
    ensures var d, sid := w.daemons[q], w.daemons[q].pc.session;
      var s := w.sessions[sid];
      && s.receiver == q && s.accepted && s.committed && !s.received && s.snapshot.Some? && d.nextId > 0
      && Owned(d.tabs, At(q), w.log, w.streams) && Owned(s.snapshot.value.tabs, Flying(sid), w.log, w.streams)
      && SameState(d.pc.receiver.staged, s.snapshot.value.tabs) && Ordered(d.tabs + d.pc.receiver.staged, d.pc.receiver.saved)
      && Sent(s.donor, Ptys(s.snapshot.value.tabs), sid) in w.log && (d.pc.incoming.Upgrade? ==> s.spawned)
  {
    hide Valid, Owned, Ordered, SameState, Ptys;
    Inside(w, q);
    var s := w.sessions[w.daemons[q].pc.session];
    assert s.toReceiver[0] in s.toReceiver;
  }

  lemma ReceivedSession(w: World, v: World, q: Id, sid: Id)
    requires Valid(w) && CommitArrived(w, q) && v == Receipt(w, q) && sid == w.daemons[q].pc.session
    ensures sid in v.sessions && SessionOk(v.sessions[sid], sid, v.log, v.streams) && PartnerOk(v.sessions[sid], sid, v.daemons)
  {
    hide Valid, Owned, Ordered, SameState, Ptys;
    Inside(w, q);
    var s := w.sessions[sid];
    assert s.toReceiver[0] in s.toReceiver;
  }

  // ---- New daemons and new sessions ----

  lemma AddDaemon(w: World, incoming: Incoming)
    requires Valid(w)
    ensures Valid(PutDaemon(w, w.supply, Daemon(Waiting(incoming), [], 1, false)).(supply := w.supply + 1))
  {
    hide OwnerOf, Owned, Ordered, SessionOk;
    var v := PutDaemon(w, w.supply, Daemon(Waiting(incoming), [], 1, false)).(supply := w.supply + 1);
    HoldsNothing(At(w.supply), v.log, v.streams, 1);
    assert DaemonOk(v.daemons[w.supply], w.supply, v.sessions, v.log, v.streams);
    hide DaemonOk, Disciplined, Recorded;
    assert DaemonsOk(v);
    assert SessionsOk(v);
    assert LogOk(v) && SupplyOk(v);
  }

  predicate FreshSession(s: Session) {
    s.toReceiver == [] && s.snapshot.None? && !s.committed && !s.received && !s.aborted
  }

  lemma PcBeside(d: Daemon, p: Id, sessions: map<Id, Session>, sid: Id, s: Session)
    requires PcOk(d, p, sessions) && sid !in sessions
    ensures PcOk(d, p, sessions[sid := s])
  {
    hide Ordered, SameState, Disowned;
  }

  lemma AddSession(w: World, sid: Id, s: Session, supply: Id)
    requires Valid(w) && sid !in w.sessions && FreshSession(s) && PartnerOk(s, sid, w.daemons) && sid < supply && w.supply <= supply
    ensures Valid(PutSession(w, sid, s).(supply := supply))
  {
    hide OwnerOf, Owned, DaemonOk, PartnerOk, Recorded, Disciplined;
    var v := PutSession(w, sid, s).(supply := supply);
    DaemonsBeside(w, sid, s);
    assert DaemonsOk(v);
    assert SessionOk(s, sid, v.log, v.streams);
    hide SessionOk;
    assert SessionsOk(v);
    assert LogOk(v) by { RecordedBeside(w, sid, s); }
    assert SupplyOk(v);
  }

  lemma RecordedBeside(w: World, sid: Id, s: Session)
    requires LogOk(w) && sid !in w.sessions
    ensures forall e | e in w.log :: Recorded(e, w.sessions[sid := s])
  {
    forall e | e in w.log
      ensures Recorded(e, w.sessions[sid := s])
    {
      assert Recorded(e, w.sessions);
    }
  }

  lemma DaemonsBeside(w: World, sid: Id, s: Session)
    requires Valid(w) && sid !in w.sessions
    ensures forall p | p in w.daemons :: DaemonOk(w.daemons[p], p, w.sessions[sid := s], w.log, w.streams)
  {
    hide Valid, Owned, Ordered, PcOk;
    forall p | p in w.daemons
      ensures DaemonOk(w.daemons[p], p, w.sessions[sid := s], w.log, w.streams)
    {
      Member(w, p);
      PcBeside(w.daemons[p], p, w.sessions, sid, s);
    }
  }

  lemma BeginKeeps(w: World, p: Id, q: Id, spawned: bool, sid: Id)
    requires Valid(w) && Serves(w, p) && sid !in w.sessions && w.supply <= sid + 1 && |w.daemons[p].tabs| <= HANDOFF_MAX_TABS
    requires PartnerOk(Session(p, q, spawned, false, true, true, [], [], None, false, false, false), sid, w.daemons)
    ensures Valid(Begin(w, p, q, spawned, sid))
  {
    hide Valid, Owned, Ordered, PartnerOk;
    var s := Session(p, q, spawned, false, true, true, [], [], None, false, false, false);
    AddSession(w, sid, s, sid + 1);
    var u := PutSession(w, sid, s).(supply := sid + 1);
    var v := Begin(w, p, q, spawned, sid);
    Member(u, p);
    Between(u, sid);
    QuietStep(u, v, p, sid);
  }

  lemma OfferKeeps(w: World, p: Id, q: Id)
    requires Valid(w)
    ensures Valid(Offer(w, p, q))
  {
    hide Valid, Begin;
    if Serves(w, p) && 1 <= |w.daemons[p].tabs| <= HANDOFF_MAX_TABS && q in w.daemons && w.daemons[q].pc != Waiting(Upgrade) {
      SessionKeys(w);
      BeginKeeps(w, p, q, false, w.supply);
    }
  }

  lemma ReplaceKeeps(w: World, p: Id)
    requires Valid(w)
    ensures Valid(Replace(w, p))
  {
    hide Valid;
    if Serves(w, p) && |w.daemons[p].tabs| <= HANDOFF_MAX_TABS {
      var q := w.supply;
      SessionKeys(w);
      AddDaemon(w, Upgrade);
      var u := PutDaemon(w, q, Daemon(Waiting(Upgrade), [], 1, false)).(supply := q + 1);
      BeginKeeps(u, p, q, true, q);
      assert Replace(w, p) == Begin(u, p, q, true, q);
    }
  }

  lemma ActKeeps(w: World, a: Action)
    requires Valid(w)
    ensures Valid(Act(w, a))
  {
    hide Valid, Open, Read, Hangup, Close, Offer, Replace, SendSnapshot, TakeReady, SendCommit, DisownNext, Clear, Finish, Fail,
      Accept, TakeSnapshot, SendReady, TakeCommit, Adopt, Acknowledge, Reject, Crash;
    match a
    case DoOpen(p, terminal, identity) => OpenKeeps(w, p, terminal, identity);
    case DoRead(p, i, bytes) => ReadKeeps(w, p, i, bytes);
    case DoHangup(p, i) => HangupKeeps(w, p, i);
    case DoClose(p, i) => CloseKeeps(w, p, i);
    case DoOffer(p, q) => OfferKeeps(w, p, q);
    case DoReplace(p) => ReplaceKeeps(w, p);
    case DoStartMapped(ids, nextId, pause) => AddDaemon(w, Mapped(ids, nextId, pause));
    case DoSendSnapshot(p) => SendSnapshotKeeps(w, p);
    case DoTakeReady(p) => TakeReadyKeeps(w, p);
    case DoSendCommit(p) => SendCommitKeeps(w, p);
    case DoDisown(p) => DisownNextKeeps(w, p);
    case DoClear(p) => ClearKeeps(w, p);
    case DoFinish(p) => FinishKeeps(w, p);
    case DoFail(p) => FailKeeps(w, p);
    case DoAccept(p, session) => AcceptKeeps(w, p, session);
    case DoTakeSnapshot(p) => TakeSnapshotKeeps(w, p);
    case DoSendReady(p) => SendReadyKeeps(w, p);
    case DoTakeCommit(p) => TakeCommitKeeps(w, p);
    case DoAdopt(p) => AdoptKeeps(w, p);
    case DoAcknowledge(p) => AcknowledgeKeeps(w, p);
    case DoReject(p) => RejectKeeps(w, p);
    case DoCrash(p) => CrashKeeps(w, p);
  }

  lemma {:induction false} ReachedValid(actions: seq<Action>)
    ensures Valid(Reached(actions))
  {
    if actions != [] {
      hide Valid, Act;
      ReachedValid(actions[..|actions| - 1]);
      ActKeeps(Reached(actions[..|actions| - 1]), actions[|actions| - 1]);
    }
  }

  // ---- What every run guarantees ----

  lemma {:induction false} NeverNobodyAgain(log: seq<Event>, n: nat, x: Id)
    requires n <= |log| && OwnerOf(log[..n], x) != Nobody
    ensures OwnerOf(log, x) != Nobody
    decreases |log|
  {
    if n < |log| {
      assert log[..|log| - 1][..n] == log[..n];
      NeverNobodyAgain(log[..|log| - 1], n, x);
    } else {
      assert log[..n] == log;
    }
  }

  lemma DisciplinedPrefix(log: seq<Event>, n: nat)
    requires Disciplined(log) && n <= |log|
    ensures Disciplined(log[..n])
  {
    hide Legal;
    forall i | 0 <= i < n
      ensures Legal(log[..n][..i], log[..n][i])
    {
      assert log[..n][..i] == log[..i];
    }
  }

  /** Authority comes only by opening or by receiving, and after a transfer only by receiving. */
  lemma {:induction false} AuthorityCameFrom(log: seq<Event>, p: Id, x: Id, since: nat)
    requires Disciplined(log) && OwnerOf(log, x) == At(p) && since <= |log|
    requires since > 0 ==> log[since - 1].Sent? && x in log[since - 1].xs
    ensures exists k | since <= k < |log| :: (log[k].Received? && log[k].daemon == p && x in log[k].xs) || (since == 0 && log[k] == Opened(p, x))
    decreases |log|
  {
    hide Legal;
    var last := |log| - 1;
    var e, before := log[last], log[..last];
    assert Legal(log[..last], log[last]);
    DisciplinedPrefix(log, last);
    AuthorityStep(before, e, p, x);
    if 0 < since <= last {
      OwnerNext(log[..since - 1], log[since - 1], x);
      assert log[..since - 1] + [log[since - 1]] == log[..since] == before[..since];
      NeverNobodyAgain(before, since, x);
    }
    if OwnerOf(before, x) == At(p) && since <= last {
      AuthorityCameFrom(before, p, x, since);
      var k :| since <= k < |before| && ((before[k].Received? && before[k].daemon == p && x in before[k].xs) || (since == 0 && before[k] == Opened(p, x)));
      assert log[k] == before[k];
    }
  }

  lemma AuthorityStep(before: seq<Event>, e: Event, p: Id, x: Id)
    requires Legal(before, e) && OwnerAfter(OwnerOf(before, x), e, x) == At(p)
    ensures OwnerOf(before, x) == At(p) || (e.Received? && e.daemon == p && x in e.xs) || (e == Opened(p, x) && OwnerOf(before, x) == Nobody)
  {
  }

  /**
   Exercised authority never overlaps. In every run, if a PTY was part of a transfer whose C was sent, any
   later read or signal of it by anybody follows that daemon's own receipt of a C, after the sending.
   */
  lemma ExerciseFollowsReceipt(actions: seq<Action>, i: nat, j: nat)
    requires var log := Reached(actions).log;
      i < j < |log| && log[i].Sent? && log[j].Exercised? && log[j].x in log[i].xs
    ensures var log := Reached(actions).log;
      exists k | i < k < j :: log[k].Received? && log[k].daemon == log[j].daemon && log[j].x in log[k].xs
  {
    hide Valid, Reached, SupplyOk, DaemonsOk, SessionsOk;
    var log := Reached(actions).log;
    ReachedValid(actions);
    assert Disciplined(log) by { Discipline(Reached(actions)); }
    assert Legal(log[..j], log[j]);
    DisciplinedPrefix(log, j);
    AuthorityCameFrom(log[..j], log[j].daemon, log[j].x, i + 1);
  }

  lemma Discipline(w: World)
    requires Valid(w)
    ensures LogOk(w)
  {
  }

  /** Nobody reads or signals a PTY it neither opened nor received C for. */
  lemma NoEarlyExercise(actions: seq<Action>, j: nat)
    requires var log := Reached(actions).log; j < |log| && log[j].Exercised?
    ensures var log := Reached(actions).log;
      exists k | 0 <= k < j :: log[k] == Opened(log[j].daemon, log[j].x) ||
        (log[k].Received? && log[k].daemon == log[j].daemon && log[j].x in log[k].xs)
  {
    hide Valid, Reached;
    var log := Reached(actions).log;
    ReachedValid(actions);
    assert Disciplined(log) by { Discipline(Reached(actions)); }
    assert Legal(log[..j], log[j]);
    DisciplinedPrefix(log, j);
    AuthorityCameFrom(log[..j], log[j].daemon, log[j].x, 0);
  }

  /**
   All or nothing. A session its donor gave up never commits and is never received; what is received is
   exactly what was sent; and a replacement is only ever killed in a session that never commits.
   */
  lemma AllOrNothing(actions: seq<Action>, e: Event, f: Event)
    requires e in Reached(actions).log && f in Reached(actions).log
    requires e.Sent? || e.Received?
    ensures f.Aborted? || f.Killed? ==> f.session != e.session
    ensures e.Received? && f.Sent? && f.session == e.session ==> f.xs == e.xs
    ensures e.Received? ==> exists g | g in Reached(actions).log :: g.Sent? && g.session == e.session && g.xs == e.xs
  {
    hide Valid, Reached;
    var w := Reached(actions);
    ReachedValid(actions);
    Discipline(w);
    assert Recorded(e, w.sessions) && Recorded(f, w.sessions);
    Between(w, e.session);
    if e.Received? {
      var i :| 0 <= i < |w.log| && w.log[i] == e;
      ReceivedWasSent(w.log, i);
      var g :| g in w.log && g.Sent? && g.session == e.session && g.xs == e.xs;
      if f.Sent? && f.session == e.session {
        SentOnce(w.log, f, g);
      }
    }
  }

  lemma ReceivedWasSent(log: seq<Event>, i: nat)
    requires Disciplined(log) && i < |log| && log[i].Received?
    ensures exists g | g in log :: g.Sent? && g.session == log[i].session && g.xs == log[i].xs
  {
    assert Legal(log[..i], log[i]);
    var g :| g in log[..i] && g.Sent? && g.session == log[i].session && g.xs == log[i].xs;
    assert g in log;
  }

  lemma SentOnce(log: seq<Event>, f: Event, g: Event)
    requires Disciplined(log) && f in log && g in log && f.Sent? && g.Sent? && f.session == g.session
    ensures f == g
  {
    var i :| 0 <= i < |log| && log[i] == f;
    var j :| 0 <= j < |log| && log[j] == g;
    if i != j {
      SentTwice(log, if i < j then i else j, if i < j then j else i);
    }
  }

  lemma SentTwice(log: seq<Event>, i: nat, j: nat)
    requires Disciplined(log) && i < j < |log| && log[i].Sent? && log[j].Sent?
    ensures log[i].session != log[j].session
  {
    assert Legal(log[..j], log[j]);
    assert log[..j][i] == log[i];
  }

  /**
   No output is lost or repeated by a transfer. In every reachable state, what a daemon answers for is
   owned by it alone, and each engine has been fed exactly what anybody ever read from that PTY.
   */
  lemma EngineHasAllOutput(actions: seq<Action>, p: Id, i: nat)
    requires var w := Reached(actions); p in w.daemons && Adoptable(w.daemons[p])
    requires var tabs := Holdings(Reached(actions).daemons[p]); i < |tabs| && tabs[i].pty.Some?
    ensures var w := Reached(actions); var pty := Holdings(w.daemons[p])[i].pty.value;
      OwnerOf(w.log, pty.x) == At(p) && pty.x in w.streams && pty.fed == w.streams[pty.x]
  {
    hide Valid, Reached, OwnerOf;
    ReachedValid(actions);
    Member(Reached(actions), p);
  }

  /** IDs stay nonzero, increasing and below the next one, whatever is opened, closed, appended or replaced. */
  lemma IdsStayOrdered(actions: seq<Action>, p: Id)
    requires p in Reached(actions).daemons
    ensures var d := Reached(actions).daemons[p]; Adoptable(d) && Ordered(Holdings(d), NextOf(d))
  {
    hide Valid, Reached, Ordered;
    ReachedValid(actions);
    Member(Reached(actions), p);
  }

  /**
   A replacement's count and ID checks never refuse its donor's snapshot, and it will have the same IDs and the
   same next ID. Checks of sizes, processes and engine headers are not among what is staged here.
   */
  lemma ReplacementAlwaysStages(actions: seq<Action>, q: Id)
    requires var w := Reached(actions);
      && Receives(w, q) && w.daemons[q].pc.incoming == Upgrade && w.daemons[q].pc.receiver == AwaitSnapshot
      && w.sessions[w.daemons[q].pc.session].toReceiver != [] && w.sessions[w.daemons[q].pc.session].toReceiver[0].H?
    ensures var w := Reached(actions);
      var sn := w.sessions[w.daemons[q].pc.session].toReceiver[0].snapshot;
      var staged := Stage(sn, Upgrade, w.daemons[q]);
      && staged.Some? && sn.nextId == Some(staged.value.1) && |staged.value.0| == |sn.tabs|
      && forall i | 0 <= i < |sn.tabs| :: staged.value.0[i].id == sn.tabs[i].id
  {
    hide Valid, Reached, Stage;
    var w := Reached(actions);
    ReachedValid(actions);
    Inside(w, q);
    var s := w.sessions[w.daemons[q].pc.session];
    assert s.toReceiver[0] in s.toReceiver;
    var sn := s.toReceiver[0].snapshot;
    UpgradeAlwaysStages(Daemon(Serving, sn.tabs, sn.nextId.value, false), w.daemons[q]);
  }

  predicate Early(w: World, p: Id) {
    p in w.daemons && w.daemons[p].pc.Sending? &&
    (w.daemons[p].pc.donor == Snapshotting || w.daemons[p].pc.donor == AwaitReady || w.daemons[p].pc.donor == Committing)
  }

  /** What one step can do to a donor that has not sent C. */
  predicate StillOrSettled(w: World, v: World, p: Id)
    requires Early(w, p)
  {
    && p in v.daemons
    && var d, e, sid := w.daemons[p], v.daemons[p], w.daemons[p].pc.session;
       || e.pc == Dead
       || (e.tabs == d.tabs && e.nextId == d.nextId &&
            (|| (Early(v, p) && e.pc.session == sid)
             || (e.pc == Serving && Aborted(p, sid) in v.log)
             || (e.pc == Sending(sid, Disowning(0)) && Sent(p, Ptys(d.tabs), sid) in v.log)))
  }

  lemma DonorStep(w: World, a: Action, p: Id)
    requires Valid(w) && Early(w, p)
    ensures StillOrSettled(w, Act(w, a), p)
  {
    hide Valid, Act, StillOrSettled, Early;
    Numbered(w, p);
    match a
    case DoFail(_) => FailStep(w, a, p);
    case DoSendCommit(_) => CommitStep(w, a, p);
    case DoOpen(_, _, _) => ServingStep(w, a, p);
    case DoRead(_, _, _) => ServingStep(w, a, p);
    case DoHangup(_, _) => ServingStep(w, a, p);
    case DoClose(_, _) => ServingStep(w, a, p);
    case DoOffer(_, _) => BeginStep(w, a, p);
    case DoReplace(_) => BeginStep(w, a, p);
    case DoStartMapped(_, _, _) => BeginStep(w, a, p);
    case DoSendSnapshot(_) => SendingStep(w, a, p);
    case DoTakeReady(_) => SendingStep(w, a, p);
    case DoDisown(_) => SendingStep(w, a, p);
    case DoClear(_) => SendingStep(w, a, p);
    case DoFinish(_) => SendingStep(w, a, p);
    case DoAccept(_, _) => ReceivingStep(w, a, p);
    case DoTakeSnapshot(_) => ReceivingStep(w, a, p);
    case DoSendReady(_) => ReceivingStep(w, a, p);
    case DoTakeCommit(_) => ReceiptStep(w, a, p);
    case DoAdopt(_) => ReceiptStep(w, a, p);
    case DoAcknowledge(_) => ReceiptStep(w, a, p);
    case DoReject(_) => ReceiptStep(w, a, p);
    case DoCrash(_) => ReceiptStep(w, a, p);
  }

  lemma Numbered(w: World, p: Id)
    requires Valid(w) && Early(w, p)
    ensures p < w.supply
  {
    hide SessionsOk, DaemonsOk, LogOk, OwnerOf;
  }

  lemma FailStep(w: World, a: Action, p: Id)
    requires Early(w, p) && a.DoFail?
    ensures StillOrSettled(w, Act(w, a), p)
  {
    var v := Act(w, a);
    if v != w && a.p == p {
      assert v.log[|w.log|] == Aborted(p, w.daemons[p].pc.session);
    }
  }

  lemma CommitStep(w: World, a: Action, p: Id)
    requires Early(w, p) && a.DoSendCommit?
    ensures StillOrSettled(w, Act(w, a), p)
  {
    hide Ptys;
    var v := Act(w, a);
    if v != w && a.p == p {
      assert v.log[|w.log|] == Sent(p, Ptys(w.daemons[p].tabs), w.daemons[p].pc.session);
    }
  }

  lemma ServingStep(w: World, a: Action, p: Id)
    requires Early(w, p) && (a.DoOpen? || a.DoRead? || a.DoHangup? || a.DoClose?)
    ensures StillOrSettled(w, Act(w, a), p)
  {
    hide Signals;
  }

  lemma BeginStep(w: World, a: Action, p: Id)
    requires Early(w, p) && p < w.supply && (a.DoOffer? || a.DoReplace? || a.DoStartMapped?)
    ensures StillOrSettled(w, Act(w, a), p)
  {
  }

  lemma SendingStep(w: World, a: Action, p: Id)
    requires Early(w, p) && (a.DoSendSnapshot? || a.DoTakeReady? || a.DoDisown? || a.DoClear? || a.DoFinish?)
    ensures StillOrSettled(w, Act(w, a), p)
  {
    hide Signals, AllOpen;
  }

  lemma ReceivingStep(w: World, a: Action, p: Id)
    requires Early(w, p) && (a.DoAccept? || a.DoTakeSnapshot? || a.DoSendReady?)
    ensures StillOrSettled(w, Act(w, a), p)
  {
    hide Stage;
  }

  lemma ReceiptStep(w: World, a: Action, p: Id)
    requires Early(w, p) && (a.DoTakeCommit? || a.DoAdopt? || a.DoAcknowledge? || a.DoReject? || a.DoCrash?)
    ensures StillOrSettled(w, Act(w, a), p)
  {
    hide Ptys;
  }

  /**
   A transfer that fails before C keeps every tab: in every run, a donor that has not sent C stays so with the
   tabs and next ID it had, until it sends C, dies, or gives the session up, and then it serves them again.
   */
  lemma FailureKeepsTabs(actions: seq<Action>, n: nat, p: Id)
    requires n < |actions| && Early(Reached(actions[..n]), p)
    ensures StillOrSettled(Reached(actions[..n]), Reached(actions[..n + 1]), p)
  {
    hide Valid, Act;
    ReachedValid(actions[..n]);
    assert actions[..n + 1][..n] == actions[..n];
    DonorStep(Reached(actions[..n]), actions[n], p);
  }

  // ---- Nothing stands between C and adoption ----

  predicate Adopts(w: World, q: Id) {
    q in w.daemons && w.daemons[q].pc.Receiving? && w.daemons[q].pc.receiver.Adopting? &&
    w.daemons[q].pc.receiver.done <= |w.daemons[q].pc.receiver.staged|
  }

  /** The same holdings, adopted further or completely. */
  predicate AdoptsOn(d: Daemon, e: Daemon) {
    && Adoptable(d) && Adoptable(e) && Holdings(e) == Holdings(d) && NextOf(e) == NextOf(d)
    && (e.pc == Serving || (e.pc.Receiving? && e.pc.receiver.Adopting?))
  }

  /** The snapshot of the session a daemon is receiving in. */
  function Staging(w: World, q: Id): Option<Snapshot> {
    if Receives(w, q) then w.sessions[w.daemons[q].pc.session].snapshot else None
  }

  /** The moment C is consumed, the receiver answers for its own tabs followed by exactly the staged ones. */
  lemma ReceiptAddsStaged(w: World, q: Id)
    requires Valid(w) && CommitArrived(w, q)
    ensures q in TakeCommit(w, q).daemons && Staging(w, q).Some?
    ensures var d, e := w.daemons[q], TakeCommit(w, q).daemons[q];
      && Adoptable(e) && Holdings(e) == d.tabs + d.pc.receiver.staged && NextOf(e) == d.pc.receiver.saved
      && SameState(d.pc.receiver.staged, Staging(w, q).value.tabs)
  {
    hide Valid, SameState, Ordered, Owned, Ptys;
    Committed(w, q);
    var a := w.daemons[q].pc.receiver;
    assert a.staged[0..] == a.staged;
  }

  lemma OwnAdoption(w: World, q: Id)
    requires Adopts(w, q)
    ensures AdoptsOn(w.daemons[q], Adopt(w, q).daemons[q]) && AdoptsOn(w.daemons[q], Acknowledge(w, q).daemons[q])
  {
    var a := w.daemons[q].pc.receiver;
    assert w.daemons[q].tabs + a.staged[|a.staged|..] == w.daemons[q].tabs;
    if a.done < |a.staged| {
      assert a.staged[a.done..] == [a.staged[a.done]] + a.staged[a.done + 1..];
    }
  }

  /** Whatever anybody does, a lost A or a failing donor included, only the receiver's own death stops an adoption. */
  lemma NothingStopsAdoption(w: World, a: Action, q: Id)
    requires Valid(w) && Adopts(w, q) && a != DoCrash(q)
    ensures q in Act(w, a).daemons && AdoptsOn(w.daemons[q], Act(w, a).daemons[q])
  {
    hide Valid, Holdings, NextOf, Adopt, Acknowledge, Fail, TakeCommit;
    assert q < w.supply by { SessionKeys(w); }
    assert AdoptsOn(w.daemons[q], w.daemons[q]);
    match a
    case DoAdopt(p) => AdoptionMoves(w, p, q);
    case DoAcknowledge(p) => AdoptionMoves(w, p, q);
    case DoFail(p) => FailureElsewhere(w, p, q);
    case DoTakeCommit(p) => PausedHolds(w, p, q);
    case _ => OthersAlone(w, a, q);
  }

  lemma AdoptionMoves(w: World, p: Id, q: Id)
    requires Adopts(w, q)
    ensures q in Adopt(w, p).daemons && AdoptsOn(w.daemons[q], Adopt(w, p).daemons[q])
    ensures q in Acknowledge(w, p).daemons && AdoptsOn(w.daemons[q], Acknowledge(w, p).daemons[q])
  {
    if p == q {
      OwnAdoption(w, q);
    }
  }

  lemma FailureElsewhere(w: World, p: Id, q: Id)
    requires Valid(w) && Adopts(w, q)
    ensures q in Fail(w, p).daemons && Fail(w, p).daemons[q] == w.daemons[q]
  {
    hide Valid, Holdings;
    if BeforeCommit(w, p) {
      NotTheVictim(w, p, q);
    }
  }

  lemma NotTheVictim(w: World, p: Id, q: Id)
    requires Valid(w) && Adopts(w, q) && BeforeCommit(w, p)
    ensures w.sessions[w.daemons[p].pc.session].spawned ==> w.sessions[w.daemons[p].pc.session].receiver != q
  {
    hide Valid, Owned, Ordered, SameState;
    Inside(w, p);
    Member(w, q);
  }

  lemma PausedHolds(w: World, p: Id, q: Id)
    requires Adopts(w, q)
    ensures q in TakeCommit(w, p).daemons && AdoptsOn(w.daemons[q], TakeCommit(w, p).daemons[q])
  {
  }

  lemma OthersAlone(w: World, a: Action, q: Id)
    requires Adopts(w, q) && q < w.supply && a != DoCrash(q)
    requires !a.DoAdopt? && !a.DoAcknowledge? && !a.DoFail? && !a.DoTakeCommit?
    ensures q in Act(w, a).daemons && Act(w, a).daemons[q] == w.daemons[q]
  {
    hide Stage, Signals, Ptys, AllOpen, Disowned;
  }

  /** Once every staged tab is in place the receiver serves exactly its old list and the staged tabs, with the saved next ID. */
  lemma AdoptionEnds(w: World, q: Id)
    requires Adopts(w, q) && Receives(w, q) && w.daemons[q].pc.receiver.done == |w.daemons[q].pc.receiver.staged|
    ensures var e := Acknowledge(w, q).daemons[q];
      e.pc == Serving && e.tabs == Holdings(w.daemons[q]) && e.nextId == NextOf(w.daemons[q])
  {
    var a := w.daemons[q].pc.receiver;
    assert w.daemons[q].tabs + a.staged[|a.staged|..] == w.daemons[q].tabs;
  }
}
