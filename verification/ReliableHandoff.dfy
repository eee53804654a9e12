/**
 The hand-off of reliable data messages to a participant that joins while others are publishing: every message is
 added to the room's cache and then broadcast, and at some point the joiner replays the cache and goes live
 (pkg/rtc/room.go, pkg/rtc/participant.go).

 Publishers run concurrently, each one message at a time: cache-add, snapshot of the room's participants (where the
 broadcast may also be suppressed as a repeated user packet), delivery. Cache entries may expire at any time.
 A run is any sequence of events; an event that is not enabled changes nothing.
 */
module ReliableHandoff {
  import opened Common
  import opened JoiningParticipant

  datatype Config = Config(id: ParticipantID, identity: Identity)

  /** A message between cache-add and the end of its broadcast; `included` once the snapshot was taken. */
  datatype Broadcast = Broadcast(m: DataMessage, included: Option<bool>)

  datatype System = System(
    joiner: Joiner,
    inRoom: bool,
    cache: seq<DataMessage>,
    pending: map<ParticipantID, Broadcast>,
    lastSeq: map<ParticipantID, nat>,
    added: set<DataMessage>,          // everything that was ever added to the cache
    written: set<DataMessage>,        // the messages in the joiner's output
    settled: set<DataMessage>,        // broadcast finished
    suppressed: set<DataMessage>,     // broadcast dropped as a repeated user packet
    lost: set<DataMessage>,           // expired from the cache before the replay
    seen: set<DataMessage>,           // passed to the joiner's SendDataMessage
    live: set<DataMessage>,           // ... after the replay
    first: map<ParticipantID, nat>)   // the sequence numbers the replay started from

  datatype Event =
    | Migrate(states: seq<(ParticipantID, nat)>)
    | Join
    | CacheAdd(m: DataMessage)
    | Snapshot(sender: ParticipantID, suppress: bool)
    | Deliver(sender: ParticipantID)
    | Expire(i: nat)
    | Replay

  function Init(): System {
    System(Joiner(map[], map[], false, []), false, [], map[], map[], {}, {}, {}, {}, {}, {}, {}, map[])
  }

  /** A broadcast goes to the identities listed, or to everybody if none is, but not to the sender. */
  predicate IsFor(cfg: Config, m: DataMessage) {
    (m.dest == [] || cfg.identity in m.dest) && m.sender != cfg.id
  }

  /** A publisher only forwards increasing sequence numbers, one broadcast after the other. */
  predicate CanAdd(s: System, m: DataMessage) {
    && m.sender != NO_PARTICIPANT && m.seqNo > 0 && m.sender !in s.pending
    && (m.sender in s.lastSeq ==> s.lastSeq[m.sender] < m.seqNo)
  }

  function AddToCache(s: System, m: DataMessage): System {
    s.(cache := s.cache + [m], added := s.added + {m}, pending := s.pending[m.sender := Broadcast(m, None)],
       lastSeq := s.lastSeq[m.sender := m.seqNo])
  }

  function Output(j: Joiner): set<DataMessage> {
    set o | o in j.out
  }

  /** The broadcast is dropped as a repeated user packet. */
  function Suppress(s: System, p: ParticipantID): System
    requires p in s.pending
  {
    var m := s.pending[p].m;
    s.(pending := s.pending - {p}, settled := s.settled + {m}, suppressed := s.suppressed + {m})
  }

  function TakeSnapshot(cfg: Config, s: System, p: ParticipantID): System
    requires p in s.pending
  {
    var m := s.pending[p].m;
    s.(pending := s.pending[p := Broadcast(m, Some(s.inRoom && IsFor(cfg, m)))])
  }

  function DeliverTo(s: System, p: ParticipantID): System
    requires p in s.pending && s.pending[p].included.Some?
  {
    var m := s.pending[p].m;
    var s' := s.(pending := s.pending - {p}, settled := s.settled + {m});
    if !s.pending[p].included.value then s'
    else s'.(joiner := AfterSend(s.joiner, m), written := Output(AfterSend(s.joiner, m)), seen := s.seen + {m},
             live := if s.joiner.canWrite then s.live + {m} else s.live)
  }

  function ReplayCache(cfg: Config, s: System): System {
    var j := AfterReplay(s.joiner, s.cache, cfg.identity);
    s.(joiner := j, written := Output(j), first := s.joiner.firstSeqs)
  }

  function ExpireAt(s: System, i: nat): System
    requires i < |s.cache|
  {
    s.(cache := s.cache[..i] + s.cache[i + 1..], lost := if s.joiner.canWrite then s.lost else s.lost + {s.cache[i]})
  }

  function TakeStates(s: System, states: seq<(ParticipantID, nat)>): System {
    if s.joiner.canWrite then s
    else s.(joiner := s.joiner.(firstSeqs := WithReceiveState(s.joiner.firstSeqs, states)))
  }

  function Step(cfg: Config, s: System, e: Event): System {
    match e
    case Migrate(states) => TakeStates(s, states)
    case Join => s.(inRoom := true)
    case CacheAdd(m) => if CanAdd(s, m) then AddToCache(s, m) else s
    case Snapshot(p, suppress) =>
      if !(p in s.pending && s.pending[p].included.None?) then s
      else if suppress then Suppress(s, p) else TakeSnapshot(cfg, s, p)
    case Deliver(p) => if p in s.pending && s.pending[p].included.Some? then DeliverTo(s, p) else s
    case Expire(i) => if i < |s.cache| then ExpireAt(s, i) else s
    case Replay => if s.inRoom && !s.joiner.canWrite then ReplayCache(cfg, s) else s
  }

  function Exec(cfg: Config, es: seq<Event>): System {
    if es == [] then Init() else Step(cfg, Exec(cfg, es[..|es| - 1]), es[|es| - 1])
  }

  // ---------- what every step keeps ----------

  ghost predicate IsPending(s: System, m: DataMessage) {
    m.sender in s.pending && s.pending[m.sender].m == m
  }

  /** Its broadcast is finished or still going on. */
  ghost predicate Accounted(s: System, m: DataMessage) {
    m in s.settled || IsPending(s, m)
  }

  ghost predicate PendingOk(s: System, p: ParticipantID)
    requires p in s.pending
  {
    var m := s.pending[p].m;
    m.sender == p && m in s.added && m !in s.settled && p in s.lastSeq && s.lastSeq[p] == m.seqNo
  }

  /** The room: publishers, cache and pending broadcasts. */
  ghost predicate RoomInv(s: System) {
    && Ordered(s.cache) && (forall m <- s.cache :: m in s.added)
    && (forall m <- s.added :: m.sender in s.lastSeq && m.seqNo <= s.lastSeq[m.sender])
    && (forall a <- s.added, b <- s.added :: a.sender == b.sender && a.seqNo == b.seqNo ==> a == b)
    && (forall p <- s.pending :: PendingOk(s, p))
    && (forall m {:trigger Accounted(s, m)} :: m in s.added ==> Accounted(s, m))
    && s.settled <= s.added
  }

  /** A snapshot that left the joiner out of a message meant for it was taken before anything was delivered to it. */
  ghost predicate SnapshotOk(cfg: Config, s: System, p: ParticipantID)
    requires p in s.pending
  {
    var b := s.pending[p];
    && (b.included == Some(true) ==> s.inRoom && IsFor(cfg, b.m))
    && (b.included == Some(false) && IsFor(cfg, b.m) ==> forall o <- s.seen :: o.sender != p)
  }

  /** Deliveries: once a sender's message has been delivered, all its later ones are. */
  ghost predicate SeenInv(cfg: Config, s: System) {
    && s.live <= s.seen <= s.settled && s.suppressed <= s.settled && s.seen !! s.suppressed
    && (forall m <- s.seen :: IsFor(cfg, m))
    && (!s.inRoom ==> s.seen == {}) && (!s.joiner.canWrite ==> s.live == {}) && (s.joiner.canWrite ==> s.inRoom)
    && (forall p <- s.pending :: SnapshotOk(cfg, s, p))
    && (forall o <- s.seen, m <- s.settled ::
          o.sender == m.sender && o.seqNo < m.seqNo && IsFor(cfg, m) && m !in s.suppressed ==> m in s.seen)
    && (forall o <- s.live, m <- s.seen :: o.sender == m.sender && o.seqNo < m.seqNo ==> m in s.live)
  }

  /** `lastWritten` bounds what was written of a sender; a pending message within the bound has been written. */
  ghost predicate BoundOk(s: System) {
    var last := s.joiner.lastWritten;
    && (forall o {:trigger o in s.written} :: o in s.written && o.sender in last ==> o.seqNo <= last[o.sender])
    && (forall p <- last :: p in s.lastSeq && last[p] <= s.lastSeq[p])
    && (forall p {:trigger p in s.pending} ::
          p in s.pending && p in last && s.pending[p].m.seqNo <= last[p] ==> s.pending[p].m in s.written)
    && (forall o, p {:trigger o in s.written, p in s.pending} ::
          o in s.written && p in s.pending && o.sender == p && p !in last ==> o.seqNo < s.pending[p].m.seqNo)
  }

  /** Output: addressed messages, live or wanted by the replay. */
  ghost predicate OutInv(cfg: Config, s: System) {
    && (!s.joiner.canWrite ==> s.joiner.out == [] && s.written == {} && s.joiner.lastWritten == map[] && s.live == {})
    && (forall o <- s.written :: o in s.added && AddressedTo(o, cfg.identity) && (o in s.live || Wanted(o, s.first)))
    && s.live <= s.written
  }

  ghost predicate OrderInv(s: System) {
    Ordered(s.joiner.out) && s.written == Output(s.joiner)
  }

  /** What the replay owes: everything from `first` on that the cache still held. */
  ghost predicate Owed(cfg: Config, s: System, m: DataMessage) {
    m in s.added && m !in s.lost && m !in s.suppressed && IsFor(cfg, m) && Wanted(m, s.first)
  }

  ghost predicate WrittenOrComing(s: System, m: DataMessage) {
    m in s.written || (IsPending(s, m) && s.pending[m.sender].included != Some(false))
  }

  ghost predicate CompleteInv(cfg: Config, s: System) {
    if s.joiner.canWrite then
      forall m {:trigger Owed(cfg, s, m)} :: Owed(cfg, s, m) ==> WrittenOrComing(s, m)
    else
      forall m <- s.added :: m in s.cache || m in s.lost
  }

  ghost predicate Inv(cfg: Config, s: System) {
    RoomInv(s) && SeenInv(cfg, s) && OrderInv(s) && BoundOk(s) && OutInv(cfg, s) && CompleteInv(cfg, s)
  }

  // Room

  lemma AddKeepsRoom(s: System, m: DataMessage)
    requires RoomInv(s) && CanAdd(s, m)
    ensures RoomInv(AddToCache(s, m)) && m !in s.added
  {
    var s' := AddToCache(s, m);
    OrderedOneMore(s.cache, m);
    forall p <- s'.pending ensures PendingOk(s', p) { assert p != m.sender ==> PendingOk(s, p); }
    forall k <- s'.added ensures Accounted(s', k) { assert k != m ==> Accounted(s, k); }
  }

  lemma SettleKeepsRoom(s: System, p: ParticipantID)
    requires RoomInv(s) && p in s.pending
    ensures RoomInv(s.(pending := s.pending - {p}, settled := s.settled + {s.pending[p].m}))
  {
    var s' := s.(pending := s.pending - {p}, settled := s.settled + {s.pending[p].m});
    assert PendingOk(s, p);
    forall q <- s'.pending ensures PendingOk(s', q) { assert PendingOk(s, q); }
    forall k <- s'.added ensures Accounted(s', k) { assert Accounted(s, k); }
  }

  lemma SnapshotKeepsRoom(cfg: Config, s: System, p: ParticipantID)
    requires RoomInv(s) && p in s.pending
    ensures RoomInv(TakeSnapshot(cfg, s, p))
  {
    var s' := TakeSnapshot(cfg, s, p);
    forall q <- s'.pending ensures PendingOk(s', q) { assert PendingOk(s, q); }
    forall k <- s'.added ensures Accounted(s', k) { assert Accounted(s, k); }
  }

  lemma SameRoom(s: System, s': System)
    requires RoomInv(s)
    requires s'.added == s.added && s'.pending == s.pending && s'.lastSeq == s.lastSeq && s'.settled == s.settled
    requires Ordered(s'.cache) && forall m <- s'.cache :: m in s.cache
    ensures RoomInv(s')
  {
    forall p <- s'.pending ensures PendingOk(s', p) { assert PendingOk(s, p); }
    forall k <- s'.added ensures Accounted(s', k) { assert Accounted(s, k); }
  }

  lemma OrderedWithout(q: seq<DataMessage>, i: nat)
    requires Ordered(q) && i < |q|
    ensures Ordered(q[..i] + q[i + 1..]) && forall m <- q[..i] + q[i + 1..] :: m in q
  {
  }

  lemma SuppressKeepsRoom(s: System, p: ParticipantID)
    requires RoomInv(s) && p in s.pending
    ensures RoomInv(Suppress(s, p))
  {
    SettleKeepsRoom(s, p);
    SameRoom(s.(pending := s.pending - {p}, settled := s.settled + {s.pending[p].m}), Suppress(s, p));
  }

  lemma DeliverKeepsRoom(s: System, p: ParticipantID)
    requires RoomInv(s) && p in s.pending && s.pending[p].included.Some?
    ensures RoomInv(DeliverTo(s, p))
  {
    SettleKeepsRoom(s, p);
    SameRoom(s.(pending := s.pending - {p}, settled := s.settled + {s.pending[p].m}), DeliverTo(s, p));
  }

  lemma ExpireKeepsRoom(s: System, i: nat)
    requires RoomInv(s) && i < |s.cache|
    ensures RoomInv(ExpireAt(s, i))
  {
    OrderedWithout(s.cache, i);
    SameRoom(s, ExpireAt(s, i));
  }

  // Deliveries

  lemma OtherKeepsSeen(cfg: Config, s: System, s': System)
    requires SeenInv(cfg, s)
    requires s'.live == s.live && s'.seen == s.seen && s'.settled == s.settled && s'.suppressed == s.suppressed
    requires s'.pending == s.pending && (s.inRoom ==> s'.inRoom)
    requires (s.joiner.canWrite ==> s'.joiner.canWrite) && (s'.joiner.canWrite ==> s'.inRoom)
    ensures SeenInv(cfg, s')
  {
    forall q <- s'.pending ensures SnapshotOk(cfg, s', q) { assert SnapshotOk(cfg, s, q); }
  }

  lemma AddKeepsSeen(cfg: Config, s: System, m: DataMessage)
    requires RoomInv(s) && SeenInv(cfg, s) && CanAdd(s, m)
    ensures SeenInv(cfg, AddToCache(s, m))
  {
    var s' := AddToCache(s, m);
    forall p <- s'.pending ensures SnapshotOk(cfg, s', p) { assert p != m.sender ==> SnapshotOk(cfg, s, p); }
  }

  lemma SuppressKeepsSeen(cfg: Config, s: System, p: ParticipantID)
    requires SeenInv(cfg, s) && p in s.pending && PendingOk(s, p)
    ensures SeenInv(cfg, Suppress(s, p))
  {
    var s' := Suppress(s, p);
    forall q <- s'.pending ensures SnapshotOk(cfg, s', q) { assert SnapshotOk(cfg, s, q); }
  }

  lemma SnapshotKeepsSeen(cfg: Config, s: System, p: ParticipantID)
    requires SeenInv(cfg, s) && p in s.pending && PendingOk(s, p)
    ensures SeenInv(cfg, TakeSnapshot(cfg, s, p))
  {
    var s' := TakeSnapshot(cfg, s, p);
    forall q <- s'.pending ensures SnapshotOk(cfg, s', q) { assert q != p ==> SnapshotOk(cfg, s, q); }
  }

  lemma SkipKeepsSeen(cfg: Config, s: System, p: ParticipantID)
    requires SeenInv(cfg, s) && p in s.pending && PendingOk(s, p) && s.pending[p].included == Some(false)
    ensures SeenInv(cfg, DeliverTo(s, p))
  {
    var s' := DeliverTo(s, p);
    assert SnapshotOk(cfg, s, p);
    forall q <- s'.pending ensures SnapshotOk(cfg, s', q) { assert SnapshotOk(cfg, s, q); }
  }

  lemma DeliverKeepsSeen(cfg: Config, s: System, p: ParticipantID)
    requires SeenInv(cfg, s) && p in s.pending && PendingOk(s, p) && s.pending[p].included == Some(true)
    requires forall k <- s.settled :: k.sender == p ==> k.seqNo <= s.pending[p].m.seqNo
    ensures SeenInv(cfg, DeliverTo(s, p))
  {
    var s' := DeliverTo(s, p);
    assert SnapshotOk(cfg, s, p);
    forall q <- s'.pending ensures SnapshotOk(cfg, s', q) { assert SnapshotOk(cfg, s, q); }
  }

  // Output

  /** A delivery after the replay: the message is written now, in order, or it was written before. */
  lemma DeliverWrites(s: System, p: ParticipantID)
    requires OrderInv(s) && BoundOk(s) && p in s.pending && PendingOk(s, p) && s.joiner.canWrite
    requires s.pending[p].included == Some(true)
    ensures OrderInv(DeliverTo(s, p)) && DeliverTo(s, p).written == s.written + {s.pending[p].m}
  {
    var m := s.pending[p].m;
    if !(p in s.joiner.lastWritten && m.seqNo <= s.joiner.lastWritten[p]) {
      forall o <- s.joiner.out ensures o.sender == p ==> o.seqNo < m.seqNo { assert o in s.written; }
      OrderedOneMore(s.joiner.out, m);
      assert (s.joiner.out + [m])[|s.joiner.out|] == m;
    }
  }

  lemma DeliverKeepsBound(s: System, p: ParticipantID)
    requires OrderInv(s) && BoundOk(s) && p in s.pending && PendingOk(s, p) && s.joiner.canWrite
    requires s.pending[p].included == Some(true)
    ensures BoundOk(DeliverTo(s, p))
  {
    DeliverWrites(s, p);
  }

  lemma ReplayWrites(cfg: Config, s: System)
    requires Ordered(s.cache) && s.joiner.out == [] && s.joiner.lastWritten == map[]
    ensures var s' := ReplayCache(cfg, s);
            && OrderInv(s') && LastWrittenOk(s'.joiner) && (forall o <- s'.written :: o.sender in s'.joiner.lastWritten)
            && forall m ::
                 m in s'.written <==>
                 m in s.cache && Wanted(m, s.joiner.firstSeqs) && AddressedTo(m, cfg.identity)
  {
    var msgs := Selected(s.cache, s.joiner.firstSeqs);
    SelectedIsWanted(s.cache, s.joiner.firstSeqs);
    ReplayWritesAddressed(s.joiner, msgs, cfg.identity);
    ReplayTracksLastWritten(s.joiner, msgs, cfg.identity);
    var j1, j := AfterReplayOfAll(s.joiner, msgs, cfg.identity), ReplayCache(cfg, s).joiner;
    assert j.out == j1.out && j.lastWritten == j1.lastWritten;
    assert LastWrittenOk(j1) ==> LastWrittenOk(j);
  }

  lemma ReplayKeepsBound(cfg: Config, s: System)
    requires RoomInv(s) && OutInv(cfg, s) && !s.joiner.canWrite
    ensures BoundOk(ReplayCache(cfg, s))
  {
    ReplayWrites(cfg, s);
    var s' := ReplayCache(cfg, s);
    var j := s'.joiner;
    forall o <- s'.written ensures o.seqNo <= j.lastWritten[o.sender] { assert o in j.out; }
    forall p <- j.lastWritten ensures p in s.lastSeq && j.lastWritten[p] <= s.lastSeq[p]
      ensures p in s.pending && s.pending[p].m.seqNo <= j.lastWritten[p] ==> s.pending[p].m in s'.written {
      var o :| o in j.out && o.sender == p && o.seqNo == j.lastWritten[p];
      assert o in s'.written && o in s.added;
      if p in s.pending { assert PendingOk(s, p); }
    }
  }

  lemma AddKeepsBound(cfg: Config, s: System, m: DataMessage)
    requires RoomInv(s) && BoundOk(s) && OutInv(cfg, s) && CanAdd(s, m)
    ensures BoundOk(AddToCache(s, m))
  {
  }

  lemma FewerPendingKeepsBound(s: System, s': System)
    requires BoundOk(s)
    requires s'.joiner.lastWritten == s.joiner.lastWritten && s'.written == s.written && s'.lastSeq == s.lastSeq
    requires forall p <- s'.pending :: p in s.pending && s'.pending[p].m == s.pending[p].m
    ensures BoundOk(s')
  {
  }

  lemma SameOut(cfg: Config, s: System, s': System)
    requires OutInv(cfg, s) && s.added <= s'.added
    requires s'.written == s.written && s'.live == s.live && s'.first == s.first
    requires s'.joiner == s.joiner.(firstSeqs := s'.joiner.firstSeqs)
    ensures OutInv(cfg, s')
  {
  }

  lemma DeliverKeepsOut(cfg: Config, s: System, p: ParticipantID)
    requires OutInv(cfg, s) && p in s.pending && PendingOk(s, p) && SnapshotOk(cfg, s, p) && s.joiner.canWrite
    requires s.pending[p].included == Some(true) && DeliverTo(s, p).written == s.written + {s.pending[p].m}
    ensures OutInv(cfg, DeliverTo(s, p))
  {
  }

  lemma ReplayKeepsOut(cfg: Config, s: System)
    requires RoomInv(s) && OutInv(cfg, s) && !s.joiner.canWrite
    ensures OutInv(cfg, ReplayCache(cfg, s))
  {
    ReplayWrites(cfg, s);
  }

  // Completeness

  lemma AddKeepsComplete(cfg: Config, s: System, m: DataMessage)
    requires RoomInv(s) && CompleteInv(cfg, s) && CanAdd(s, m)
    ensures CompleteInv(cfg, AddToCache(s, m))
  {
    var s' := AddToCache(s, m);
    forall k | s.joiner.canWrite && Owed(cfg, s', k) && k != m ensures WrittenOrComing(s', k) {
      assert Owed(cfg, s, k);
    }
  }

  lemma DeliverKeepsComplete(cfg: Config, s: System, p: ParticipantID)
    requires CompleteInv(cfg, s) && p in s.pending && s.pending[p].included.Some?
    requires s.joiner.canWrite && s.pending[p].included.value ==>
               DeliverTo(s, p).written == s.written + {s.pending[p].m}
    ensures CompleteInv(cfg, DeliverTo(s, p))
  {
    var s' := DeliverTo(s, p);
    forall k | s.joiner.canWrite && Owed(cfg, s', k) ensures WrittenOrComing(s', k) { assert Owed(cfg, s, k); }
  }

  lemma SuppressKeepsComplete(cfg: Config, s: System, p: ParticipantID)
    requires CompleteInv(cfg, s) && p in s.pending
    ensures CompleteInv(cfg, Suppress(s, p))
  {
    var s' := Suppress(s, p);
    forall k | s.joiner.canWrite && Owed(cfg, s', k) ensures WrittenOrComing(s', k) { assert Owed(cfg, s, k); }
  }

  lemma SnapshotKeepsComplete(cfg: Config, s: System, p: ParticipantID)
    requires CompleteInv(cfg, s) && p in s.pending && (s.joiner.canWrite ==> s.inRoom)
    ensures CompleteInv(cfg, TakeSnapshot(cfg, s, p))
  {
    var s' := TakeSnapshot(cfg, s, p);
    forall k | s.joiner.canWrite && Owed(cfg, s', k) ensures WrittenOrComing(s', k) { assert Owed(cfg, s, k); }
  }

  lemma ReplayKeepsComplete(cfg: Config, s: System)
    requires RoomInv(s) && OutInv(cfg, s) && CompleteInv(cfg, s) && !s.joiner.canWrite
    ensures CompleteInv(cfg, ReplayCache(cfg, s))
  {
    ReplayWrites(cfg, s);
  }

  lemma OtherKeepsComplete(cfg: Config, s: System, s': System)
    requires CompleteInv(cfg, s) && s'.joiner.canWrite == s.joiner.canWrite
    requires s'.(inRoom := s.inRoom, joiner := s.joiner) == s
    ensures CompleteInv(cfg, s')
  {
    forall k | s.joiner.canWrite && Owed(cfg, s', k) ensures WrittenOrComing(s', k) { assert Owed(cfg, s, k); }
  }

  lemma ExpireKeepsComplete(cfg: Config, s: System, i: nat)
    requires CompleteInv(cfg, s) && i < |s.cache|
    ensures CompleteInv(cfg, ExpireAt(s, i))
  {
    var s' := ExpireAt(s, i);
    if s.joiner.canWrite {
      forall k | Owed(cfg, s', k) ensures WrittenOrComing(s', k) { assert Owed(cfg, s, k); }
    } else {
      assert s.cache == s.cache[..i] + [s.cache[i]] + s.cache[i + 1..];
    }
  }

  // Every event

  lemma AddKeepsInv(cfg: Config, s: System, m: DataMessage)
    requires Inv(cfg, s) && CanAdd(s, m)
    ensures Inv(cfg, AddToCache(s, m))
  {
    AddKeepsRoom(s, m);
    AddKeepsSeen(cfg, s, m);
    AddKeepsBound(cfg, s, m);
    SameOut(cfg, s, AddToCache(s, m));
    AddKeepsComplete(cfg, s, m);
  }

  lemma SuppressKeepsInv(cfg: Config, s: System, p: ParticipantID)
    requires Inv(cfg, s) && p in s.pending
    ensures Inv(cfg, Suppress(s, p))
  {
    assert PendingOk(s, p);
    SuppressKeepsRoom(s, p);
    SuppressKeepsSeen(cfg, s, p);
    FewerPendingKeepsBound(s, Suppress(s, p));
    SameOut(cfg, s, Suppress(s, p));
    SuppressKeepsComplete(cfg, s, p);
  }

  lemma SnapshotKeepsInv(cfg: Config, s: System, p: ParticipantID)
    requires Inv(cfg, s) && p in s.pending
    ensures Inv(cfg, TakeSnapshot(cfg, s, p))
  {
    assert PendingOk(s, p);
    SnapshotKeepsRoom(cfg, s, p);
    SnapshotKeepsSeen(cfg, s, p);
    FewerPendingKeepsBound(s, TakeSnapshot(cfg, s, p));
    SameOut(cfg, s, TakeSnapshot(cfg, s, p));
    SnapshotKeepsComplete(cfg, s, p);
  }

  lemma DeliverKeepsInv(cfg: Config, s: System, p: ParticipantID)
    requires Inv(cfg, s) && p in s.pending && s.pending[p].included.Some?
    ensures Inv(cfg, DeliverTo(s, p))
  {
    assert PendingOk(s, p) && SnapshotOk(cfg, s, p);
    DeliverKeepsRoom(s, p);
    assert forall k <- s.settled :: k in s.added;
    if s.pending[p].included.value { DeliverKeepsSeen(cfg, s, p); } else { SkipKeepsSeen(cfg, s, p); }
    if s.joiner.canWrite && s.pending[p].included.value {
      DeliverWrites(s, p);
      DeliverKeepsBound(s, p);
      DeliverKeepsOut(cfg, s, p);
    } else {
      FewerPendingKeepsBound(s, DeliverTo(s, p));
      SameOut(cfg, s, DeliverTo(s, p));
    }
    DeliverKeepsComplete(cfg, s, p);
  }

  lemma ReplayKeepsInv(cfg: Config, s: System)
    requires Inv(cfg, s) && s.inRoom && !s.joiner.canWrite
    ensures Inv(cfg, ReplayCache(cfg, s))
  {
    SameRoom(s, ReplayCache(cfg, s));
    OtherKeepsSeen(cfg, s, ReplayCache(cfg, s));
    ReplayWrites(cfg, s);
    ReplayKeepsBound(cfg, s);
    ReplayKeepsOut(cfg, s);
    ReplayKeepsComplete(cfg, s);
  }

  lemma ExpireKeepsInv(cfg: Config, s: System, i: nat)
    requires Inv(cfg, s) && i < |s.cache|
    ensures Inv(cfg, ExpireAt(s, i))
  {
    ExpireKeepsRoom(s, i);
    OtherKeepsSeen(cfg, s, ExpireAt(s, i));
    FewerPendingKeepsBound(s, ExpireAt(s, i));
    SameOut(cfg, s, ExpireAt(s, i));
    ExpireKeepsComplete(cfg, s, i);
  }

  /** A step that changes nothing but the first sequence numbers and whether the joiner is in the room. */
  lemma OtherKeepsInv(cfg: Config, s: System, s': System)
    requires Inv(cfg, s) && (s.inRoom ==> s'.inRoom)
    requires s' == s.(inRoom := s'.inRoom, joiner := s.joiner.(firstSeqs := s'.joiner.firstSeqs))
    ensures Inv(cfg, s')
  {
    SameRoom(s, s');
    OtherKeepsSeen(cfg, s, s');
    FewerPendingKeepsBound(s, s');
    SameOut(cfg, s, s');
    OtherKeepsComplete(cfg, s, s');
  }

  lemma SnapshotStepKeepsInv(cfg: Config, s: System, p: ParticipantID, suppress: bool)
    requires Inv(cfg, s)
    ensures Inv(cfg, Step(cfg, s, Snapshot(p, suppress)))
  {
    if !(p in s.pending && s.pending[p].included.None?) {
      assert Step(cfg, s, Snapshot(p, suppress)) == s;
    } else if suppress {
      SuppressKeepsInv(cfg, s, p);
      assert Step(cfg, s, Snapshot(p, suppress)) == Suppress(s, p);
    } else {
      SnapshotKeepsInv(cfg, s, p);
      assert Step(cfg, s, Snapshot(p, suppress)) == TakeSnapshot(cfg, s, p);
    }
  }

  lemma DeliverStepKeepsInv(cfg: Config, s: System, p: ParticipantID)
    requires Inv(cfg, s)
    ensures Inv(cfg, Step(cfg, s, Deliver(p)))
  {
    if p in s.pending && s.pending[p].included.Some? {
      DeliverKeepsInv(cfg, s, p);
      assert Step(cfg, s, Deliver(p)) == DeliverTo(s, p);
    } else {
      assert Step(cfg, s, Deliver(p)) == s;
    }
  }

  lemma AddStepKeepsInv(cfg: Config, s: System, m: DataMessage)
    requires Inv(cfg, s)
    ensures Inv(cfg, Step(cfg, s, CacheAdd(m)))
  {
    if CanAdd(s, m) {
      AddKeepsInv(cfg, s, m);
      assert Step(cfg, s, CacheAdd(m)) == AddToCache(s, m);
    } else {
      assert Step(cfg, s, CacheAdd(m)) == s;
    }
  }

  lemma StepKeepsInv(cfg: Config, s: System, e: Event)
    requires Inv(cfg, s)
    ensures Inv(cfg, Step(cfg, s, e))
  {
    match e
    case Migrate(states) => OtherKeepsInv(cfg, s, TakeStates(s, states));
    case Join => OtherKeepsInv(cfg, s, s.(inRoom := true));
    case CacheAdd(m) => AddStepKeepsInv(cfg, s, m);
    case Snapshot(p, suppress) => SnapshotStepKeepsInv(cfg, s, p, suppress);
    case Deliver(p) => DeliverStepKeepsInv(cfg, s, p);
    case Expire(i) =>
      if i < |s.cache| {
        ExpireKeepsInv(cfg, s, i);
        assert Step(cfg, s, e) == ExpireAt(s, i);
      } else {
        assert Step(cfg, s, e) == s;
      }
    case Replay =>
      if s.inRoom && !s.joiner.canWrite {
        ReplayKeepsInv(cfg, s);
        assert Step(cfg, s, e) == ReplayCache(cfg, s);
      } else {
        assert Step(cfg, s, e) == s;
      }
  }

  lemma {:induction false} ExecKeepsInv(cfg: Config, es: seq<Event>)
    ensures Inv(cfg, Exec(cfg, es))
    decreases |es|
  {
    if es != [] {
      ExecKeepsInv(cfg, es[..|es| - 1]);
      StepKeepsInv(cfg, Exec(cfg, es[..|es| - 1]), es[|es| - 1]);
    }
  }

  // ---------- the hand-off over whole runs ----------

  /** Never a duplicate, never a reordering, nothing that is not addressed to the joiner: even when entries expire. */
  lemma NeverDuplicatedOrReordered(cfg: Config, es: seq<Event>)
    ensures var s := Exec(cfg, es);
            && Ordered(s.joiner.out)
            && (forall i, k :: 0 <= i < k < |s.joiner.out| ==> s.joiner.out[i] != s.joiner.out[k])
            && s.written == Output(s.joiner)
            && (forall o <- s.written :: o in s.added && (o.dest == [] || cfg.identity in o.dest))
  {
    ExecKeepsInv(cfg, es);
  }

  /**
   After the replay, a finished message is written if the replay started at or before it and its cache entry had
   not expired by then, or if it was delivered after the replay.
   */
  lemma NothingIsMissed(cfg: Config, es: seq<Event>, m: DataMessage)
    requires var s := Exec(cfg, es);
             && s.joiner.canWrite && m in s.settled && IsFor(cfg, m) && m !in s.suppressed
             && ((m !in s.lost && Wanted(m, s.first)) || m in s.live)
    ensures m in Exec(cfg, es).written
  {
    ExecKeepsInv(cfg, es);
    var s := Exec(cfg, es);
    if m !in s.live {
      assert Owed(cfg, s, m);
      assert IsPending(s, m) ==> PendingOk(s, m.sender);
    }
  }

  /** From the first written message of a sender on there is no gap, except for entries that had expired. */
  lemma NoGap(cfg: Config, es: seq<Event>, o: DataMessage, m: DataMessage)
    requires var s := Exec(cfg, es);
             && o in s.written && m in s.settled && m.sender == o.sender && o.seqNo < m.seqNo
             && IsFor(cfg, m) && m !in s.suppressed && (m !in s.lost || o in s.live)
    ensures m in Exec(cfg, es).written
  {
    ExecKeepsInv(cfg, es);
    var s := Exec(cfg, es);
    if o in s.live {
      assert m in s.seen && m in s.live;
    } else {
      NothingIsMissed(cfg, es, m);
    }
  }

  /** What a replay in this state writes. */
  ghost predicate Replayed(cfg: Config, before: System, m: DataMessage) {
    m in before.cache && Wanted(m, before.joiner.firstSeqs) && AddressedTo(m, cfg.identity)
  }

  lemma LiveDeliveryAdds(cfg: Config, s: System, p: ParticipantID)
    requires Inv(cfg, s) && s.joiner.canWrite && p in s.pending && s.pending[p].included.Some?
    ensures var s' := DeliverTo(s, p);
            s'.joiner.canWrite && s'.first == s.first && s.live <= s'.live && s'.written == s.written + s'.live
  {
    assert PendingOk(s, p);
    if s.pending[p].included.value { DeliverWrites(s, p); }
  }

  /** After the replay nothing is written but live deliveries. */
  lemma OnlyLiveIsAdded(cfg: Config, s: System, e: Event)
    requires Inv(cfg, s) && s.joiner.canWrite
    ensures var s' := Step(cfg, s, e);
            s'.joiner.canWrite && s'.first == s.first && s.live <= s'.live && s'.written == s.written + s'.live
  {
    if e.Deliver? && e.sender in s.pending && s.pending[e.sender].included.Some? {
      LiveDeliveryAdds(cfg, s, e.sender);
    }
  }

  lemma StepAfterReplay(cfg: Config, es: seq<Event>, e: Event)
    requires Exec(cfg, es).joiner.canWrite
    ensures var s, s' := Exec(cfg, es), Step(cfg, Exec(cfg, es), e);
            s'.first == s.first && s.live <= s'.live && s'.written == s.written + s'.live
  {
    ExecKeepsInv(cfg, es);
    OnlyLiveIsAdded(cfg, Exec(cfg, es), e);
  }

  lemma NothingBeforeReplay(cfg: Config, es: seq<Event>)
    requires !Exec(cfg, es).joiner.canWrite
    ensures var s := Exec(cfg, es);
            Ordered(s.cache) && s.joiner.out == [] && s.joiner.lastWritten == map[] && s.live == {}
  {
    ExecKeepsInv(cfg, es);
  }

  lemma OnlyReplayStartsWriting(cfg: Config, s: System, e: Event)
    requires !s.joiner.canWrite && Step(cfg, s, e).joiner.canWrite
    ensures e.Replay? && s.inRoom && Step(cfg, s, e) == ReplayCache(cfg, s)
  {
  }

  lemma StepIsReplay(cfg: Config, es: seq<Event>, e: Event)
    requires !Exec(cfg, es).joiner.canWrite && Step(cfg, Exec(cfg, es), e).joiner.canWrite
    ensures e.Replay? && Exec(cfg, es).inRoom
    ensures var s, s' := Exec(cfg, es), Step(cfg, Exec(cfg, es), e);
            && s'.first == s.joiner.firstSeqs && s'.live == {}
            && forall m :: m in s'.written <==> Replayed(cfg, s, m)
  {
    NothingBeforeReplay(cfg, es);
    OnlyReplayStartsWriting(cfg, Exec(cfg, es), e);
    ReplayWrites(cfg, Exec(cfg, es));
  }

  /** The output is exactly what one replay wrote, and what was delivered live after it. */
  lemma {:induction false} WrittenIsReplayedOrLive(cfg: Config, es: seq<Event>) returns (k: nat)
    requires Exec(cfg, es).joiner.canWrite
    ensures k < |es| && es[k].Replay? && Exec(cfg, es[..k]).inRoom && !Exec(cfg, es[..k]).joiner.canWrite
    ensures Exec(cfg, es).first == Exec(cfg, es[..k]).joiner.firstSeqs
    ensures forall m ::
              m in Exec(cfg, es).written <==> m in Exec(cfg, es).live || Replayed(cfg, Exec(cfg, es[..k]), m)
    decreases |es|
  {
    var init, e := es[..|es| - 1], es[|es| - 1];
    if Exec(cfg, init).joiner.canWrite {
      k := WrittenIsReplayedOrLive(cfg, init);
      StepAfterReplay(cfg, init, e);
      assert init[..k] == es[..k];
    } else {
      k := |es| - 1;
      StepIsReplay(cfg, init, e);
    }
  }

  /**
   A message whose broadcast was dropped as a repeated user packet is written if and only if the replay found it: still
   cached then, at or past the number the replay started from, and addressed to the joiner.
   */
  lemma SuppressedIsWrittenIff(cfg: Config, es: seq<Event>, m: DataMessage) returns (k: nat)
    requires Exec(cfg, es).joiner.canWrite && m in Exec(cfg, es).suppressed
    ensures k < |es| && es[k].Replay? && !Exec(cfg, es[..k]).joiner.canWrite
    ensures m in Exec(cfg, es).written <==>
              m in Exec(cfg, es[..k]).cache && Wanted(m, Exec(cfg, es).first) && AddressedTo(m, cfg.identity)
  {
    k := WrittenIsReplayedOrLive(cfg, es);
    ExecKeepsInv(cfg, es);
  }

  /** Without migration the replay starts, for each sender, at a message the joiner saw: it wants all it saw. */
  ghost predicate FirstInv(s: System) {
    && (forall p <- s.joiner.firstSeqs :: p in s.lastSeq && s.joiner.firstSeqs[p] <= s.lastSeq[p])
    && (forall m <- s.seen ::
          if s.joiner.canWrite then m in s.live || Wanted(m, s.first) else Wanted(m, s.joiner.firstSeqs))
  }

  lemma DeliverKeepsFirst(s: System, p: ParticipantID)
    requires FirstInv(s) && p in s.pending && s.pending[p].included.Some? && PendingOk(s, p)
    ensures FirstInv(DeliverTo(s, p))
  {
  }

  lemma StepKeepsFirst(cfg: Config, s: System, e: Event)
    requires FirstInv(s) && !e.Migrate? && (forall p <- s.pending :: PendingOk(s, p))
    requires !s.joiner.canWrite ==> s.live == {}
    ensures FirstInv(Step(cfg, s, e))
  {
    match e
    case Deliver(p) => if p in s.pending && s.pending[p].included.Some? { DeliverKeepsFirst(s, p); }
    case _ =>
  }

  lemma {:induction false} ExecKeepsFirst(cfg: Config, es: seq<Event>)
    requires forall e <- es :: !e.Migrate?
    ensures FirstInv(Exec(cfg, es))
    decreases |es|
  {
    if es != [] {
      ExecKeepsFirst(cfg, es[..|es| - 1]);
      ExecKeepsInv(cfg, es[..|es| - 1]);
      StepKeepsFirst(cfg, Exec(cfg, es[..|es| - 1]), es[|es| - 1]);
    }
  }

  /** A joiner that did not migrate writes every message it was ever offered, unless its cache entry expired first. */
  lemma EverythingSeenIsWritten(cfg: Config, es: seq<Event>, m: DataMessage)
    requires forall e <- es :: !e.Migrate?
    requires var s := Exec(cfg, es); s.joiner.canWrite && m in s.seen && (m !in s.lost || m in s.live)
    ensures m in Exec(cfg, es).written
  {
    ExecKeepsFirst(cfg, es);
    ExecKeepsInv(cfg, es);
    NothingIsMissed(cfg, es, m);
  }

  lemma ExecOneMore(cfg: Config, es: seq<Event>, e: Event)
    ensures Exec(cfg, es + [e]) == Step(cfg, Exec(cfg, es), e)
  {
    assert (es + [e])[..|es|] == es;
  }

  lemma FirstIsSeen(cfg: Config, a: DataMessage) returns (es: seq<Event>)
    requires IsFor(cfg, a) && a.sender != NO_PARTICIPANT && 0 < a.seqNo
    ensures Exec(cfg, es) == Init().(
              joiner := Joiner(map[a.sender := a.seqNo], map[], false, []), inRoom := true, cache := [a],
              lastSeq := map[a.sender := a.seqNo], added := {a}, settled := {a}, seen := {a})
  {
    var p := a.sender;
    ExecOneMore(cfg, [], Join);
    var e1 := [] + [Join];
    ExecOneMore(cfg, e1, CacheAdd(a));
    var e2 := e1 + [CacheAdd(a)];
    var s2 := Init().(inRoom := true, cache := [a], lastSeq := map[p := a.seqNo], added := {a},
                      pending := map[p := Broadcast(a, None)]);
    assert Exec(cfg, e2) == s2;
    ExecOneMore(cfg, e2, Snapshot(p, false));
    var e3 := e2 + [Snapshot(p, false)];
    assert Exec(cfg, e3) == s2.(pending := map[p := Broadcast(a, Some(true))]);
    ExecOneMore(cfg, e3, Deliver(p));
    es := e3 + [Deliver(p)];
    assert Output(Joiner(map[p := a.seqNo], map[], false, [])) == {};
  }

  lemma ReplayWritesSuppressed(cfg: Config, s: System, m: DataMessage)
    requires s.inRoom && !s.joiner.canWrite && s.joiner.out == [] && s.joiner.lastWritten == map[] && CanAdd(s, m)
    requires Ordered(s.cache + [m]) && AddressedTo(m, cfg.identity) && Wanted(m, s.joiner.firstSeqs)
    ensures var s' := Step(cfg, Step(cfg, Step(cfg, s, CacheAdd(m)), Snapshot(m.sender, true)), Replay);
            m in s'.suppressed && m in s'.written
  {
    var s1 := AddToCache(s, m);
    var s2 := Suppress(s1, m.sender);
    assert Step(cfg, s, CacheAdd(m)) == s1 && Step(cfg, s1, Snapshot(m.sender, true)) == s2;
    assert s2.cache[|s.cache|] == m;
    assert Step(cfg, s2, Replay) == ReplayCache(cfg, s2);
    ReplayWrites(cfg, s2);
  }

  /** A broadcast dropped as a repeated user packet is in the cache all the same, and a replay may write it. */
  lemma SuppressedMayBeReplayed(cfg: Config, a: DataMessage, m: DataMessage) returns (es: seq<Event>)
    requires IsFor(cfg, a) && IsFor(cfg, m) && a.sender == m.sender != NO_PARTICIPANT && 0 < a.seqNo < m.seqNo
    ensures m in Exec(cfg, es).suppressed && m in Exec(cfg, es).written
  {
    var before := FirstIsSeen(cfg, a);
    ReplayWritesSuppressed(cfg, Exec(cfg, before), m);
    ExecOneMore(cfg, before, CacheAdd(m));
    ExecOneMore(cfg, before + [CacheAdd(m)], Snapshot(m.sender, true));
    ExecOneMore(cfg, before + [CacheAdd(m)] + [Snapshot(m.sender, true)], Replay);
    es := before + [CacheAdd(m)] + [Snapshot(m.sender, true)] + [Replay];
  }
}
