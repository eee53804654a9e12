/**
 Batched participant updates (pkg/rtc/room.go): updates are sent at once or cached per identity until the next flush,
 and a newer session of an identity displaces an older one.
 */
module ParticipantUpdates {
  import opened Common
  import StringOrder

  type Identity = string

  /** What tells two sessions of an identity apart, and which is the newer. */
  datatype Session = Session(joinedAt: int, joinedAtMs: int, sid: string)

  datatype ConnectionState = Joining | Joined | Active | Disconnected

  datatype ParticipantInfo = ParticipantInfo(
    identity: Identity, session: Session, version: nat, isPublisher: bool, state: ConnectionState)

  datatype Update = Update(info: ParticipantInfo, synthesizedDisconnect: bool, closeReason: nat)

  function CompareParticipant(s1: Session, s2: Session): int {
    if s1.joinedAt != s2.joinedAt then
      if s1.joinedAt < s2.joinedAt then -1 else 1
    else if s1.joinedAtMs != 0 && s2.joinedAtMs != 0 && s1.joinedAtMs != s2.joinedAtMs then
      if s1.joinedAtMs < s2.joinedAtMs then -1 else 1
    else if s1.sid != s2.sid then
      if StringOrder.Less(s1.sid, s2.sid) then -1 else 1
    else 0
  }

  predicate NotNewer(s1: Session, s2: Session) {
    CompareParticipant(s1, s2) <= 0
  }

  /** Swapping the sessions turns the outcome around; only equal sessions tie, if both have JoinedAtMs. */
  lemma CompareIsAntisymmetric(s1: Session, s2: Session)
    ensures CompareParticipant(s2, s1) == -CompareParticipant(s1, s2)
    ensures s1.joinedAtMs != 0 && s2.joinedAtMs != 0 && CompareParticipant(s1, s2) == 0 ==> s1 == s2
  {
    StringOrder.LessIsTotal(s1.sid, s2.sid);
  }

  /** With both join times set, in seconds and milliseconds, whoever joined later is newer, then the greater id. */
  lemma NewerIffJoinedLater(s1: Session, s2: Session)
    requires s1.joinedAtMs > 0 && s1.joinedAt == s1.joinedAtMs / 1000
    requires s2.joinedAtMs > 0 && s2.joinedAt == s2.joinedAtMs / 1000
    ensures CompareParticipant(s1, s2) < 0 <==>
              s1.joinedAtMs < s2.joinedAtMs || (s1.joinedAtMs == s2.joinedAtMs && StringOrder.Less(s1.sid, s2.sid))
  {
    StringOrder.LessIsTotal(s1.sid, s2.sid);
  }

  predicate JustOneUnset(a: bool, b: bool, c: bool) {
    (!a && b && c) || (a && !b && c) || (a && b && !c)
  }

  lemma CompareIsTransitive(s1: Session, s2: Session, s3: Session)
    requires NotNewer(s1, s2) && NotNewer(s2, s3)
    requires !JustOneUnset(s1.joinedAtMs != 0, s2.joinedAtMs != 0, s3.joinedAtMs != 0)
    ensures NotNewer(s1, s3)
  {
    if StringOrder.Less(s1.sid, s2.sid) && StringOrder.Less(s2.sid, s3.sid) {
      StringOrder.LessIsTransitive(s1.sid, s2.sid, s3.sid);
    }
    StringOrder.LessIsTotal(s1.sid, s3.sid);
    StringOrder.LessIsTotal(s1.sid, s2.sid);
    StringOrder.LessIsTotal(s2.sid, s3.sid);
  }

  /** Three sessions with JoinedAtMs set or not, as said, are always ordered transitively. */
  ghost predicate TransitiveWhen(set1: bool, set2: bool, set3: bool) {
    forall s1: Session, s2: Session, s3: Session
      {:trigger NotNewer(s1, s2), NotNewer(s2, s3)}
      | (s1.joinedAtMs != 0) == set1 && (s2.joinedAtMs != 0) == set2 && (s3.joinedAtMs != 0) == set3 ::
      NotNewer(s1, s2) && NotNewer(s2, s3) ==> NotNewer(s1, s3)
  }

  /** The comparison is transitive except among three sessions of which exactly one has no JoinedAtMs. */
  lemma TransitiveUnlessJustOneUnset(set1: bool, set2: bool, set3: bool)
    ensures TransitiveWhen(set1, set2, set3) <==> !JustOneUnset(set1, set2, set3)
  {
    if JustOneUnset(set1, set2, set3) {
      // the two sessions that are set are ordered by it, against the order of their ids
      var s1, s2, s3 :=
        if !set1 then Session(0, 0, "b") else if !set2 then Session(0, 2, "a") else Session(0, 1, "c"),
        if !set1 then Session(0, 1, "c") else if !set2 then Session(0, 0, "b") else Session(0, 2, "a"),
        if !set1 then Session(0, 2, "a") else if !set2 then Session(0, 1, "c") else Session(0, 0, "b");
      assert NotNewer(s1, s2) && NotNewer(s2, s3) && !NotNewer(s1, s3);
    } else {
      forall s1: Session, s2: Session, s3: Session
        | && (s1.joinedAtMs != 0) == set1 && (s2.joinedAtMs != 0) == set2 && (s3.joinedAtMs != 0) == set3
          && NotNewer(s1, s2) && NotNewer(s2, s3)
        ensures NotNewer(s1, s3)
      {
        CompareIsTransitive(s1, s2, s3);
      }
    }
  }

  type Cache = map<Identity, Update>

  function Superseded(u: Update): Update {
    u.(info := u.info.(state := Disconnected), synthesizedDisconnect := true)
  }

  datatype Verdict = Drop | Take(displaces: bool)

  /** What happens to an update: dropped as out of date, or taken, then possibly displacing the cached older session. */
  function Judge(pi: ParticipantInfo, existingParticipant: Option<Session>, cache: Cache): Verdict {
    if pi.identity in cache then
      var cached := cache[pi.identity].info;
      if pi.session.sid == cached.session.sid then (if pi.version < cached.version then Drop else Take(false))
      else if CompareParticipant(cached.session, pi.session) < 0 then Take(true)
      else Drop
    else if existingParticipant.Some? && CompareParticipant(existingParticipant.value, pi.session) > 0 then Drop
    else Take(false)
  }

  function Pushed(
    pi: ParticipantInfo, closeReason: nat, isImmediate: bool, existingParticipant: Option<Session>, cache: Cache)
    : (seq<Update>, Cache)
  {
    match Judge(pi, existingParticipant, cache)
    case Drop => ([], cache)
    case Take(displaces) =>
      var update := Update(pi, false, closeReason);
      if displaces then ([Superseded(cache[pi.identity]), update], cache - {pi.identity})
      else if isImmediate || pi.isPublisher then ([update], cache - {pi.identity})
      else ([], cache[pi.identity := update])
  }

  /** A way to list all that is cached. */
  ghost predicate Lists(order: seq<Identity>, cache: Cache) {
    && (forall i, k :: 0 <= i < k < |order| ==> order[i] != order[k])
    && (forall id :: id in order <==> id in cache)
  }

  function Listed(order: seq<Identity>, cache: Cache): seq<Update> {
    if order == [] then []
    else Listed(order[..|order| - 1], cache) +
         (if order[|order| - 1] in cache then [cache[order[|order| - 1]]] else [])
  }

  /** Who is in the room under an identity. */
  function Present(participants: map<Identity, Session>, id: Identity): Option<Session> {
    if id in participants then Some(participants[id]) else None
  }

  function AfterJoin(participants: map<Identity, Session>, id: Identity, session: Session): map<Identity, Session> {
    if id in participants then participants else participants[id := session]
  }

  /** An empty `sid` removes whichever session is there. */
  function AfterRemove(participants: map<Identity, Session>, id: Identity, sid: string): map<Identity, Session> {
    if id !in participants || (sid != "" && participants[id].sid != sid) then participants
    else participants - {id}
  }

  class RoomUpdates {
    var participants: map<Identity, Session>
    var batchedUpdates: Cache

    constructor ()
      ensures participants == map[] && batchedUpdates == map[]
    {
      participants, batchedUpdates := map[], map[];
    }

    method Join(id: Identity, session: Session) returns (joined: bool)
      modifies this`participants
      ensures participants == AfterJoin(old(participants), id, session) && joined == (id !in old(participants))
    {
      if id in participants {
        return false;
      }
      participants := participants[id := session];
      return true;
    }

    method RemoveParticipant(id: Identity, sid: string)
      modifies this`participants
      ensures participants == AfterRemove(old(participants), id, sid)
    {
      if id !in participants {
        return;
      }
      if sid != "" && participants[id].sid != sid {
        return;
      }
      participants := participants - {id};
    }

    /** The locked section of broadcastParticipantState. */
    method BroadcastParticipantState(pi: ParticipantInfo, closeReason: nat, immediate: bool)
      returns (updates: seq<Update>)
      modifies this`batchedUpdates
      ensures (updates, batchedUpdates) ==
              Pushed(pi, closeReason, immediate, Present(participants, pi.identity), old(batchedUpdates))
    {
      var existing := if pi.identity in participants then Some(participants[pi.identity]) else None;
      updates := PushAndDequeueUpdates(pi, closeReason, immediate, existing);
    }

    method PushAndDequeueUpdates(
      pi: ParticipantInfo, closeReason: nat, isImmediate: bool, existingParticipant: Option<Session>)
      returns (updates: seq<Update>)
      modifies this`batchedUpdates
      ensures (updates, batchedUpdates) ==
              Pushed(pi, closeReason, isImmediate, existingParticipant, old(batchedUpdates))
    {
      updates := [];
      var shouldSend := isImmediate || pi.isPublisher;
      if pi.identity in batchedUpdates {
        var existing := batchedUpdates[pi.identity];
        if pi.session.sid == existing.info.session.sid {
          if pi.version < existing.info.version {
            return [];
          }
        } else if CompareParticipant(existing.info.session, pi.session) < 0 {
          shouldSend := true;
          existing := Update(existing.info.(state := Disconnected), true, existing.closeReason);
          updates := updates + [existing];
        } else {
          return [];
        }
      } else if existingParticipant.Some? {
        if CompareParticipant(existingParticipant.value, pi.session) > 0 {
          return [];
        }
      }
      if shouldSend {
        batchedUpdates := batchedUpdates - {pi.identity};
        updates := updates + [Update(pi, false, closeReason)];
      } else {
        batchedUpdates := batchedUpdates[pi.identity := Update(pi, false, closeReason)];
      }
      assert shouldSend && |updates| == 1 ==> updates == [Update(pi, false, closeReason)];
      assert |updates| == 2 ==> updates == [updates[0], updates[1]];
    }

    /** The flush of changeUpdateWorker: everything cached, in whatever order the map yields it. */
    method Flush() returns (updates: seq<Update>, ghost order: seq<Identity>)
      modifies this`batchedUpdates
      ensures batchedUpdates == map[]
      ensures Lists(order, old(batchedUpdates)) && updates == Listed(order, old(batchedUpdates))
    {
      var updatesMap := batchedUpdates;
      batchedUpdates := map[];
      updates, order := [], [];
      var left := updatesMap.Keys;
      while left != {}
        invariant left <= updatesMap.Keys && forall id :: id in order <==> id in updatesMap.Keys - left
        invariant forall i, k :: 0 <= i < k < |order| ==> order[i] != order[k]
        invariant updates == Listed(order, updatesMap)
        decreases left
      {
        var id :| id in left;
        left := left - {id};
        assert id !in order;
        assert (order + [id])[..|order|] == order;
        order := order + [id];
        updates := updates + [updatesMap[id]];
      }
    }
  }

  // ---------- whole runs ----------

  /** `newest` is the last session that joined under each identity, `sent` everything announced, in order. */
  datatype Room = Room(
    participants: map<Identity, Session>, newest: map<Identity, Session>, cache: Cache, sent: seq<Update>)

  datatype Event =
    | Join(id: Identity, session: Session)
    | Remove(id: Identity, sid: string)
    | Push(pi: ParticipantInfo, closeReason: nat, isImmediate: bool)
    | Flush(order: seq<Identity>)

  function JudgeIn(room: Room, pi: ParticipantInfo): Verdict {
    Judge(pi, Present(room.participants, pi.identity), room.cache)
  }

  function Step(room: Room, e: Event): Room {
    match e
    case Join(id, session) =>
      room.(participants := AfterJoin(room.participants, id, session),
            newest := if id in room.participants then room.newest else room.newest[id := session])
    case Remove(id, sid) => room.(participants := AfterRemove(room.participants, id, sid))
    case Push(pi, closeReason, isImmediate) =>
      var (updates, cache) :=
        Pushed(pi, closeReason, isImmediate, Present(room.participants, pi.identity), room.cache);
      room.(cache := cache, sent := room.sent + updates)
    case Flush(order) => room.(cache := map[], sent := room.sent + Listed(order, room.cache))
  }

  function Init(): Room {
    Room(map[], map[], map[], [])
  }

  function Exec(es: seq<Event>): Room {
    if es == [] then Init() else Step(Exec(es[..|es| - 1]), es[|es| - 1])
  }

  /** A session is the same in all its updates, and JoinedAtMs is set. */
  predicate Steady(sessions: string -> Session, s: Session) {
    s == sessions(s.sid) && s.joinedAtMs != 0
  }

  /**
   Sessions join an identity in the order of their join times, and updates are about sessions that have joined, at any
   time since, also after they have left; a flush lists what is cached.
   */
  ghost predicate Proper(sessions: string -> Session, room: Room, e: Event) {
    match e
    case Join(id, session) =>
      Steady(sessions, session) && (id in room.newest ==> CompareParticipant(room.newest[id], session) < 0)
    case Remove(_, _) => true
    case Push(pi, _, _) =>
      && Steady(sessions, pi.session)
      && pi.identity in room.newest && NotNewer(pi.session, room.newest[pi.identity])
    case Flush(order) => Lists(order, room.cache)
  }

  /** The session has joined under the identity, or is older than one that has. */
  ghost predicate Joined(sessions: string -> Session, room: Room, id: Identity, s: Session) {
    Steady(sessions, s) && id in room.newest && NotNewer(s, room.newest[id])
  }

  /** The room map holds the newest sessions; what is cached or sent is about sessions that have joined. */
  ghost predicate RoomInv(sessions: string -> Session, room: Room) {
    && (forall id <- room.participants :: id in room.newest && room.participants[id] == room.newest[id])
    && (forall id <- room.newest :: Steady(sessions, room.newest[id]))
    && (forall id <- room.cache :: room.cache[id].info.identity == id && !room.cache[id].synthesizedDisconnect
                                   && Joined(sessions, room, id, room.cache[id].info.session))
    && (forall u <- room.sent :: Joined(sessions, room, u.info.identity, u.info.session))
  }

  /** The update is about another identity, or of a session no newer. */
  predicate Follows(info: ParticipantInfo, earlier: Update) {
    earlier.info.identity == info.identity ==> NotNewer(earlier.info.session, info.session)
  }

  ghost predicate NoneNewer(sent: seq<Update>, info: ParticipantInfo) {
    forall i {:trigger Follows(info, sent[i])} :: 0 <= i < |sent| ==> Follows(info, sent[i])
  }

  /** Per identity, the sessions sent never go backwards. */
  ghost predicate InSequence(sent: seq<Update>) {
    forall i, k {:trigger Follows(sent[k].info, sent[i])} :: 0 <= i < k < |sent| ==> Follows(sent[k].info, sent[i])
  }

  /** And the one cached, if any, will not either. */
  ghost predicate InOrder(room: Room) {
    InSequence(room.sent) && forall id <- room.cache :: NoneNewer(room.sent, room.cache[id].info)
  }

  /** The last session announced for an identity. */
  function LastSent(sent: seq<Update>, id: Identity): Option<Session> {
    if sent == [] then None
    else if sent[|sent| - 1].info.identity == id then Some(sent[|sent| - 1].info.session)
    else LastSent(sent[..|sent| - 1], id)
  }

  /**
   A late update: nobody is in the room under the identity, nothing of it is cached, and the session is older than the
   one last announced.
   */
  predicate Late(room: Room, e: Event) {
    && e.Push? && e.pi.identity !in room.participants && e.pi.identity !in room.cache
    && var last := LastSent(room.sent, e.pi.identity);
       last.Some? && CompareParticipant(e.pi.session, last.value) < 0
  }

  /** Of announcements in sequence the last is the newest. */
  lemma {:induction false} LastIsNewest(sessions: string -> Session, sent: seq<Update>, info: ParticipantInfo)
    requires InSequence(sent) && Steady(sessions, info.session)
    requires forall u <- sent :: Steady(sessions, u.info.session)
    ensures var last := LastSent(sent, info.identity);
            NoneNewer(sent, info) <==> last.None? || NotNewer(last.value, info.session)
    decreases |sent|
  {
    if sent != [] {
      var init, u := sent[..|sent| - 1], sent[|sent| - 1];
      assert sent == init + [u];
      assert InSequence(init) by {
        forall i, k | 0 <= i < k < |init| ensures Follows(init[k].info, init[i]) {
          assert Follows(sent[k].info, sent[i]);
        }
      }
      if u.info.identity != info.identity {
        LastIsNewest(sessions, init, info);
        assert Follows(info, u);
        forall i | 0 <= i < |init| ensures Follows(info, sent[i]) == Follows(info, init[i]) {}
      } else if NotNewer(u.info.session, info.session) {
        forall i | 0 <= i < |sent| ensures Follows(info, sent[i]) {
          if i < |init| && sent[i].info.identity == info.identity {
            assert Follows(u.info, sent[i]) && sent[i] in sent;
            CompareIsTransitive(sent[i].info.session, u.info.session, info.session);
          }
        }
      } else {
        assert !Follows(info, sent[|init|]);
      }
    }
  }

  lemma SameSessionFollows(sent: seq<Update>, info: ParticipantInfo, other: ParticipantInfo)
    requires info.identity == other.identity && info.session == other.session
    ensures NoneNewer(sent, info) == NoneNewer(sent, other)
  {
    forall i | 0 <= i < |sent| ensures Follows(info, sent[i]) == Follows(other, sent[i]) {}
  }

  /** A session that is at least as new as one nothing announced is newer than. */
  lemma NewerFollows(sessions: string -> Session, sent: seq<Update>, info: ParticipantInfo, pi: ParticipantInfo)
    requires NoneNewer(sent, info) && pi.identity == info.identity && NotNewer(info.session, pi.session)
    requires Steady(sessions, info.session) && Steady(sessions, pi.session)
    requires forall u <- sent :: Steady(sessions, u.info.session)
    ensures NoneNewer(sent, pi)
  {
    forall i | 0 <= i < |sent| ensures Follows(pi, sent[i]) {
      assert Follows(info, sent[i]) && sent[i] in sent;
      if sent[i].info.identity == pi.identity {
        CompareIsTransitive(sent[i].info.session, info.session, pi.session);
      }
    }
  }

  /** Whoever is in the room is as new as all that was announced. */
  lemma PresentIsNewest(sessions: string -> Session, room: Room, pi: ParticipantInfo)
    requires RoomInv(sessions, room) && pi.identity in room.participants
    ensures NoneNewer(room.sent, pi.(session := room.participants[pi.identity]))
  {
    var info := pi.(session := room.participants[pi.identity]);
    forall i | 0 <= i < |room.sent| ensures Follows(info, room.sent[i]) { assert room.sent[i] in room.sent; }
  }

  /** A push that is taken is not older than what was announced, exactly unless it is late. */
  lemma TakenIsOldIff(sessions: string -> Session, room: Room, e: Event)
    requires RoomInv(sessions, room) && Proper(sessions, room, e) && InOrder(room)
    requires e.Push? && JudgeIn(room, e.pi).Take?
    ensures NoneNewer(room.sent, e.pi) <==> !Late(room, e)
  {
    var id := e.pi.identity;
    if id in room.cache {
      NewerFollows(sessions, room.sent, room.cache[id].info, e.pi);
    } else if id in room.participants {
      PresentIsNewest(sessions, room, e.pi);
      NewerFollows(sessions, room.sent, e.pi.(session := room.participants[id]), e.pi);
    } else {
      LastIsNewest(sessions, room.sent, e.pi);
      if LastSent(room.sent, id).Some? { CompareIsAntisymmetric(e.pi.session, LastSent(room.sent, id).value); }
    }
  }

  lemma SentOneMore(sent: seq<Update>, u: Update)
    requires InSequence(sent) && NoneNewer(sent, u.info)
    ensures InSequence(sent + [u])
  {
    forall i, k | 0 <= i < k < |sent + [u]| ensures Follows((sent + [u])[k].info, (sent + [u])[i]) {
      if k < |sent| { assert Follows(sent[k].info, sent[i]); } else { assert Follows(u.info, sent[i]); }
    }
  }

  lemma NoneNewerThanOneMore(sent: seq<Update>, u: Update, info: ParticipantInfo)
    requires NoneNewer(sent, info) && Follows(info, u)
    ensures NoneNewer(sent + [u], info)
  {
    forall i | 0 <= i < |sent + [u]| ensures Follows(info, (sent + [u])[i]) {
      if i < |sent| { assert Follows(info, sent[i]); }
    }
  }

  lemma SwitchKeepsOrder(room: Room, e: Event)
    requires InOrder(room) && e.Push? && NoneNewer(room.sent, e.pi)
    requires forall id <- room.cache :: room.cache[id].info.identity == id
    requires JudgeIn(room, e.pi) == Take(true)
    ensures InOrder(Step(room, e))
  {
    var id, sent, next := e.pi.identity, room.sent, Step(room, e);
    var gone, update := Superseded(room.cache[id]), Update(e.pi, false, e.closeReason);
    SameSessionFollows(sent, room.cache[id].info, gone.info);
    SentOneMore(sent, gone);
    NoneNewerThanOneMore(sent, gone, e.pi);
    SentOneMore(sent + [gone], update);
    assert next.sent == sent + [gone] + [update];
    forall k <- next.cache ensures NoneNewer(next.sent, next.cache[k].info) {
      NoneNewerThanOneMore(sent, gone, room.cache[k].info);
      NoneNewerThanOneMore(sent + [gone], update, room.cache[k].info);
    }
  }

  lemma TakenKeepsOrder(room: Room, e: Event)
    requires InOrder(room) && e.Push? && NoneNewer(room.sent, e.pi)
    requires forall id <- room.cache :: room.cache[id].info.identity == id
    requires JudgeIn(room, e.pi).Take?
    ensures InOrder(Step(room, e))
  {
    if JudgeIn(room, e.pi).displaces {
      SwitchKeepsOrder(room, e);
    } else if e.isImmediate || e.pi.isPublisher {
      var update, next := Update(e.pi, false, e.closeReason), Step(room, e);
      SentOneMore(room.sent, update);
      forall k <- next.cache ensures NoneNewer(next.sent, next.cache[k].info) {
        NoneNewerThanOneMore(room.sent, update, room.cache[k].info);
      }
    } else {
      assert room.sent + [] == room.sent;
    }
  }

  lemma {:induction false} ListedKeepsOrder(sent: seq<Update>, order: seq<Identity>, cache: Cache)
    requires InSequence(sent) && forall i, k :: 0 <= i < k < |order| ==> order[i] != order[k]
    requires forall id <- cache :: cache[id].info.identity == id && NoneNewer(sent, cache[id].info)
    ensures InSequence(sent + Listed(order, cache))
    ensures forall id <- cache | id !in order :: NoneNewer(sent + Listed(order, cache), cache[id].info)
    decreases |order|
  {
    if order == [] {
      assert sent + Listed(order, cache) == sent;
    } else {
      var init, last := order[..|order| - 1], order[|order| - 1];
      ListedKeepsOrder(sent, init, cache);
      assert last !in init && order == init + [last];
      var before := sent + Listed(init, cache);
      if last in cache {
        assert sent + Listed(order, cache) == before + [cache[last]];
        SentOneMore(before, cache[last]);
        forall id <- cache | id !in order ensures NoneNewer(before + [cache[last]], cache[id].info) {
          NoneNewerThanOneMore(before, cache[last], cache[id].info);
        }
      } else {
        assert sent + Listed(order, cache) == before;
      }
    }
  }

  lemma OldSessionShows(room: Room, e: Event)
    requires e.Push? && JudgeIn(room, e.pi).Take? && !NoneNewer(room.sent, e.pi)
    ensures !InOrder(Step(room, e))
  {
    var i :| 0 <= i < |room.sent| && !Follows(e.pi, room.sent[i]);
    var next := Step(room, e);
    assert next.sent[i] == room.sent[i];
    if JudgeIn(room, e.pi).displaces || e.isImmediate || e.pi.isPublisher {
      assert next.sent[|next.sent| - 1].info == e.pi;
      assert !Follows(next.sent[|next.sent| - 1].info, next.sent[i]);
    } else {
      assert !NoneNewer(next.sent, next.cache[e.pi.identity].info);
    }
  }

  /** A step keeps the announcements in order if and only if it is not a late update. */
  lemma StepKeepsOrderIff(sessions: string -> Session, room: Room, e: Event)
    requires RoomInv(sessions, room) && Proper(sessions, room, e) && InOrder(room)
    ensures InOrder(Step(room, e)) <==> !Late(room, e)
  {
    match e
    case Join(_, _) =>
    case Remove(_, _) =>
    case Flush(order) => ListedKeepsOrder(room.sent, order, room.cache);
    case Push(pi, _, _) =>
      if JudgeIn(room, pi).Drop? {
        assert room.sent + [] == room.sent;
      } else {
        TakenIsOldIff(sessions, room, e);
        if Late(room, e) { OldSessionShows(room, e); } else { TakenKeepsOrder(room, e); }
      }
  }

  lemma OutOfSequenceStays(sent: seq<Update>, more: seq<Update>)
    requires !InSequence(sent)
    ensures !InSequence(sent + more)
  {
    var i, k :| 0 <= i < k < |sent| && !Follows(sent[k].info, sent[i]);
    assert !Follows((sent + more)[k].info, (sent + more)[i]);
  }

  lemma FlushShowsCached(room: Room, order: seq<Identity>, id: Identity)
    requires Lists(order, room.cache) && id in room.cache && !NoneNewer(room.sent, room.cache[id].info)
    ensures !InSequence(Step(room, Flush(order)).sent)
  {
    var listed := Listed(order, room.cache);
    ListedIsAll(order, room.cache, id);
    var i :| 0 <= i < |room.sent| && !Follows(room.cache[id].info, room.sent[i]);
    var k :| 0 <= k < |listed| && listed[k] == room.cache[id];
    assert !Follows((room.sent + listed)[|room.sent| + k].info, (room.sent + listed)[i]);
  }

  lemma PushShowsCached(room: Room, e: Event)
    requires e.Push? && JudgeIn(room, e.pi) == Take(true)
    requires room.cache[e.pi.identity].info.identity == e.pi.identity
    requires !NoneNewer(room.sent, room.cache[e.pi.identity].info)
    ensures !InSequence(Step(room, e).sent)
  {
    var next, cached := Step(room, e), room.cache[e.pi.identity];
    var i :| 0 <= i < |room.sent| && !Follows(cached.info, room.sent[i]);
    assert next.sent[i] == room.sent[i] && next.sent[|room.sent|] == Superseded(cached);
    assert !Follows(next.sent[|room.sent|].info, next.sent[i]);
  }

  /** A cached session that is out of order stays cached, or is announced out of order. */
  lemma CachedOutOfOrderStays(sessions: string -> Session, room: Room, e: Event, id: Identity)
    requires RoomInv(sessions, room) && Proper(sessions, room, e)
    requires id in room.cache && !NoneNewer(room.sent, room.cache[id].info)
    ensures !InOrder(Step(room, e))
  {
    if e.Flush? {
      FlushShowsCached(room, e.order, id);
    } else if e.Push? && e.pi.identity == id && JudgeIn(room, e.pi).Take? {
      if JudgeIn(room, e.pi).displaces {
        PushShowsCached(room, e);
      } else {
        SameSessionFollows(room.sent, room.cache[id].info, e.pi);
        OldSessionShows(room, e);
      }
    } else {
      StillCached(room, e, id);
    }
  }

  lemma StillCached(room: Room, e: Event, id: Identity)
    requires id in room.cache && !NoneNewer(room.sent, room.cache[id].info) && !e.Flush?
    requires e.Push? && e.pi.identity == id ==> JudgeIn(room, e.pi).Drop?
    ensures !InOrder(Step(room, e))
  {
    var next := Step(room, e);
    var i :| 0 <= i < |room.sent| && !Follows(room.cache[id].info, room.sent[i]);
    assert next.sent[i] == room.sent[i];
    assert id in next.cache && !NoneNewer(next.sent, next.cache[id].info);
  }

  /** What was announced out of order, or is cached to be, stays so. */
  lemma OutOfOrderStays(sessions: string -> Session, room: Room, e: Event)
    requires RoomInv(sessions, room) && Proper(sessions, room, e) && !InOrder(room)
    ensures !InOrder(Step(room, e))
  {
    if !InSequence(room.sent) {
      OutOfSequenceStays(room.sent, Step(room, e).sent[|room.sent|..]);
      assert room.sent + Step(room, e).sent[|room.sent|..] == Step(room, e).sent;
    } else {
      var id :| id in room.cache && !NoneNewer(room.sent, room.cache[id].info);
      CachedOutOfOrderStays(sessions, room, e, id);
    }
  }

  lemma {:induction false} ListedIsCached(order: seq<Identity>, cache: Cache)
    ensures forall u <- Listed(order, cache) :: exists id <- cache :: cache[id] == u
    decreases |order|
  {
    if order != [] { ListedIsCached(order[..|order| - 1], cache); }
  }

  lemma JoinKeepsRoomInv(sessions: string -> Session, room: Room, id: Identity, session: Session)
    requires RoomInv(sessions, room) && Proper(sessions, room, Join(id, session))
    ensures RoomInv(sessions, Step(room, Join(id, session)))
  {
    var next := Step(room, Join(id, session));
    forall k, s | Joined(sessions, room, k, s) ensures Joined(sessions, next, k, s) {
      if k == id && id in room.newest { CompareIsTransitive(s, room.newest[id], session); }
    }
  }

  lemma StepKeepsRoomInv(sessions: string -> Session, room: Room, e: Event)
    requires RoomInv(sessions, room) && Proper(sessions, room, e)
    ensures RoomInv(sessions, Step(room, e))
  {
    match e
    case Join(id, session) => JoinKeepsRoomInv(sessions, room, id, session);
    case Remove(_, _) =>
    case Push(pi, _, _) =>
    case Flush(order) => ListedIsCached(order, room.cache);
  }

  ghost predicate AllProper(sessions: string -> Session, es: seq<Event>) {
    es == [] || (AllProper(sessions, es[..|es| - 1]) && Proper(sessions, Exec(es[..|es| - 1]), es[|es| - 1]))
  }

  predicate NeverLate(es: seq<Event>) {
    es == [] || (NeverLate(es[..|es| - 1]) && !Late(Exec(es[..|es| - 1]), es[|es| - 1]))
  }

  lemma {:induction false} ExecKeepsRoomInv(sessions: string -> Session, es: seq<Event>)
    requires AllProper(sessions, es)
    ensures RoomInv(sessions, Exec(es))
    decreases |es|
  {
    if es != [] {
      ExecKeepsRoomInv(sessions, es[..|es| - 1]);
      StepKeepsRoomInv(sessions, Exec(es[..|es| - 1]), es[|es| - 1]);
    }
  }

  /** The sessions announced for an identity never go backwards, in a run without late updates and in no other. */
  lemma {:induction false} AnnouncedInOrderIff(sessions: string -> Session, es: seq<Event>)
    requires AllProper(sessions, es)
    ensures InOrder(Exec(es)) <==> NeverLate(es)
    decreases |es|
  {
    if es != [] {
      var init, e := es[..|es| - 1], es[|es| - 1];
      AnnouncedInOrderIff(sessions, init);
      ExecKeepsRoomInv(sessions, init);
      if InOrder(Exec(init)) {
        StepKeepsOrderIff(sessions, Exec(init), e);
      } else {
        OutOfOrderStays(sessions, Exec(init), e);
      }
    }
  }

  /** An update about the newest session, or about any while someone is in the room under its identity. */
  predicate Covered(room: Room, e: Event) {
    e.Push? && e.pi.identity in room.newest ==>
      e.pi.session == room.newest[e.pi.identity] || e.pi.identity in room.participants
  }

  predicate AlwaysCovered(es: seq<Event>) {
    es == [] || (AlwaysCovered(es[..|es| - 1]) && Covered(Exec(es[..|es| - 1]), es[|es| - 1]))
  }

  /**
   Whatever else happens, order holds as long as no older session is updated while the room map has nobody under its
   identity: joins, departures and pushes alone decide this, not what was announced.
   */
  lemma {:induction false} AnnouncementsInOrder(sessions: string -> Session, es: seq<Event>)
    requires AllProper(sessions, es) && AlwaysCovered(es)
    ensures InOrder(Exec(es)) && NeverLate(es)
    decreases |es|
  {
    if es != [] {
      var init := es[..|es| - 1];
      AnnouncementsInOrder(sessions, init);
      ExecKeepsRoomInv(sessions, init);
      CoveredIsNotLate(sessions, Exec(init), es[|es| - 1]);
      StepKeepsOrderIff(sessions, Exec(init), es[|es| - 1]);
    }
  }

  lemma CoveredIsNotLate(sessions: string -> Session, room: Room, e: Event)
    requires RoomInv(sessions, room) && Proper(sessions, room, e) && Covered(room, e)
    ensures !Late(room, e)
  {
    if e.Push? && LastSent(room.sent, e.pi.identity).Some? {
      LastIsSent(room.sent, e.pi.identity);
      CompareIsAntisymmetric(e.pi.session, LastSent(room.sent, e.pi.identity).value);
    }
  }

  lemma {:induction false} LastIsSent(sent: seq<Update>, id: Identity)
    requires LastSent(sent, id).Some?
    ensures exists u <- sent :: u.info.identity == id && u.info.session == LastSent(sent, id).value
    decreases |sent|
  {
    if sent[|sent| - 1].info.identity != id { LastIsSent(sent[..|sent| - 1], id); }
  }

  /** Such a run: both sessions have come and gone, the newer was flushed, and then the older one is updated. */
  lemma LateUpdateGoesBackwards() returns (es: seq<Event>, sessions: string -> Session)
    ensures AllProper(sessions, es) && !InSequence(Exec(es).sent)
  {
    var newer, older := Session(2, 2000, "new"), Session(1, 1000, "old");
    sessions := sid => if sid == "new" then newer else older;
    var e0 := [Join("a", older)];
    var e1 := e0 + [Remove("a", "")];
    var e2 := e1 + [Join("a", newer)];
    var u := Update(ParticipantInfo("a", newer, 1, false, Active), false, 0);
    var e3 := e2 + [Push(u.info, 0, false)];
    var e4 := e3 + [Flush(["a"])];
    var e5 := e4 + [Remove("a", "new")];
    var late := Update(ParticipantInfo("a", older, 1, true, Active), false, 0);
    es := e5 + [Push(late.info, 0, false)];
    ExecOneMore(sessions, [], Join("a", older));
    assert [] + [Join("a", older)] == e0;
    ExecOneMore(sessions, e0, Remove("a", ""));
    assert Exec(e1) == Room(map[], map["a" := older], map[], []);
    ExecOneMore(sessions, e1, Join("a", newer));
    ExecOneMore(sessions, e2, Push(u.info, 0, false));
    assert Exec(e3) == Room(map["a" := newer], map["a" := newer], map["a" := u], []);
    ExecOneMore(sessions, e3, Flush(["a"]));
    assert ["a"][..0] == [] && Listed(["a"], map["a" := u]) == [u];
    ExecOneMore(sessions, e4, Remove("a", "new"));
    assert Exec(e5) == Room(map[], map["a" := newer], map[], [u]);
    ExecOneMore(sessions, e5, Push(late.info, 0, false));
    assert Exec(es).sent == [u, late];
    assert !Follows(Exec(es).sent[1].info, Exec(es).sent[0]);
  }

  lemma ExecOneMore(sessions: string -> Session, es: seq<Event>, e: Event)
    ensures Exec(es + [e]) == Step(Exec(es), e)
    ensures AllProper(sessions, es + [e]) <==> AllProper(sessions, es) && Proper(sessions, Exec(es), e)
  {
    assert (es + [e])[..|es|] == es;
  }

  // ---------- sessions that are displaced ----------

  /** A session displaced from the cache is announced as disconnected, and right after it the newer one. */
  ghost predicate SwitchSignalled(sent: seq<Update>, k: nat)
    requires k < |sent|
  {
    sent[k].synthesizedDisconnect ==>
      && sent[k].info.state == Disconnected && k + 1 < |sent|
      && sent[k + 1].info.identity == sent[k].info.identity && !sent[k + 1].synthesizedDisconnect
      && CompareParticipant(sent[k].info.session, sent[k + 1].info.session) < 0
  }

  ghost predicate AllSwitchesSignalled(sent: seq<Update>) {
    forall k {:trigger SwitchSignalled(sent, k)} :: 0 <= k < |sent| ==> SwitchSignalled(sent, k)
  }

  lemma SwitchesStaySignalled(sent: seq<Update>, more: seq<Update>)
    requires AllSwitchesSignalled(sent) && AllSwitchesSignalled(more)
    ensures AllSwitchesSignalled(sent + more)
  {
    forall k | 0 <= k < |sent + more| ensures SwitchSignalled(sent + more, k) {
      if k < |sent| { assert SwitchSignalled(sent, k); } else { assert SwitchSignalled(more, k - |sent|); }
    }
  }

  lemma StepSignalsSwitches(sessions: string -> Session, room: Room, e: Event)
    requires RoomInv(sessions, room) && AllSwitchesSignalled(room.sent)
    ensures AllSwitchesSignalled(Step(room, e).sent)
  {
    match e
    case Join(_, _) =>
    case Remove(_, _) =>
    case Push(pi, closeReason, isImmediate) =>
      var existing := Present(room.participants, pi.identity);
      SwitchesStaySignalled(room.sent, Pushed(pi, closeReason, isImmediate, existing, room.cache).0);
    case Flush(order) =>
      ListedIsCached(order, room.cache);
      var listed := Listed(order, room.cache);
      forall k | 0 <= k < |listed| ensures SwitchSignalled(listed, k) { assert listed[k] in listed; }
      SwitchesStaySignalled(room.sent, listed);
  }

  lemma {:induction false} SwitchesAreSignalled(sessions: string -> Session, es: seq<Event>)
    requires AllProper(sessions, es)
    ensures AllSwitchesSignalled(Exec(es).sent)
    decreases |es|
  {
    if es != [] {
      SwitchesAreSignalled(sessions, es[..|es| - 1]);
      ExecKeepsRoomInv(sessions, es[..|es| - 1]);
      StepSignalsSwitches(sessions, Exec(es[..|es| - 1]), es[|es| - 1]);
    }
  }

  /** This session of an identity is waiting in the cache, or has been announced. */
  ghost predicate Accounted(room: Room, id: Identity, s: Session) {
    || (id in room.cache && room.cache[id].info.session == s)
    || exists u <- room.sent :: u.info.identity == id && u.info.session == s
  }

  lemma {:induction false} ListedIsAll(order: seq<Identity>, cache: Cache, id: Identity)
    requires id in order && id in cache
    ensures cache[id] in Listed(order, cache)
    decreases |order|
  {
    if id != order[|order| - 1] { ListedIsAll(order[..|order| - 1], cache, id); }
  }

  lemma StepKeepsAccounted(sessions: string -> Session, room: Room, e: Event, id: Identity, s: Session)
    requires RoomInv(sessions, room) && Proper(sessions, room, e) && Accounted(room, id, s)
    ensures Accounted(Step(room, e), id, s)
  {
    var next := Step(room, e);
    if u :| u in room.sent && u.info.identity == id && u.info.session == s {
      assert u in next.sent;
    } else {
      var cached := room.cache[id];
      if e.Flush? {
        ListedIsAll(e.order, room.cache, id);
        assert cached in next.sent;
      } else if e.Push? && e.pi.identity == id && JudgeIn(room, e.pi).Take? {
        if JudgeIn(room, e.pi).displaces {
          assert next.sent[|room.sent|] == Superseded(cached);
        } else if e.isImmediate || e.pi.isPublisher {
          assert next.sent[|room.sent|].info == e.pi;
        }
      }
    }
  }

  lemma TakenIsAccounted(room: Room, e: Event)
    requires e.Push? && JudgeIn(room, e.pi).Take?
    ensures Accounted(Step(room, e), e.pi.identity, e.pi.session)
  {
    var next := Step(room, e);
    if e.pi.identity !in next.cache {
      assert next.sent[|next.sent| - 1].info == e.pi && next.sent[|next.sent| - 1] in next.sent;
    }
  }

  lemma {:induction false} AccountedStays(
    sessions: string -> Session, all: seq<Event>, n: nat, id: Identity, s: Session)
    requires n <= |all| && AllProper(sessions, all) && Accounted(Exec(all[..n]), id, s)
    ensures Accounted(Exec(all), id, s)
    decreases |all|
  {
    if n == |all| {
      assert all[..n] == all;
    } else {
      var init := all[..|all| - 1];
      assert init[..n] == all[..n];
      AccountedStays(sessions, init, n, id, s);
      ExecKeepsRoomInv(sessions, init);
      StepKeepsAccounted(sessions, Exec(init), all[|all| - 1], id, s);
    }
  }

  /** No session that was taken is lost: it is cached or was announced, at the end of any run that goes on. */
  lemma NoSessionIsLost(sessions: string -> Session, es: seq<Event>, e: Event, more: seq<Event>)
    requires AllProper(sessions, es + [e] + more)
    requires e.Push? && JudgeIn(Exec(es), e.pi).Take?
    ensures Accounted(Exec(es + [e] + more), e.pi.identity, e.pi.session)
  {
    var all := es + [e] + more;
    ExecOneMore(sessions, es, e);
    TakenIsAccounted(Exec(es), e);
    assert all[..|es| + 1] == es + [e];
    AccountedStays(sessions, all, |es| + 1, e.pi.identity, e.pi.session);
  }

  // ---------- who is in the room ----------

  /** A removal that takes the session out: by its own id, or without one. */
  predicate Leaves(e: Event, id: Identity, s: Session) {
    e.Remove? && e.id == id && (e.sid == s.sid || e.sid == "")
  }

  lemma StaysUntilItLeaves(room: Room, e: Event, id: Identity)
    requires id in room.participants
    ensures id in Step(room, e).participants <==> !Leaves(e, id, room.participants[id])
    ensures !Leaves(e, id, room.participants[id]) ==>
              id in Step(room, e).participants && Step(room, e).participants[id] == room.participants[id]
  {
  }

  /**
   A session that is in the room stays there, whoever else joins or leaves under its identity, until it is removed by
   its own id or without one; a removal that names another session does not touch it.
   */
  lemma {:induction false} StaysInRoom(all: seq<Event>, n: nat, id: Identity, s: Session)
    requires n <= |all| && id in Exec(all[..n]).participants && Exec(all[..n]).participants[id] == s
    requires forall k :: n <= k < |all| ==> !Leaves(all[k], id, s)
    ensures id in Exec(all).participants && Exec(all).participants[id] == s
    decreases |all|
  {
    if n == |all| {
      assert all[..n] == all;
    } else {
      var init := all[..|all| - 1];
      assert init[..n] == all[..n];
      StaysInRoom(init, n, id, s);
      StaysUntilItLeaves(Exec(init), all[|all| - 1], id);
    }
  }
}
