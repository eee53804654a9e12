/**
 Which participant update is the one that counts (pkg/rtc/room.go): what clients are shown of an identity, at once or
 with the next flush, is what was pushed last about its newest session, and one that is out of date does not replace it.
 */
module UpdateFreshness {
  import opened Common
  import opened ParticipantUpdates

  function LastAnnounced(sent: seq<Update>, id: Identity): Option<Update> {
    if sent == [] then None
    else if sent[|sent| - 1].info.identity == id then Some(sent[|sent| - 1])
    else LastAnnounced(sent[..|sent| - 1], id)
  }

  /** What clients know of an identity once all that is cached has been flushed. */
  function Shown(room: Room, id: Identity): Option<Update> {
    if id in room.cache then Some(room.cache[id]) else LastAnnounced(room.sent, id)
  }

  /** The update that a push is about. */
  function AsPushed(e: Event): Update
    requires e.Push?
  {
    Update(e.pi, false, e.closeReason)
  }

  /** Of an older session, or of the same one before. */
  predicate OutOfDate(pi: ParticipantInfo, other: ParticipantInfo) {
    if pi.session == other.session then pi.version < other.version
    else CompareParticipant(pi.session, other.session) < 0
  }

  lemma OneMoreAnnounced(sent: seq<Update>, u: Update, id: Identity)
    ensures LastAnnounced(sent + [u], id) == if u.info.identity == id then Some(u) else LastAnnounced(sent, id)
  {
    assert (sent + [u])[..|sent|] == sent;
  }

  lemma {:induction false} AnnouncedInTwo(sent: seq<Update>, more: seq<Update>, id: Identity)
    ensures LastAnnounced(sent + more, id) ==
            if LastAnnounced(more, id).Some? then LastAnnounced(more, id) else LastAnnounced(sent, id)
    decreases |more|
  {
    if more == [] {
      assert sent + more == sent;
    } else {
      AnnouncedInTwo(sent, more[..|more| - 1], id);
      assert (sent + more)[..|sent + more| - 1] == sent + more[..|more| - 1];
    }
  }

  lemma {:induction false} FlushAnnounces(order: seq<Identity>, cache: Cache, id: Identity)
    requires forall k <- cache :: cache[k].info.identity == k
    ensures LastAnnounced(Listed(order, cache), id) ==
            if id in order && id in cache then Some(cache[id]) else None
    decreases |order|
  {
    if order != [] {
      var init, last := order[..|order| - 1], order[|order| - 1];
      FlushAnnounces(init, cache, id);
      assert order == init + [last];
      if last in cache {
        OneMoreAnnounced(Listed(init, cache), cache[last], id);
      } else {
        assert Listed(order, cache) == Listed(init, cache);
      }
    }
  }

  lemma FlushKeepsShown(room: Room, order: seq<Identity>, id: Identity)
    requires Lists(order, room.cache) && forall k <- room.cache :: room.cache[k].info.identity == k
    ensures Shown(Step(room, Flush(order)), id) == Shown(room, id)
  {
    FlushAnnounces(order, room.cache, id);
    AnnouncedInTwo(room.sent, Listed(order, room.cache), id);
  }

  lemma {:induction false} NotAnnounced(updates: seq<Update>, id: Identity)
    requires forall u <- updates :: u.info.identity != id
    ensures LastAnnounced(updates, id).None?
    decreases |updates|
  {
    if updates != [] { NotAnnounced(updates[..|updates| - 1], id); }
  }

  lemma PushedIsAbout(
    pi: ParticipantInfo, closeReason: nat, isImmediate: bool, existing: Option<Session>, cache: Cache)
    requires forall k <- cache :: cache[k].info.identity == k
    ensures var (updates, cache') := Pushed(pi, closeReason, isImmediate, existing, cache);
            && (forall u <- updates :: u.info.identity == pi.identity)
            && cache' - {pi.identity} == cache - {pi.identity}
  {
  }

  lemma PushKeepsOthersShown(room: Room, e: Event, id: Identity)
    requires e.Push? && e.pi.identity != id && forall k <- room.cache :: room.cache[k].info.identity == k
    ensures Shown(Step(room, e), id) == Shown(room, id)
  {
    var added := Pushed(e.pi, e.closeReason, e.isImmediate, Present(room.participants, e.pi.identity), room.cache).0;
    PushedIsAbout(e.pi, e.closeReason, e.isImmediate, Present(room.participants, e.pi.identity), room.cache);
    NotAnnounced(added, id);
    AnnouncedInTwo(room.sent, added, id);
  }

  lemma TakenIsShown(room: Room, e: Event)
    requires e.Push? && JudgeIn(room, e.pi).Take?
    ensures Shown(Step(room, e), e.pi.identity) == Some(AsPushed(e))
  {
  }

  /**
   After a push the identity is shown as pushed, unless the update is out of date: against what is cached, or, with
   nothing cached, because a newer session is in the room.
   */
  lemma ShownAfterPush(sessions: string -> Session, room: Room, e: Event)
    requires RoomInv(sessions, room) && Proper(sessions, room, e) && e.Push?
    ensures var id := e.pi.identity;
            Shown(Step(room, e), id) ==
            if (id in room.cache && OutOfDate(e.pi, room.cache[id].info))
               || (id !in room.cache && id in room.participants
                   && CompareParticipant(e.pi.session, room.participants[id]) < 0)
            then Shown(room, id) else Some(AsPushed(e))
  {
    var id := e.pi.identity;
    if id in room.cache { CompareIsAntisymmetric(room.cache[id].info.session, e.pi.session); }
    if id in room.participants { CompareIsAntisymmetric(room.participants[id], e.pi.session); }
    if JudgeIn(room, e.pi).Take? { TakenIsShown(room, e); } else { assert room.sent + [] == room.sent; }
  }

  /** A taken update waits for the flush if and only if it is neither urgent nor a publisher's, nor ends a session. */
  lemma WaitsForFlushIff(sessions: string -> Session, room: Room, e: Event)
    requires RoomInv(sessions, room) && Proper(sessions, room, e) && e.Push?
    requires Shown(Step(room, e), e.pi.identity) == Some(AsPushed(e)) != Shown(room, e.pi.identity)
    ensures var id, next := e.pi.identity, Step(room, e);
            && (id in next.cache <==> next.sent == room.sent)
            && (id in next.cache <==>
                !e.isImmediate && !e.pi.isPublisher
                && (id in room.cache ==> room.cache[id].info.session == e.pi.session))
  {
  }

  // ---------- whole runs ----------

  function LastPushed(es: seq<Event>, id: Identity): Option<Update> {
    if es == [] then None
    else if es[|es| - 1].Push? && es[|es| - 1].pi.identity == id then Some(AsPushed(es[|es| - 1]))
    else LastPushed(es[..|es| - 1], id)
  }

  /** The identity is updated about its newest session only, and in the order of versions. */
  predicate UpToDate(es: seq<Event>, id: Identity) {
    es == [] ||
    var init, e := es[..|es| - 1], es[|es| - 1];
    && UpToDate(init, id)
    && (e.Push? && e.pi.identity == id ==>
          && id in Exec(init).newest && e.pi.session == Exec(init).newest[id]
          && (LastPushed(init, id).Some? && LastPushed(init, id).value.info.session == e.pi.session ==>
                LastPushed(init, id).value.info.version <= e.pi.version))
  }

  /**
   In every run that updates an identity in order, however updates are batched, sent at once and flushed, and whatever
   happens to other identities, it is shown as pushed last.
   */
  lemma {:induction false} ShownAsPushedLast(sessions: string -> Session, es: seq<Event>, id: Identity)
    requires AllProper(sessions, es) && UpToDate(es, id)
    ensures Shown(Exec(es), id) == LastPushed(es, id)
    decreases |es|
  {
    if es != [] {
      var init, e := es[..|es| - 1], es[|es| - 1];
      ShownAsPushedLast(sessions, init, id);
      ExecKeepsRoomInv(sessions, init);
      NextIsShown(sessions, Exec(init), e, id);
    }
  }

  lemma NextIsShown(sessions: string -> Session, room: Room, e: Event, id: Identity)
    requires RoomInv(sessions, room) && Proper(sessions, room, e)
    requires e.Push? && e.pi.identity == id ==>
               && id in room.newest && e.pi.session == room.newest[id]
               && (Shown(room, id).Some? && Shown(room, id).value.info.session == e.pi.session ==>
                     Shown(room, id).value.info.version <= e.pi.version)
    ensures Shown(Step(room, e), id) ==
            if e.Push? && e.pi.identity == id then Some(AsPushed(e)) else Shown(room, id)
  {
    match e
    case Join(_, _) =>
    case Remove(_, _) =>
    case Flush(order) => FlushKeepsShown(room, order, id);
    case Push(pi, _, _) =>
      if pi.identity != id {
        PushKeepsOthersShown(room, e, id);
      } else {
        ShownAfterPush(sessions, room, e);
        if id in room.cache { CompareIsAntisymmetric(room.cache[id].info.session, pi.session); }
      }
  }
}
