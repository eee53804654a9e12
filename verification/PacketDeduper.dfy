/**
 The deduper of user packets (pkg/rtc/user_packet_deduper.go): the most recent packet ids, kept as a linked list inside
 a map from each id to the next newer one.
 */
module PacketDeduper {
  import opened Common

  const MAX_SIZE := 100

  newtype byte = x: int | 0 <= x < 256

  datatype UUID = UUID(bytes: seq<byte>)

  const ZERO: UUID := UUID([0, 0, 0, 0, 0, 0, 0, 0, 0, 0, 0, 0, 0, 0, 0, 0])

  function FromBytes(nonce: seq<byte>): Option<UUID> {
    if |nonce| == 16 then Some(UUID(nonce)) else None
  }

  datatype Links = Links(seen: map<UUID, UUID>, head: UUID, tail: UUID)

  function Look(l: Links, nonce: seq<byte>): bool {
    match FromBytes(nonce)
    case None => false
    case Some(id) => l.head == id || id in l.seen
  }

  /** The links after a packet; the list is never so broken that the tail has no successor. */
  function AfterPacket(l: Links, nonce: seq<byte>): Links {
    match FromBytes(nonce)
    case None => l
    case Some(id) => if l.head == id || id in l.seen then l else Trim(Links(l.seen[l.head := id], id, l.tail))
  }

  function Trim(l: Links): Links {
    if |l.seen| == MAX_SIZE && l.tail in l.seen then Links(l.seen - {l.tail}, l.head, l.seen[l.tail]) else l
  }

  // ---------- the window ----------

  /** The last hundred entries. */
  function Last(history: seq<UUID>): (window: seq<UUID>)
    ensures |window| <= MAX_SIZE
  {
    if |history| <= MAX_SIZE then history else history[|history| - MAX_SIZE..]
  }

  function Slide(window: seq<UUID>, nonce: seq<byte>): seq<UUID> {
    match FromBytes(nonce)
    case None => window
    case Some(id) => if id in window then window else Last(window + [id])
  }

  ghost predicate Linked(seen: map<UUID, UUID>, ids: seq<UUID>, i: nat)
    requires i + 1 < |ids|
  {
    ids[i] in seen && seen[ids[i]] == ids[i + 1]
  }

  /** The links are one simple path through these ids, from the oldest, the tail, to the newest, the head. */
  ghost predicate Path(l: Links, ids: seq<UUID>) {
    && ids != [] && Distinct(ids)
    && l.tail == ids[0] && l.head == ids[|ids| - 1]
    && l.seen.Keys == Elements(ids[..|ids| - 1])
    && forall i {:trigger Linked(l.seen, ids, i)} :: 0 <= i < |ids| - 1 ==> Linked(l.seen, ids, i)
  }

  ghost predicate Represents(l: Links, window: seq<UUID>) {
    Path(l, window) && |window| <= MAX_SIZE
  }

  lemma OnPathIffKnown(l: Links, ids: seq<UUID>, id: UUID)
    requires Path(l, ids)
    ensures id in ids <==> l.head == id || id in l.seen
    ensures |l.seen| == |ids| - 1
  {
    ElementsSize(ids[..|ids| - 1]);
    assert |l.seen.Keys| == |l.seen|;
    assert ids == ids[..|ids| - 1] + [ids[|ids| - 1]];
  }

  lemma Grow(l: Links, ids: seq<UUID>, id: UUID)
    requires Path(l, ids) && id !in ids
    ensures Path(Links(l.seen[l.head := id], id, l.tail), ids + [id])
  {
    var longer, seen := ids + [id], l.seen[l.head := id];
    assert longer[..|ids|] == ids;
    assert ids == ids[..|ids| - 1] + [ids[|ids| - 1]];
    forall i | 0 <= i < |ids| ensures Linked(seen, longer, i) {
      if i < |ids| - 1 { assert Linked(l.seen, ids, i) && ids[i] != ids[|ids| - 1]; }
    }
  }

  lemma IdsWithoutFirst(ids: seq<UUID>)
    requires Distinct(ids) && ids != []
    ensures Elements(ids[1..]) == Elements(ids) - {ids[0]} && Distinct(ids[1..])
  {
    assert ids == [ids[0]] + ids[1..];
  }

  lemma Shrink(l: Links, ids: seq<UUID>)
    requires Path(l, ids) && |ids| > 1
    ensures l.tail in l.seen && Path(Links(l.seen - {l.tail}, l.head, l.seen[l.tail]), ids[1..])
  {
    var rest, init := ids[1..], ids[..|ids| - 1];
    assert rest[..|rest| - 1] == init[1..];
    IdsWithoutFirst(init);
    IdsWithoutFirst(ids);
    assert Linked(l.seen, ids, 0);
    forall i | 0 <= i < |rest| - 1 ensures Linked(l.seen - {l.tail}, rest, i) { assert Linked(l.seen, ids, i + 1); }
  }

  lemma TrimKeepsLast(l: Links, ids: seq<UUID>)
    requires Path(l, ids) && 1 < |ids| <= MAX_SIZE + 1
    ensures Represents(Trim(l), Last(ids)) && l.tail in l.seen
  {
    OnPathIffKnown(l, ids, l.head);
    Shrink(l, ids);
  }

  /** A packet that is looked up moves the window on exactly when its id is valid and not in it. */
  lemma PacketSlidesWindow(l: Links, window: seq<UUID>, nonce: seq<byte>)
    requires Represents(l, window)
    ensures Look(l, nonce) <==> FromBytes(nonce).Some? && FromBytes(nonce).value in window
    ensures Represents(AfterPacket(l, nonce), Slide(window, nonce))
    ensures |l.seen| < MAX_SIZE
    ensures FromBytes(nonce).Some? && !Look(l, nonce) ==> l.tail in l.seen[l.head := FromBytes(nonce).value]
  {
    OnPathIffKnown(l, window, l.head);
    if FromBytes(nonce).Some? {
      var id := FromBytes(nonce).value;
      OnPathIffKnown(l, window, id);
      if id !in window {
        Grow(l, window, id);
        TrimKeepsLast(Links(l.seen[l.head := id], id, l.tail), window + [id]);
      }
    }
  }

  class UserPacketDeduper {
    var seen: map<UUID, UUID>
    var head: UUID
    var tail: UUID
    ghost var window: seq<UUID>

    function View(): Links
      reads this
    {
      Links(seen, head, tail)
    }

    ghost predicate Valid()
      reads this
    {
      Represents(View(), window)
    }

    constructor ()
      ensures Valid() && window == [ZERO] && View() == Links(map[], ZERO, ZERO)
    {
      seen, head, tail, window := map[], ZERO, ZERO, [ZERO];
    }

    method IsDuplicate(nonce: seq<byte>) returns (duplicate: bool)
      requires Valid()
      modifies this
      ensures Valid() && window == Slide(old(window), nonce) && View() == AfterPacket(old(View()), nonce)
      ensures duplicate <==> FromBytes(nonce).Some? && FromBytes(nonce).value in old(window)
    {
      PacketSlidesWindow(View(), window, nonce);
      window := Slide(window, nonce);
      if |nonce| != 16 {
        return false;
      }
      var id := UUID(nonce);
      if head == id {
        return true;
      }
      if id in seen {
        return true;
      }
      seen := seen[head := id];
      head := id;
      if |seen| == MAX_SIZE {
        var last := tail;
        tail := seen[last];
        seen := seen - {last};
      }
      return false;
    }
  }

  // ---------- whole runs ----------

  function Exec(nonces: seq<seq<byte>>): Links {
    if nonces == [] then Links(map[], ZERO, ZERO) else AfterPacket(Exec(nonces[..|nonces| - 1]), nonces[|nonces| - 1])
  }

  /** The zero id, then every id that was not a duplicate of the hundred before it, oldest first. */
  function History(nonces: seq<seq<byte>>): seq<UUID> {
    if nonces == [] then [ZERO]
    else
      var before := History(nonces[..|nonces| - 1]);
      match FromBytes(nonces[|nonces| - 1])
      case None => before
      case Some(id) => if id in Last(before) then before else before + [id]
  }

  lemma LastSlides(history: seq<UUID>, nonce: seq<byte>)
    requires FromBytes(nonce).Some? && FromBytes(nonce).value !in Last(history)
    ensures Slide(Last(history), nonce) == Last(history + [FromBytes(nonce).value])
  {
  }

  lemma {:induction false} LinksAreLastOfHistory(nonces: seq<seq<byte>>)
    ensures Represents(Exec(nonces), Last(History(nonces)))
    decreases |nonces|
  {
    if nonces != [] {
      var init, nonce := nonces[..|nonces| - 1], nonces[|nonces| - 1];
      LinksAreLastOfHistory(init);
      PacketSlidesWindow(Exec(init), Last(History(init)), nonce);
      if FromBytes(nonce).Some? && FromBytes(nonce).value !in Last(History(init)) { LastSlides(History(init), nonce); }
    }
  }

  /** It is one of the last hundred. */
  predicate AmongLast(history: seq<UUID>, id: UUID) {
    exists i :: 0 <= i < |history| && |history| - 100 <= i && history[i] == id
  }

  lemma OldIsRecent(history: seq<UUID>, i: nat)
    requires i < |history| <= i + MAX_SIZE
    ensures history[i] in Last(history)
  {
    var recent := Last(history);
    assert recent[i - (|history| - |recent|)] == history[i];
  }

  lemma AmongLastIff(history: seq<UUID>, id: UUID)
    ensures id in Last(history) <==> AmongLast(history, id)
  {
    if i :| 0 <= i < |history| && |history| - 100 <= i && history[i] == id { OldIsRecent(history, i); }
    if id in Last(history) {
      var k :| 0 <= k < |Last(history)| && Last(history)[k] == id;
      assert history[|history| - |Last(history)| + k] == id;
    }
  }

  /**
   After any packets, a packet is a duplicate exactly when its nonce is an id, of sixteen bytes, that is among the last
   hundred of the history.
   */
  lemma DuplicateIffRecent(nonces: seq<seq<byte>>, nonce: seq<byte>)
    ensures Look(Exec(nonces), nonce) <==> |nonce| == 16 && AmongLast(History(nonces), UUID(nonce))
    ensures |Exec(nonces).seen| < 100
  {
    if |nonce| == 16 { AmongLastIff(History(nonces), UUID(nonce)); }
    LinksAreLastOfHistory(nonces);
    PacketSlidesWindow(Exec(nonces), Last(History(nonces)), nonce);
  }

  /** An id is let through again only after a hundred other ids. */
  lemma {:induction false} RepeatsAreFarApart(nonces: seq<seq<byte>>, i: nat, k: nat)
    requires i < k < |History(nonces)| && History(nonces)[i] == History(nonces)[k]
    ensures k - i > 100
    decreases |nonces|
  {
    var init := nonces[..|nonces| - 1];
    var before := History(init);
    if k < |before| {
      RepeatsAreFarApart(init, i, k);
    } else if |before| - i <= MAX_SIZE {
      OldIsRecent(before, i);
    }
  }
}
