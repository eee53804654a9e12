/**
 The publishing side of reliable data: the out-of-order check, and the cache that holds packets back after a
 migration until the sequence continues (pkg/rtc/migrationdatacache.go, pkg/rtc/participant.go).
 */
module PublisherMigration {
  import opened Common

  datatype DataPacket = DataPacket(reliable: bool, seqNo: nat, payload: string) {
    predicate Sequenced() { reliable && seqNo > 0 }
  }

  datatype CacheState = Waiting | TimedOut | Done

  datatype Cache = Cache(lastSeq: nat, pkts: seq<DataPacket>, state: CacheState)

  function AfterAdd(c: Cache, pkt: DataPacket, expired: bool): Cache {
    if c.state != Waiting || pkt.seqNo <= c.lastSeq then c
    else if pkt.seqNo == c.lastSeq + 1 then c.(state := Done)
    else c.(pkts := c.pkts + [pkt], state := if expired then TimedOut else Waiting)
  }

  class MigrationDataCache {
    const lastSeq: nat
    var pkts: seq<DataPacket>
    var state: CacheState

    function View(): Cache
      reads this
    {
      Cache(lastSeq, pkts, state)
    }

    constructor (lastSeq: nat)
      ensures View() == Cache(lastSeq, [], Waiting)
    {
      this.lastSeq := lastSeq;
      pkts := [];
      state := Waiting;
    }

    /** `expired` tells whether the clock is past the cache's deadline. */
    method Add(pkt: DataPacket, expired: bool) returns (s: CacheState)
      modifies this
      ensures View() == AfterAdd(old(View()), pkt, expired) && s == state
    {
      if state == Done || state == TimedOut {
        return state;
      }
      if pkt.seqNo <= lastSeq {
        return state;
      }
      if pkt.seqNo == lastSeq + 1 {
        state := Done;
        return state;
      }
      pkts := pkts + [pkt];
      if expired {
        state := TimedOut;
      }
      return state;
    }
  }

  /** `forwarded` is what went past the sequence check, on its way to the room. */
  datatype Publisher = Publisher(lastSeq: nat, stopped: bool, cache: Option<Cache>, forwarded: seq<DataPacket>)

  function Handle(p: Publisher, pkt: DataPacket): Publisher {
    if !pkt.Sequenced() then p.(forwarded := p.forwarded + [pkt])
    else if p.lastSeq >= pkt.seqNo then p
    else p.(lastSeq := pkt.seqNo, forwarded := p.forwarded + [pkt])
  }

  function HandleAll(p: Publisher, pkts: seq<DataPacket>): Publisher {
    if pkts == [] then p else Handle(HandleAll(p, pkts[..|pkts| - 1]), pkts[|pkts| - 1])
  }

  function Receive(p: Publisher, pkt: DataPacket, expired: bool): Publisher {
    if !pkt.Sequenced() then Handle(p, pkt)
    else if p.stopped then p
    else if p.cache.None? then Handle(p, pkt)
    else
      var c := AfterAdd(p.cache.value, pkt, expired);
      match c.state
      case Waiting => p.(cache := Some(c))
      case TimedOut => HandleAll(p.(cache := None), c.pkts)
      case Done => Handle(p.(cache := None), pkt)
  }

  class ParticipantData {
    var lastPubReliableSeq: nat
    var stopReliableByMigrateOut: bool
    var migrateInPubDataCache: MigrationDataCache?
    var forwarded: seq<DataPacket>

    function View(): Publisher
      reads this, migrateInPubDataCache
    {
      Publisher(lastPubReliableSeq, stopReliableByMigrateOut,
                if migrateInPubDataCache == null then None else Some(migrateInPubDataCache.View()), forwarded)
    }

    constructor (lastPubReliableSeq: nat)
      ensures View() == Publisher(lastPubReliableSeq, false, None, [])
    {
      this.lastPubReliableSeq := lastPubReliableSeq;
      stopReliableByMigrateOut := false;
      migrateInPubDataCache := null;
      forwarded := [];
    }

    method MigrationComplete(lastPubReliableSeqParam: nat)
      modifies this
      ensures View() == if lastPubReliableSeqParam > 0
                        then old(View()).(cache := Some(Cache(lastPubReliableSeqParam, [], Waiting))) else old(View())
    {
      if lastPubReliableSeqParam > 0 {
        migrateInPubDataCache := new MigrationDataCache(lastPubReliableSeqParam);
      }
    }

    method GetLastReliableSequence(migrateOut: bool) returns (last: nat)
      modifies this`stopReliableByMigrateOut
      ensures last == old(lastPubReliableSeq)
      ensures stopReliableByMigrateOut == (old(stopReliableByMigrateOut) || migrateOut)
    {
      if migrateOut {
        stopReliableByMigrateOut := true;
      }
      return lastPubReliableSeq;
    }

    method HandleReceivedDataMessage(pkt: DataPacket)
      modifies this
      ensures View() == Handle(old(View()), pkt) && migrateInPubDataCache == old(migrateInPubDataCache)
    {
      if pkt.reliable && pkt.seqNo > 0 {
        if lastPubReliableSeq >= pkt.seqNo {
          return;
        }
        lastPubReliableSeq := pkt.seqNo;
      }
      forwarded := forwarded + [pkt];
    }

    method OnReceivedDataMessage(pkt: DataPacket, expired: bool)
      modifies this, migrateInPubDataCache
      ensures View() == Receive(old(View()), pkt, expired)
    {
      if pkt.reliable && pkt.seqNo > 0 {
        if stopReliableByMigrateOut {
          return;
        }
        if migrateInPubDataCache != null {
          var state := migrateInPubDataCache.Add(pkt, expired);
          if state == Waiting {
            return;
          }
          if state == TimedOut {
            var cached := migrateInPubDataCache.pkts;
            migrateInPubDataCache := null;
            ghost var start := View();
            for i := 0 to |cached|
              invariant View() == HandleAll(start, cached[..i]) && migrateInPubDataCache == null
            {
              assert cached[..i + 1][..i] == cached[..i];
              HandleReceivedDataMessage(cached[i]);
            }
            assert cached[..|cached|] == cached;
            return;
          }
          migrateInPubDataCache := null;
        }
      }
      HandleReceivedDataMessage(pkt);
    }
  }

  // ---------- whole runs ----------

  /** A packet and whether the migration deadline had passed when it came in. */
  datatype Arrival = Arrival(pkt: DataPacket, expired: bool)

  function ReceiveAll(p: Publisher, arrivals: seq<Arrival>): Publisher {
    if arrivals == [] then p
    else
      var last := arrivals[|arrivals| - 1];
      Receive(ReceiveAll(p, arrivals[..|arrivals| - 1]), last.pkt, last.expired)
  }

  function Packets(arrivals: seq<Arrival>): seq<DataPacket> {
    seq(|arrivals|, i requires 0 <= i < |arrivals| => arrivals[i].pkt)
  }

  /** The sequenced packets among `q` only go up, and stay within (low, high]. */
  ghost predicate IncreasingWithin(q: seq<DataPacket>, low: nat, high: nat) {
    && (forall i, k :: 0 <= i < k < |q| && q[i].Sequenced() && q[k].Sequenced() ==> q[i].seqNo < q[k].seqNo)
    && (forall pkt <- q :: pkt.Sequenced() ==> low < pkt.seqNo <= high)
  }

  lemma {:induction false} HandleAllIncreases(p: Publisher, pkts: seq<DataPacket>, low: nat)
    requires IncreasingWithin(p.forwarded, low, p.lastSeq) && low <= p.lastSeq
    ensures var p' := HandleAll(p, pkts);
            && IncreasingWithin(p'.forwarded, low, p'.lastSeq) && low <= p'.lastSeq
            && p'.cache == p.cache && p'.stopped == p.stopped
    decreases |pkts|
  {
    if pkts != [] {
      HandleAllIncreases(p, pkts[..|pkts| - 1], low);
    }
  }

  lemma ReceiveIncreases(p: Publisher, a: Arrival, low: nat)
    requires IncreasingWithin(p.forwarded, low, p.lastSeq) && low <= p.lastSeq
    ensures var p' := Receive(p, a.pkt, a.expired); IncreasingWithin(p'.forwarded, low, p'.lastSeq) && low <= p'.lastSeq
  {
    if p.cache.Some? {
      HandleAllIncreases(p.(cache := None), AfterAdd(p.cache.value, a.pkt, a.expired).pkts, low);
    }
  }

  /** Whatever arrives, in any order and with any cache: forwarded sequence numbers go up from the last one. */
  lemma {:induction false} ForwardedIncreases(p: Publisher, arrivals: seq<Arrival>)
    requires p.forwarded == []
    ensures var p' := ReceiveAll(p, arrivals);
            IncreasingWithin(p'.forwarded, p.lastSeq, p'.lastSeq) && p.lastSeq <= p'.lastSeq
    decreases |arrivals|
  {
    if arrivals != [] {
      ForwardedIncreases(p, arrivals[..|arrivals| - 1]);
      ReceiveIncreases(ReceiveAll(p, arrivals[..|arrivals| - 1]), arrivals[|arrivals| - 1], p.lastSeq);
    }
  }

  /** A publisher right after migrating in, `last` being the last sequence number its old node forwarded. */
  function Migrated(last: nat): Publisher {
    Publisher(last, false, Some(Cache(last, [], Waiting)), [])
  }

  /** The same publisher without a migration cache. */
  function Uncached(last: nat): Publisher {
    Publisher(last, false, None, [])
  }

  /** A packet of the sequence that continues it, or runs into the deadline. */
  predicate Continues(last: nat, a: Arrival) {
    a.pkt.Sequenced() && a.pkt.seqNo == last + 1
  }

  predicate RunsOut(last: nat, a: Arrival) {
    a.pkt.Sequenced() && a.pkt.seqNo > last + 1 && a.expired
  }

  ghost predicate Undecided(last: nat, arrivals: seq<Arrival>) {
    forall a <- arrivals :: !Continues(last, a) && !RunsOut(last, a)
  }

  function Above(last: nat, pkts: seq<DataPacket>): seq<DataPacket> {
    if pkts == [] then []
    else Above(last, pkts[..|pkts| - 1]) + if pkts[|pkts| - 1].seqNo > last then [pkts[|pkts| - 1]] else []
  }

  /** The packets of the sequence, or all the others. */
  function Only(sequenced: bool, pkts: seq<DataPacket>): seq<DataPacket> {
    if pkts == [] then []
    else
      var last := pkts[|pkts| - 1];
      Only(sequenced, pkts[..|pkts| - 1]) + if last.Sequenced() == sequenced then [last] else []
  }

  lemma AboveOneMore(last: nat, pkts: seq<DataPacket>, pkt: DataPacket)
    ensures Above(last, pkts + [pkt]) == if pkt.seqNo > last then Above(last, pkts) + [pkt] else Above(last, pkts)
  {
    assert (pkts + [pkt])[..|pkts|] == pkts;
  }

  lemma OnlyOneMore(sequenced: bool, pkts: seq<DataPacket>, pkt: DataPacket)
    ensures Only(sequenced, pkts + [pkt]) ==
            if pkt.Sequenced() == sequenced then Only(sequenced, pkts) + [pkt] else Only(sequenced, pkts)
  {
    assert (pkts + [pkt])[..|pkts|] == pkts;
  }

  lemma {:induction false} OnlyIsOnly(sequenced: bool, pkts: seq<DataPacket>)
    ensures forall pkt <- Only(sequenced, pkts) :: pkt.Sequenced() == sequenced
    decreases |pkts|
  {
    if pkts != [] { OnlyIsOnly(sequenced, pkts[..|pkts| - 1]); }
  }

  lemma {:induction false} NoneOfTheOthers(sequenced: bool, pkts: seq<DataPacket>)
    requires forall pkt <- pkts :: pkt.Sequenced() != sequenced
    ensures Only(sequenced, pkts) == []
    decreases |pkts|
  {
    if pkts != [] { NoneOfTheOthers(sequenced, pkts[..|pkts| - 1]); }
  }

  lemma PacketsOneMore(arrivals: seq<Arrival>)
    requires arrivals != []
    ensures var init := arrivals[..|arrivals| - 1];
            Packets(arrivals) == Packets(init) + [arrivals[|arrivals| - 1].pkt]
  {
  }

  // ---------- direct processing ----------

  lemma HandleAllOneMore(p: Publisher, pkts: seq<DataPacket>, pkt: DataPacket)
    ensures HandleAll(p, pkts + [pkt]) == Handle(HandleAll(p, pkts), pkt)
  {
    assert (pkts + [pkt])[..|pkts|] == pkts;
  }

  lemma {:induction false} HandleAllInTwo(p: Publisher, pkts: seq<DataPacket>, more: seq<DataPacket>)
    ensures HandleAll(p, pkts + more) == HandleAll(HandleAll(p, pkts), more)
    decreases |more|
  {
    if more == [] {
      assert pkts + more == pkts;
    } else {
      HandleAllInTwo(p, pkts, more[..|more| - 1]);
      assert (pkts + more)[..|pkts + more| - 1] == pkts + more[..|more| - 1];
    }
  }

  lemma OtherPasses(p: Publisher, pkt: DataPacket)
    ensures var p' := Handle(p, pkt);
            && p'.cache == p.cache && p'.stopped == p.stopped && p.lastSeq <= p'.lastSeq
            && Only(false, p'.forwarded) ==
               if pkt.Sequenced() then Only(false, p.forwarded) else Only(false, p.forwarded) + [pkt]
  {
    OnlyOneMore(false, p.forwarded, pkt);
  }

  /** Packets outside the sequence always pass; besides, only the last number changes, and only upwards. */
  lemma {:induction false} OthersPass(p: Publisher, pkts: seq<DataPacket>)
    ensures var p' := HandleAll(p, pkts);
            && p'.cache == p.cache && p'.stopped == p.stopped && p.lastSeq <= p'.lastSeq
            && Only(false, p'.forwarded) == Only(false, p.forwarded) + Only(false, pkts)
    decreases |pkts|
  {
    if pkts != [] {
      var init, last := pkts[..|pkts| - 1], pkts[|pkts| - 1];
      OthersPass(p, init);
      OtherPasses(HandleAll(p, init), last);
      if last.Sequenced() { assert Only(false, pkts) == Only(false, init); }
    }
  }

  /** The same as far as the sequence goes: its last number, its forwarded packets, and the mode. */
  ghost predicate Agree(p: Publisher, q: Publisher) {
    && p.lastSeq == q.lastSeq && p.stopped == q.stopped && p.cache == q.cache
    && Only(true, p.forwarded) == Only(true, q.forwarded)
  }

  lemma HandleAgrees(p: Publisher, q: Publisher, pkt: DataPacket)
    requires Agree(p, q)
    ensures Agree(Handle(p, pkt), Handle(q, pkt)) && (!pkt.Sequenced() ==> Agree(Handle(p, pkt), q))
  {
    OnlyOneMore(true, p.forwarded, pkt);
    OnlyOneMore(true, q.forwarded, pkt);
  }

  lemma {:induction false} HandleAllAgrees(p: Publisher, q: Publisher, pkts: seq<DataPacket>)
    requires Agree(p, q)
    ensures Agree(HandleAll(p, pkts), HandleAll(q, pkts))
    decreases |pkts|
  {
    if pkts != [] {
      var init := pkts[..|pkts| - 1];
      HandleAllAgrees(p, q, init);
      HandleAgrees(HandleAll(p, init), HandleAll(q, init), pkts[|pkts| - 1]);
    }
  }

  /** Packets outside the sequence make no difference to it, */
  lemma {:induction false} OthersMakeNoDifference(p: Publisher, pkts: seq<DataPacket>)
    ensures Agree(HandleAll(p, pkts), HandleAll(p, Only(true, pkts)))
    decreases |pkts|
  {
    if pkts != [] {
      var init, last := pkts[..|pkts| - 1], pkts[|pkts| - 1];
      OthersMakeNoDifference(p, init);
      HandleAgrees(HandleAll(p, init), HandleAll(p, Only(true, init)), last);
      if last.Sequenced() {
        HandleAllOneMore(p, Only(true, init), last);
      } else {
        assert Only(true, pkts) == Only(true, init);
      }
    }
  }

  /** nor do packets of the sequence at or below its last number. */
  lemma {:induction false} DirectIgnoresOld(p: Publisher, pkts: seq<DataPacket>)
    requires forall pkt <- pkts :: pkt.Sequenced()
    ensures HandleAll(p, Above(p.lastSeq, pkts)) == HandleAll(p, pkts)
    decreases |pkts|
  {
    if pkts != [] {
      var init, x := pkts[..|pkts| - 1], pkts[|pkts| - 1];
      DirectIgnoresOld(p, init);
      OthersPass(p, init);
      assert x in pkts;
      if x.seqNo > p.lastSeq {
        HandleAllOneMore(p, Above(p.lastSeq, init), x);
      } else {
        assert Above(p.lastSeq, pkts) == Above(p.lastSeq, init);
      }
    }
  }

  /** The packet at position i is numbered above `low` and above every packet of the sequence before it. */
  predicate Rises(low: nat, pkts: seq<DataPacket>, i: nat)
    requires i < |pkts|
  {
    low < pkts[i].seqNo && forall k :: 0 <= k < i && pkts[k].Sequenced() ==> pkts[k].seqNo < pkts[i].seqNo
  }

  predicate Passes(low: nat, pkts: seq<DataPacket>, i: nat)
    requires i < |pkts|
  {
    pkts[i].Sequenced() ==> Rises(low, pkts, i)
  }

  /** The packets that rise, and all packets outside the sequence, in the order they came. */
  function Passing(low: nat, pkts: seq<DataPacket>): seq<DataPacket> {
    if pkts == [] then []
    else
      var n := |pkts| - 1;
      Passing(low, pkts[..n]) + if Passes(low, pkts, n) then [pkts[n]] else []
  }

  /** The last number is the greatest so far. */
  ghost predicate IsHighest(high: nat, low: nat, pkts: seq<DataPacket>) {
    && low <= high && (forall pkt <- pkts :: pkt.Sequenced() ==> pkt.seqNo <= high)
    && (high == low || exists pkt <- pkts :: pkt.Sequenced() && pkt.seqNo == high)
  }

  /**
   Processed directly, a packet of the sequence is forwarded if and only if its number is above the last one at the
   start and above all numbers of the sequence that came before it, however large the gap.
   */
  lemma {:induction false} DirectForwardsRising(p: Publisher, pkts: seq<DataPacket>)
    ensures HandleAll(p, pkts).forwarded == p.forwarded + Passing(p.lastSeq, pkts)
    ensures IsHighest(HandleAll(p, pkts).lastSeq, p.lastSeq, pkts)
    decreases |pkts|
  {
    if pkts != [] {
      var init, pkt := pkts[..|pkts| - 1], pkts[|pkts| - 1];
      DirectForwardsRising(p, init);
      assert pkts == init + [pkt];
      HighestDecides(HandleAll(p, init).lastSeq, p.lastSeq, init, pkt);
    }
  }

  lemma HighestDecides(high: nat, low: nat, init: seq<DataPacket>, pkt: DataPacket)
    requires IsHighest(high, low, init)
    ensures Passes(low, init + [pkt], |init|) <==> !pkt.Sequenced() || high < pkt.seqNo
    ensures IsHighest(if pkt.Sequenced() && high < pkt.seqNo then pkt.seqNo else high, low, init + [pkt])
  {
    var pkts := init + [pkt];
    assert pkts[|init|] == pkt;
    if high != low {
      var top :| top in init && top.Sequenced() && top.seqNo == high;
      var k :| 0 <= k < |init| && init[k] == top;
      assert pkts[k] == top;
    }
    forall k | 0 <= k < |init| ensures pkts[k] == init[k] && pkts[k] in init {}
  }

  // ---------- arrivals after a migration ----------

  /** A publisher without a cache, after these packets. */
  function Resumed(last: nat, passed: seq<DataPacket>): Publisher {
    Uncached(last).(forwarded := passed)
  }

  /** A publisher that still waits: packets of the sequence above the last one are held back, the others have passed. */
  function Held(last: nat, pkts: seq<DataPacket>): Publisher {
    Resumed(last, Only(false, pkts)).(cache := Some(Cache(last, Above(last, Only(true, pkts)), Waiting)))
  }

  lemma WaitingHolds(last: nat, passed: seq<DataPacket>, kept: seq<DataPacket>, a: Arrival)
    requires a.pkt.Sequenced() && !Continues(last, a) && !RunsOut(last, a)
    ensures Receive(Resumed(last, passed).(cache := Some(Cache(last, kept, Waiting))), a.pkt, a.expired) ==
            Resumed(last, passed).(
              cache := Some(Cache(last, if a.pkt.seqNo > last then kept + [a.pkt] else kept, Waiting)))
  {
  }

  lemma HeldOneMore(last: nat, pkts: seq<DataPacket>, a: Arrival)
    requires !Continues(last, a) && !RunsOut(last, a)
    ensures Receive(Held(last, pkts), a.pkt, a.expired) == Held(last, pkts + [a.pkt])
  {
    OnlyOneMore(true, pkts, a.pkt);
    OnlyOneMore(false, pkts, a.pkt);
    if a.pkt.Sequenced() {
      AboveOneMore(last, Only(true, pkts), a.pkt);
      WaitingHolds(last, Only(false, pkts), Above(last, Only(true, pkts)), a);
    }
  }

  /**
   Until the sequence continues or the deadline passes, no packet of the sequence is forwarded: those above the last one
   are held back, and all packets outside the sequence pass, in order.
   */
  lemma {:induction false} NothingForwardedWhileWaiting(last: nat, arrivals: seq<Arrival>)
    requires Undecided(last, arrivals)
    ensures ReceiveAll(Migrated(last), arrivals) == Held(last, Packets(arrivals))
    decreases |arrivals|
  {
    if arrivals != [] {
      var init, a := arrivals[..|arrivals| - 1], arrivals[|arrivals| - 1];
      assert a in arrivals;
      NothingForwardedWhileWaiting(last, init);
      PacketsOneMore(arrivals);
      HeldOneMore(last, Packets(init), a);
    }
  }

  lemma ReceiveOneMore(p: Publisher, before: seq<Arrival>, a: Arrival)
    ensures ReceiveAll(p, before + [a]) == Receive(ReceiveAll(p, before), a.pkt, a.expired)
  {
    assert (before + [a])[..|before|] == before;
  }

  lemma {:induction false} ReceiveAllInTwo(p: Publisher, before: seq<Arrival>, more: seq<Arrival>)
    ensures ReceiveAll(p, before + more) == ReceiveAll(ReceiveAll(p, before), more)
    decreases |more|
  {
    if more == [] {
      assert before + more == before;
    } else {
      ReceiveAllInTwo(p, before, more[..|more| - 1]);
      assert (before + more)[..|before + more| - 1] == before + more[..|more| - 1];
    }
  }

  /** Without a cache every arrival is processed directly. */
  lemma {:induction false} DirectWithoutCache(p: Publisher, arrivals: seq<Arrival>)
    requires p.cache.None? && !p.stopped
    ensures ReceiveAll(p, arrivals) == HandleAll(p, Packets(arrivals))
    decreases |arrivals|
  {
    if arrivals != [] {
      var init, a := arrivals[..|arrivals| - 1], arrivals[|arrivals| - 1];
      DirectWithoutCache(p, init);
      OthersPass(p, Packets(init));
      PacketsOneMore(arrivals);
      HandleAllOneMore(p, Packets(init), a.pkt);
    }
  }

  lemma DirectAfterwards(
    p: Publisher, before: seq<Arrival>, base: Publisher, first: seq<DataPacket>, more: seq<Arrival>)
    requires ReceiveAll(p, before) == HandleAll(base, first)
    requires !base.stopped && base.cache.None?
    ensures ReceiveAll(p, before + more) == HandleAll(base, first + Packets(more))
  {
    ReceiveAllInTwo(p, before, more);
    OthersPass(base, first);
    DirectWithoutCache(HandleAll(base, first), more);
    HandleAllInTwo(base, first, Packets(more));
  }

  lemma ContinuingStartsAfresh(last: nat, before: seq<Arrival>, a: Arrival)
    requires Undecided(last, before) && Continues(last, a)
    ensures ReceiveAll(Migrated(last), before + [a]) ==
            HandleAll(Resumed(last, Only(false, Packets(before))), [a.pkt])
    ensures ReceiveAll(Migrated(last), before + [a]) ==
            Resumed(last + 1, Only(false, Packets(before)) + [a.pkt])
  {
    NothingForwardedWhileWaiting(last, before);
    ReceiveOneMore(Migrated(last), before, a);
    HandleAllOneMore(Resumed(last, Only(false, Packets(before))), [], a.pkt);
    assert [] + [a.pkt] == [a.pkt];
  }

  /**
   If the sequence continues in time, what was held back is dropped, and after the packets that had passed the output is
   direct processing from the continuing packet on: the sequence starts at exactly last + 1, and goes on with the
   packets that rise above that.
   */
  lemma ContinuedEqualsDirectFromThere(last: nat, before: seq<Arrival>, a: Arrival, more: seq<Arrival>)
    requires Undecided(last, before) && Continues(last, a)
    ensures ReceiveAll(Migrated(last), before + [a] + more) ==
            HandleAll(Resumed(last, Only(false, Packets(before))), [a.pkt] + Packets(more))
    ensures ReceiveAll(Migrated(last), before + [a]) ==
            Resumed(last + 1, Only(false, Packets(before)) + [a.pkt])
    ensures ReceiveAll(Migrated(last), before + [a] + more).forwarded ==
            Only(false, Packets(before)) + [a.pkt] + Passing(last + 1, Packets(more))
  {
    var start := Resumed(last, Only(false, Packets(before)));
    ContinuingStartsAfresh(last, before, a);
    DirectAfterwards(Migrated(last), before + [a], start, [a.pkt], more);
    HandleAllInTwo(start, [a.pkt], Packets(more));
    DirectForwardsRising(HandleAll(start, [a.pkt]), Packets(more));
  }

  lemma HeldIsReleased(last: nat, pkts: seq<DataPacket>, a: Arrival)
    requires RunsOut(last, a)
    ensures Receive(Held(last, pkts), a.pkt, a.expired) ==
            HandleAll(Resumed(last, Only(false, pkts)), Above(last, Only(true, pkts + [a.pkt])))
  {
    OnlyOneMore(true, pkts, a.pkt);
    AboveOneMore(last, Only(true, pkts), a.pkt);
  }

  /** At the timeout what was held back is processed, the packet that ran out of time last. */
  lemma TimeoutReleasesCached(last: nat, before: seq<Arrival>, a: Arrival)
    requires Undecided(last, before) && RunsOut(last, a)
    ensures ReceiveAll(Migrated(last), before + [a]) ==
            HandleAll(Resumed(last, Only(false, Packets(before))), Above(last, Only(true, Packets(before + [a]))))
  {
    NothingForwardedWhileWaiting(last, before);
    ReceiveOneMore(Migrated(last), before, a);
    assert Packets(before + [a]) == Packets(before) + [a.pkt];
    HeldIsReleased(last, Packets(before), a);
  }

  /** What was released agrees with direct processing, and so does all that follows. */
  lemma ReleasedAgrees(last: nat, passed: seq<DataPacket>, pkts: seq<DataPacket>, more: seq<DataPacket>)
    requires Only(true, passed) == []
    ensures Agree(HandleAll(Resumed(last, passed), Above(last, Only(true, pkts)) + more),
                  HandleAll(Uncached(last), pkts + more))
  {
    var base, numbered := Resumed(last, passed), Only(true, pkts);
    OnlyIsOnly(true, pkts);
    DirectIgnoresOld(base, numbered);
    HandleAllAgrees(base, Uncached(last), numbered);
    OthersMakeNoDifference(Uncached(last), pkts);
    HandleAllAgrees(HandleAll(base, numbered), HandleAll(Uncached(last), pkts), more);
    HandleAllInTwo(base, Above(last, numbered), more);
    HandleAllInTwo(Uncached(last), pkts, more);
  }

  lemma TimedOutAgrees(last: nat, before: seq<Arrival>, a: Arrival, more: seq<Arrival>)
    requires Undecided(last, before) && RunsOut(last, a)
    ensures Agree(ReceiveAll(Migrated(last), before + [a] + more),
                  HandleAll(Uncached(last), Packets(before + [a]) + Packets(more)))
  {
    var passed, upTo := Only(false, Packets(before)), before + [a];
    TimeoutReleasesCached(last, before, a);
    DirectAfterwards(Migrated(last), upTo, Resumed(last, passed), Above(last, Only(true, Packets(upTo))), more);
    OnlyIsOnly(false, Packets(before));
    NoneOfTheOthers(true, passed);
    ReleasedAgrees(last, passed, Packets(upTo), Packets(more));
  }

  /**
   If the deadline passes first, the output is what processing every arrival without a cache would have produced: the
   same packets of the sequence in the same order, and the same others; only their interleaving may differ. So of all
   that ever arrived, those packets of the sequence are forwarded that rise above the last one and all before them.
   */
  lemma TimedOutEqualsDirect(last: nat, before: seq<Arrival>, a: Arrival, more: seq<Arrival>)
    requires Undecided(last, before) && RunsOut(last, a)
    ensures var all := before + [a] + more;
            var p, direct := ReceiveAll(Migrated(last), all), HandleAll(Uncached(last), Packets(all));
            Agree(p, direct) && Only(false, p.forwarded) == Only(false, direct.forwarded)
    ensures var all := before + [a] + more;
            Only(true, ReceiveAll(Migrated(last), all).forwarded) == Only(true, Passing(last, Packets(all)))
  {
    var all := before + [a] + more;
    assert Packets(before + [a]) + Packets(more) == Packets(all);
    TimedOutAgrees(last, before, a, more);
    OthersAlwaysPass(Migrated(last), all);
    OthersPass(Uncached(last), Packets(all));
    DirectForwardsRising(Uncached(last), Packets(all));
    assert [] + Passing(last, Packets(all)) == Passing(last, Packets(all));
  }

  ghost predicate HoldsSequencedOnly(p: Publisher) {
    p.cache.Some? ==> forall pkt <- p.cache.value.pkts :: pkt.Sequenced()
  }

  lemma ReleasingPassesOthers(p: Publisher, pkts: seq<DataPacket>)
    requires forall pkt <- pkts :: pkt.Sequenced()
    ensures Only(false, HandleAll(p.(cache := None), pkts).forwarded) == Only(false, p.forwarded)
    ensures HandleAll(p.(cache := None), pkts).cache.None?
  {
    OthersPass(p.(cache := None), pkts);
    NoneOfTheOthers(false, pkts);
  }

  lemma OthersPassOneMore(p: Publisher, a: Arrival)
    requires HoldsSequencedOnly(p)
    ensures HoldsSequencedOnly(Receive(p, a.pkt, a.expired))
    ensures Only(false, Receive(p, a.pkt, a.expired).forwarded) == Only(false, p.forwarded + [a.pkt])
  {
    OnlyOneMore(false, p.forwarded, a.pkt);
    if a.pkt.Sequenced() && !p.stopped && p.cache.Some? {
      var c := AfterAdd(p.cache.value, a.pkt, a.expired);
      if c.state == TimedOut { ReleasingPassesOthers(p, c.pkts); }
    }
  }

  /** Whatever the cache does, packets outside the sequence pass, all of them and in order. */
  lemma {:induction false} OthersAlwaysPass(p: Publisher, arrivals: seq<Arrival>)
    requires HoldsSequencedOnly(p)
    ensures var p' := ReceiveAll(p, arrivals);
            && HoldsSequencedOnly(p')
            && Only(false, p'.forwarded) == Only(false, p.forwarded) + Only(false, Packets(arrivals))
    decreases |arrivals|
  {
    if arrivals != [] {
      var init, a := arrivals[..|arrivals| - 1], arrivals[|arrivals| - 1];
      OthersAlwaysPass(p, init);
      OthersPassOneMore(ReceiveAll(p, init), a);
      OnlyOneMore(false, ReceiveAll(p, init).forwarded, a.pkt);
      PacketsOneMore(arrivals);
      OnlyOneMore(false, Packets(init), a.pkt);
    }
  }

  /** The cache waits up to some arrival and is gone after it: the first that continues the sequence or runs out. */
  lemma {:induction false} EveryRunIsDecidedOnce(last: nat, arrivals: seq<Arrival>) returns (k: nat)
    ensures k <= |arrivals| && Undecided(last, arrivals[..k])
    ensures k < |arrivals| ==> Continues(last, arrivals[k]) || RunsOut(last, arrivals[k])
    ensures forall n :: 0 <= n <= |arrivals| ==>
              (ReceiveAll(Migrated(last), arrivals[..n]).cache.Some? <==> n <= k)
    decreases |arrivals|
  {
    if arrivals == [] {
      return 0;
    }
    var init, a := arrivals[..|arrivals| - 1], arrivals[|arrivals| - 1];
    k := EveryRunIsDecidedOnce(last, init);
    assert init[..k] == arrivals[..k] && init[..|init|] == init && arrivals[..|arrivals|] == arrivals == init + [a];
    DecidedByLast(last, init, a);
    if k == |init| && !Continues(last, a) && !RunsOut(last, a) { k := |arrivals|; }
    forall n | 0 <= n < |arrivals| ensures arrivals[..n] == init[..n] {}
  }

  lemma DecidedByLast(last: nat, init: seq<Arrival>, a: Arrival)
    ensures var p, p' := ReceiveAll(Migrated(last), init), ReceiveAll(Migrated(last), init + [a]);
            && (p.cache.None? ==> p'.cache.None?)
            && (Undecided(last, init) ==> (p'.cache.None? <==> Continues(last, a) || RunsOut(last, a)))
  {
    ReceiveOneMore(Migrated(last), init, a);
    if Undecided(last, init) {
      NothingForwardedWhileWaiting(last, init);
      if Continues(last, a) {
        ContinuingStartsAfresh(last, init, a);
      } else if RunsOut(last, a) {
        TimeoutReleasesCached(last, init, a);
        OthersPass(Resumed(last, Only(false, Packets(init))), Above(last, Only(true, Packets(init + [a]))));
      } else {
        HeldOneMore(last, Packets(init), a);
      }
    }
  }

  /** After migrating out, the sequence number handed over is final: no sequenced packet is forwarded any more. */
  lemma {:induction false} HandedOverSequenceIsFinal(p: Publisher, arrivals: seq<Arrival>)
    requires p.stopped
    ensures var p' := ReceiveAll(p, arrivals);
            && p'.stopped && p'.lastSeq == p.lastSeq && p.forwarded <= p'.forwarded
            && forall pkt <- p'.forwarded[|p.forwarded|..] :: !pkt.Sequenced()
    decreases |arrivals|
  {
    if arrivals != [] {
      HandedOverSequenceIsFinal(p, arrivals[..|arrivals| - 1]);
    }
  }
}
