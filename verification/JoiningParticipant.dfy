/**
 What a joining or migrating participant does with reliable data messages (pkg/rtc/participant.go), and the part
 of the room that serves it the cached ones (pkg/rtc/room.go).
 */
module JoiningParticipant {
  datatype ParticipantID = ParticipantID(sid: string)
  datatype Identity = Identity(name: string)

  const NO_PARTICIPANT := ParticipantID("")

  /** `dest` lists the addressed identities; nobody listed means everybody. */
  datatype DataMessage = DataMessage(sender: ParticipantID, seqNo: nat, dest: seq<Identity>)

  predicate AddressedTo(m: DataMessage, me: Identity) {
    m.dest == [] || me in m.dest
  }

  /** `out` is what has been handed to the participant's transport. */
  datatype Joiner = Joiner(
    firstSeqs: map<ParticipantID, nat>,
    lastWritten: map<ParticipantID, nat>,
    canWrite: bool,
    out: seq<DataMessage>)

  function AfterSend(j: Joiner, m: DataMessage): Joiner {
    if !j.canWrite then
      if m.sender in j.firstSeqs then j else j.(firstSeqs := j.firstSeqs[m.sender := m.seqNo])
    else if m.sender !in j.lastWritten then
      j.(out := j.out + [m])
    else if m.seqNo <= j.lastWritten[m.sender] then
      j
    else
      j.(lastWritten := j.lastWritten - {m.sender}, out := j.out + [m])
  }

  predicate Wanted(m: DataMessage, firstSeqs: map<ParticipantID, nat>) {
    m.sender in firstSeqs && m.seqNo >= firstSeqs[m.sender]
  }

  function Selected(cache: seq<DataMessage>, firstSeqs: map<ParticipantID, nat>): seq<DataMessage> {
    if cache == [] then []
    else
      var last := cache[|cache| - 1];
      Selected(cache[..|cache| - 1], firstSeqs) + if Wanted(last, firstSeqs) then [last] else []
  }

  function AfterReplayOf(j: Joiner, m: DataMessage, me: Identity): Joiner {
    if !AddressedTo(m, me) then j
    else
      var last :=
        if m.sender in j.lastWritten && m.seqNo <= j.lastWritten[m.sender] then j.lastWritten[m.sender] else m.seqNo;
      j.(lastWritten := j.lastWritten[m.sender := last], out := j.out + [m])
  }

  function AfterReplayOfAll(j: Joiner, msgs: seq<DataMessage>, me: Identity): Joiner {
    if msgs == [] then j
    else AfterReplayOf(AfterReplayOfAll(j, msgs[..|msgs| - 1], me), msgs[|msgs| - 1], me)
  }

  function AfterReplay(j: Joiner, cache: seq<DataMessage>, me: Identity): Joiner {
    AfterReplayOfAll(j, Selected(cache, j.firstSeqs), me).(firstSeqs := map[], canWrite := true)
  }

  function WithReceiveState(firstSeqs: map<ParticipantID, nat>, states: seq<(ParticipantID, nat)>)
    : map<ParticipantID, nat>
  {
    if states == [] then firstSeqs
    else
      var last := states[|states| - 1];
      WithReceiveState(firstSeqs, states[..|states| - 1])[last.0 := last.1 + 1]
  }

  /** The room's answer to a replay: the cached messages at or past the wanted sequence numbers, in cache order. */
  method GetCachedReliableDataMessage(cache: seq<DataMessage>, seqs: map<ParticipantID, nat>)
    returns (msgs: seq<DataMessage>)
    ensures msgs == Selected(cache, seqs)
  {
    msgs := [];
    for i := 0 to |cache|
      invariant msgs == Selected(cache[..i], seqs)
    {
      assert cache[..i + 1][..i] == cache[..i];
      if cache[i].sender in seqs && cache[i].seqNo >= seqs[cache[i].sender] {
        msgs := msgs + [cache[i]];
      }
    }
    assert cache[..|cache|] == cache;
  }

  class Participant {
    const identity: Identity
    var active: bool
    var joiningMessageFirstSeqs: map<ParticipantID, nat>
    var joiningMessageLastWrittenSeqs: map<ParticipantID, nat>
    var canWriteReliable: bool
    var out: seq<DataMessage>

    function View(): Joiner
      reads this
    {
      Joiner(joiningMessageFirstSeqs, joiningMessageLastWrittenSeqs, canWriteReliable, out)
    }

    constructor (identity: Identity)
      ensures View() == Joiner(map[], map[], false, []) && this.identity == identity && !active
    {
      this.identity := identity;
      active := false;
      joiningMessageFirstSeqs, joiningMessageLastWrittenSeqs, canWriteReliable, out := map[], map[], false, [];
    }

    method SetMigrateInfo(states: seq<(ParticipantID, nat)>)
      modifies this`joiningMessageFirstSeqs
      ensures View() == old(View()).(firstSeqs := WithReceiveState(old(joiningMessageFirstSeqs), states))
    {
      for i := 0 to |states|
        invariant joiningMessageFirstSeqs == WithReceiveState(old(joiningMessageFirstSeqs), states[..i])
      {
        assert states[..i + 1][..i] == states[..i];
        joiningMessageFirstSeqs := joiningMessageFirstSeqs[states[i].0 := states[i].1 + 1];
      }
      assert states[..|states|] == states;
    }

    /** Messages without a sender, a sequence number or the reliable kind bypass the hand-off. */
    method SendDataMessage(reliable: bool, m: DataMessage) returns (ok: bool)
      modifies this
      ensures active == old(active)
      ensures reliable && m.sender != NO_PARTICIPANT && m.seqNo != 0 ==> ok && View() == AfterSend(old(View()), m)
      ensures !(reliable && m.sender != NO_PARTICIPANT && m.seqNo != 0) ==>
                ok == active && View() == old(View()).(out := if active then old(out) + [m] else old(out))
    {
      if m.sender == NO_PARTICIPANT || !reliable || m.seqNo == 0 {
        if !active {
          return false;
        }
        out := out + [m];
        return true;
      }
      if !canWriteReliable {
        if m.sender !in joiningMessageFirstSeqs {
          joiningMessageFirstSeqs := joiningMessageFirstSeqs[m.sender := m.seqNo];
        }
        return true;
      }
      if m.sender in joiningMessageLastWrittenSeqs {
        if m.seqNo <= joiningMessageLastWrittenSeqs[m.sender] {
          return true;
        }
        joiningMessageLastWrittenSeqs := joiningMessageLastWrittenSeqs - {m.sender};
      }
      out := out + [m];
      return true;
    }

    method ReplayJoiningReliableMessages(cache: seq<DataMessage>)
      modifies this
      ensures active == old(active) && View() == AfterReplay(old(View()), cache, identity)
    {
      var msgs := GetCachedReliableDataMessage(cache, joiningMessageFirstSeqs);
      for i := 0 to |msgs|
        invariant active == old(active) && View() == AfterReplayOfAll(old(View()), msgs[..i], identity)
      {
        var m := msgs[i];
        assert msgs[..i + 1][..i] == msgs[..i];
        if |m.dest| != 0 && identity !in m.dest {
          continue;
        }
        if m.sender !in joiningMessageLastWrittenSeqs || joiningMessageLastWrittenSeqs[m.sender] < m.seqNo {
          joiningMessageLastWrittenSeqs := joiningMessageLastWrittenSeqs[m.sender := m.seqNo];
        }
        out := out + [m];
      }
      assert msgs[..|msgs|] == msgs;
      joiningMessageFirstSeqs := map[];
      canWriteReliable := true;
    }
  }

  // ---------- what a replay writes ----------

  /** Per sender, sequence numbers only go up. */
  ghost predicate Ordered(q: seq<DataMessage>) {
    forall i, k :: 0 <= i < k < |q| && q[i].sender == q[k].sender ==> q[i].seqNo < q[k].seqNo
  }

  lemma OrderedOneMore(q: seq<DataMessage>, m: DataMessage)
    requires Ordered(q) && forall o <- q :: o.sender == m.sender ==> o.seqNo < m.seqNo
    ensures Ordered(q + [m])
  {
  }

  lemma {:induction false} SelectedIsWanted(cache: seq<DataMessage>, firstSeqs: map<ParticipantID, nat>)
    requires Ordered(cache)
    ensures Ordered(Selected(cache, firstSeqs))
    ensures forall m :: m in Selected(cache, firstSeqs) <==> m in cache && Wanted(m, firstSeqs)
    decreases |cache|
  {
    if cache != [] {
      var init, last := cache[..|cache| - 1], cache[|cache| - 1];
      assert cache == init + [last];
      SelectedIsWanted(init, firstSeqs);
      assert forall o <- init :: o.sender == last.sender ==> o.seqNo < last.seqNo;
      OrderedOneMore(Selected(init, firstSeqs), last);
    }
  }

  /** `lastWritten` bounds what was written for a sender, and is attained. */
  ghost predicate LastWrittenOk(j: Joiner) {
    && (forall o <- j.out :: o.sender in j.lastWritten ==> o.seqNo <= j.lastWritten[o.sender])
    && (forall s <- j.lastWritten :: exists o <- j.out :: o.sender == s && o.seqNo == j.lastWritten[s])
  }

  /** Handing m to the transport and recording it as the last one written. */
  lemma LastWrittenAfterReplayOf(j: Joiner, m: DataMessage, me: Identity)
    requires LastWrittenOk(j) && AddressedTo(m, me)
    requires forall o <- j.out :: o.sender == m.sender ==> o.seqNo < m.seqNo
    ensures LastWrittenOk(AfterReplayOf(j, m, me))
    ensures AfterReplayOf(j, m, me).lastWritten == j.lastWritten[m.sender := m.seqNo]
  {
    var j' := AfterReplayOf(j, m, me);
    if m.sender in j.lastWritten {
      var o :| o in j.out && o.sender == m.sender && o.seqNo == j.lastWritten[m.sender];
    }
    assert m in j'.out;
    forall s <- j'.lastWritten ensures exists o <- j'.out :: o.sender == s && o.seqNo == j'.lastWritten[s] {
      if s != m.sender {
        var o :| o in j.out && o.sender == s && o.seqNo == j.lastWritten[s];
        assert o in j'.out;
      }
    }
  }

  /** Replaying into a participant that has written nothing writes exactly the addressed messages, in order. */
  lemma {:induction false} ReplayWritesAddressed(j: Joiner, msgs: seq<DataMessage>, me: Identity)
    requires Ordered(msgs) && j.out == []
    ensures var j' := AfterReplayOfAll(j, msgs, me);
            && Ordered(j'.out) && (forall m :: m in j'.out <==> m in msgs && AddressedTo(m, me))
            && j'.canWrite == j.canWrite && j'.firstSeqs == j.firstSeqs
    decreases |msgs|
  {
    if msgs != [] {
      var init, m := msgs[..|msgs| - 1], msgs[|msgs| - 1];
      assert msgs == init + [m];
      ReplayWritesAddressed(j, init, me);
      if AddressedTo(m, me) {
        assert forall o <- init :: o.sender == m.sender ==> o.seqNo < m.seqNo;
        OrderedOneMore(AfterReplayOfAll(j, init, me).out, m);
      }
    }
  }

  lemma {:induction false} ReplayTracksLastWritten(j: Joiner, msgs: seq<DataMessage>, me: Identity)
    requires Ordered(msgs) && j.out == [] && j.lastWritten == map[]
    ensures var j' := AfterReplayOfAll(j, msgs, me);
            LastWrittenOk(j') && forall o <- j'.out :: o.sender in j'.lastWritten
    decreases |msgs|
  {
    if msgs != [] {
      var init, m := msgs[..|msgs| - 1], msgs[|msgs| - 1];
      ReplayTracksLastWritten(j, init, me);
      ReplayWritesAddressed(j, init, me);
      var j1 := AfterReplayOfAll(j, init, me);
      if AddressedTo(m, me) {
        forall o <- j1.out ensures o.sender == m.sender ==> o.seqNo < m.seqNo { assert o in init; }
        LastWrittenAfterReplayOf(j1, m, me);
      }
    }
  }
}
