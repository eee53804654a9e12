/**
 The hand-off to a participant that has migrated (pkg/rtc/participant.go): it brings, for each publisher, the number of
 the last message it received on its old node, and is served from the next one on.
 */
module MigratedHandoff {
  import opened Common
  import opened JoiningParticipant
  import opened ReliableHandoff

  /** The last that is said about a publisher. */
  predicate LastEntry(states: seq<(ParticipantID, nat)>, i: nat, p: ParticipantID, n: nat) {
    i < |states| && states[i] == (p, n) && forall k :: i < k < |states| ==> states[k].0 != p
  }

  predicate Mentions(e: Event, p: ParticipantID) {
    e.Migrate? && exists i :: 0 <= i < |e.states| && e.states[i].0 == p
  }

  predicate SameStart(first: map<ParticipantID, nat>, first': map<ParticipantID, nat>, p: ParticipantID) {
    (p in first' <==> p in first) && (p in first ==> first'[p] == first[p])
  }

  lemma {:induction false} UnmentionedStartStays(
    first: map<ParticipantID, nat>, states: seq<(ParticipantID, nat)>, p: ParticipantID)
    requires forall k :: 0 <= k < |states| ==> states[k].0 != p
    ensures SameStart(first, WithReceiveState(first, states), p)
    decreases |states|
  {
    if states != [] { UnmentionedStartStays(first, states[..|states| - 1], p); }
  }

  /** Of a publisher the participant has received up to n it wants the message after that. */
  lemma {:induction false} StartsAfterLastReceived(
    first: map<ParticipantID, nat>, states: seq<(ParticipantID, nat)>, i: nat, p: ParticipantID, n: nat)
    requires LastEntry(states, i, p, n)
    ensures var first' := WithReceiveState(first, states); p in first' && first'[p] == n + 1
    decreases |states|
  {
    if i < |states| - 1 { StartsAfterLastReceived(first, states[..|states| - 1], i, p, n); }
  }

  /** The replay starts, or has started, at this number of a publisher. */
  predicate StartsAt(s: System, p: ParticipantID, start: nat) {
    var first := if s.joiner.canWrite then s.first else s.joiner.firstSeqs;
    p in first && first[p] == start
  }

  lemma StepKeepsStart(cfg: Config, s: System, e: Event, p: ParticipantID, start: nat)
    requires StartsAt(s, p, start) && !Mentions(e, p)
    ensures StartsAt(Step(cfg, s, e), p, start)
  {
    if e.Migrate? && !s.joiner.canWrite {
      UnmentionedStartStays(s.joiner.firstSeqs, e.states, p);
    }
  }

  /** The receive states are taken over before the replay, and nothing more is said about the publisher later. */
  predicate MigratedWith(cfg: Config, es: seq<Event>, k: nat, i: nat, p: ParticipantID, n: nat) {
    && k < |es| && es[k].Migrate? && !Exec(cfg, es[..k]).joiner.canWrite && LastEntry(es[k].states, i, p, n)
    && forall j :: k < j < |es| ==> !Mentions(es[j], p)
  }

  lemma {:induction false} MigrationSetsStart(
    cfg: Config, es: seq<Event>, k: nat, i: nat, p: ParticipantID, n: nat)
    requires MigratedWith(cfg, es, k, i, p, n)
    ensures StartsAt(Exec(cfg, es), p, n + 1)
    decreases |es|
  {
    var init, e := es[..|es| - 1], es[|es| - 1];
    if k == |es| - 1 {
      StartsAfterLastReceived(Exec(cfg, init).joiner.firstSeqs, e.states, i, p, n);
    } else {
      assert init[..k] == es[..k];
      MigrationSetsStart(cfg, init, k, i, p, n);
      StepKeepsStart(cfg, Exec(cfg, init), e, p, n + 1);
    }
  }

  lemma StepKeepsWriting(cfg: Config, s: System, e: Event)
    requires s.joiner.canWrite
    ensures Step(cfg, s, e).joiner.canWrite
  {
  }

  lemma {:induction false} WritingStays(cfg: Config, es: seq<Event>, n: nat)
    requires n <= |es| && Exec(cfg, es[..n]).joiner.canWrite
    ensures Exec(cfg, es).joiner.canWrite
    decreases |es|
  {
    if n == |es| {
      assert es[..n] == es;
    } else {
      assert es[..|es| - 1][..n] == es[..n];
      WritingStays(cfg, es[..|es| - 1], n);
      StepKeepsWriting(cfg, Exec(cfg, es[..|es| - 1]), es[|es| - 1]);
    }
  }

  lemma ReplayIsLater(cfg: Config, es: seq<Event>, r: nat)
    requires r < |es| && es[r].Replay? && Exec(cfg, es[..r]).inRoom
    ensures Exec(cfg, es).joiner.canWrite
  {
    assert es[..r + 1][..r] == es[..r];
    WritingStays(cfg, es, r + 1);
  }

  /**
   A participant that migrates having received up to message n of a publisher: of that publisher's messages exactly
   those are written that the replay still found in the cache past n, addressed to the participant, and those delivered
   live. So nothing after n is missed that was broadcast and had not expired, and the replay repeats nothing up to n.
   */
  lemma MigratedHandOff(cfg: Config, es: seq<Event>, k: nat, i: nat, n: nat, m: DataMessage) returns (r: nat)
    requires MigratedWith(cfg, es, k, i, m.sender, n) && Exec(cfg, es).joiner.canWrite
    ensures k < r < |es| && es[r].Replay? && !Exec(cfg, es[..r]).joiner.canWrite
    ensures var s := Exec(cfg, es);
            m in s.written <==>
            m in s.live || (m in Exec(cfg, es[..r]).cache && m.seqNo > n && AddressedTo(m, cfg.identity))
    ensures var s := Exec(cfg, es);
            m.seqNo > n && m in s.settled && IsFor(cfg, m) && m !in s.suppressed && m !in s.lost ==> m in s.written
  {
    MigrationSetsStart(cfg, es, k, i, m.sender, n);
    r := WrittenIsReplayedOrLive(cfg, es);
    if r < k {
      assert es[..k][..r] == es[..r];
      ReplayIsLater(cfg, es[..k], r);
    }
    var s := Exec(cfg, es);
    if m.seqNo > n && m in s.settled && IsFor(cfg, m) && m !in s.suppressed && m !in s.lost {
      NothingIsMissed(cfg, es, m);
    }
  }
}
