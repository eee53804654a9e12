/**
 The copy loop of the relay (pkg/routing/signal.go) as steps of its reader: what CopyAll says of a whole stream is what
 the reader of the relay does with it packet by packet and message by message, while nobody receives from the channel.
 */
module SignalCopy {
  import opened Common
  import opened MessageChannels
  import opened SignalEndpoints
  import opened SignalRelay

  predicate IsReading(e: Event) {
    e.ReadPacket? || e.ForwardNext? || e.FinishPacket? || e.StreamEnds?
  }

  function Run(cfg: Config, s: System, es: seq<Event>): System
    decreases |es|
  {
    if es == [] then s else Run(cfg, Step(cfg, s, es[0]), es[1..])
  }

  lemma {:induction false} RunInTwo(cfg: Config, s: System, es: seq<Event>, more: seq<Event>)
    ensures Run(cfg, s, es + more) == Run(cfg, Run(cfg, s, es), more)
    decreases |es|
  {
    if es == [] {
      assert es + more == more;
    } else {
      assert (es + more)[1..] == es[1..] + more;
      RunInTwo(cfg, Step(cfg, s, es[0]), es[1..], more);
    }
  }

  lemma RunOne(cfg: Config, s: System, e: Event)
    ensures Run(cfg, s, [e]) == Step(cfg, s, e)
  {
    assert [e][1..] == [];
  }

  /** Forwarding message by message does what ForwardAll says. */
  lemma {:induction false} ForwardsAll(cfg: Config, s: System) returns (es: seq<Event>)
    requires s.phase.Forwarding?
    ensures forall e <- es :: IsReading(e)
    ensures var (c, refused) := ForwardAll(s.channel, s.phase.pending);
            var s' := Run(cfg, s, es);
            if refused.None? then s' == s.(channel := c, phase := s.phase.(pending := []))
            else s'.phase == Ended(WriteFailed(refused.value)) && s'.channel == c.(isClosed := true)
    decreases |s.phase.pending|
  {
    if s.phase.pending == [] { return []; }
    var s1 := Step(cfg, s, ForwardNext);
    if s1.phase.Ended? {
      RunOne(cfg, s, ForwardNext);
      return [ForwardNext];
    }
    var rest := ForwardsAll(cfg, s1);
    es := [ForwardNext] + rest;
    assert es[1..] == rest;
  }

  /** Once the packet has been forwarded, it is finished. */
  lemma Finishes(cfg: Config, s: System)
    requires s.phase.Forwarding? && s.phase.pending == []
    ensures Run(cfg, s, [FinishPacket]) == if s.phase.close then End(s, CleanClose) else s.(phase := Waiting)
  {
    RunOne(cfg, s, FinishPacket);
  }

  /** One packet that is not a gap: read, forwarded and finished. */
  lemma ReadsPacket(cfg: Config, s: System, msgs: seq<Message>) returns (es: seq<Event>)
    requires s.phase.Waiting? && s.inbox != [] && Trim(s.readSeq, s.inbox[0]) == Some(msgs)
    ensures forall e <- es :: IsReading(e)
    ensures var (c, refused) := ForwardAll(s.channel, msgs);
            var s' := Run(cfg, s, es);
            if refused.Some? then s'.phase == Ended(WriteFailed(refused.value)) && s'.channel == c.(isClosed := true)
            else if s.inbox[0].close then s'.phase == Ended(CleanClose) && s'.channel == c.(isClosed := true)
            else s' == s.(inbox := s.inbox[1..], readSeq := s.readSeq + |msgs|, channel := c)
  {
    var s1 := s.(inbox := s.inbox[1..], readSeq := s.readSeq + |msgs|, phase := Forwarding(msgs, s.inbox[0].close));
    RunOne(cfg, s, ReadPacket);
    assert Run(cfg, s, [ReadPacket]) == s1;
    var forwards := ForwardsAll(cfg, s1);
    es := [ReadPacket] + forwards;
    RunInTwo(cfg, s, [ReadPacket], forwards);
    if ForwardAll(s.channel, msgs).1.None? {
      Finishes(cfg, Run(cfg, s1, forwards));
      RunInTwo(cfg, s, es, [FinishPacket]);
      es := es + [FinishPacket];
    }
  }

  /** The reader goes through the inbox as CopyAll goes through the stream, to the same outcome and the same channel. */
  lemma {:induction false} ReaderCopies(cfg: Config, s: System) returns (es: seq<Event>)
    requires s.phase.Waiting?
    ensures forall e <- es :: IsReading(e)
    ensures var (c, outcome) := CopyAll(s.readSeq, s.channel, s.inbox);
            var s' := Run(cfg, s, es);
            s'.phase == Ended(outcome) && s'.channel == c.(isClosed := true)
    decreases |s.inbox|
  {
    if s.inbox == [] {
      RunOne(cfg, s, StreamEnds);
      return [StreamEnds];
    }
    var kept := Trim(s.readSeq, s.inbox[0]);
    if kept.None? {
      RunOne(cfg, s, ReadPacket);
      return [ReadPacket];
    }
    es := ReadsPacket(cfg, s, kept.value);
    if ForwardAll(s.channel, kept.value).1.None? && !s.inbox[0].close {
      var s1 := Run(cfg, s, es);
      assert CopyAll(s.readSeq, s.channel, s.inbox) == CopyAll(s1.readSeq, s1.channel, s1.inbox);
      var rest := ReaderCopies(cfg, s1);
      RunInTwo(cfg, s, es, rest);
      es := es + rest;
    }
  }
}
