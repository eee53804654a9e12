/**
 Progress of the signal relay (pkg/routing/signal.go): as long as nothing was lost, the stream is open and the reader
 goes on, what was accepted can still be delivered, and a close can still be completed, by the write loop, the network,
 the reader and the consumer alone.
 */
module SignalProgress {
  import opened Common
  import opened MessageChannels
  import opened SignalEndpoints
  import opened SignalRelay

  /** Nobody writes, closes or gives up: the write loop sends and is acknowledged, the rest is delivery. */
  predicate IsWork(e: Event) {
    || e.LoopStarts? || (e.SendReturns? && e.ok) || e.Arrives?
    || e.ReadPacket? || e.ForwardNext? || e.FinishPacket? || e.Take?
  }

  /** The reader goes on and can be delivered to. */
  predicate Open(s: System) {
    !s.phase.Ended? && !s.channel.isClosed && s.channel.capacity > 0
  }

  // ---------- what there is to send is being sent ----------

  /** As long as the stream is open, a write loop runs while anything is queued or a close is under way. */
  predicate Served(s: Sink) {
    (s.queue != [] || s.draining) && !s.streamClosed ==> s.writing
  }

  lemma StepKeepsServed(cfg: Config, s: System, e: Event)
    requires Inv(s) && Served(s.sink)
    ensures Served(Step(cfg, s, e).sink)
  {
    if e.SendReturns? && CanReturn(s, e.i) { assert LoopOk(s.loops[e.i], s); }
  }

  lemma {:induction false} WorkIsServed(cfg: Config, es: seq<Event>)
    ensures Served(Exec(cfg, es).sink)
    decreases |es|
  {
    if es != [] {
      WorkIsServed(cfg, es[..|es| - 1]);
      ExecKeepsInv(cfg, es[..|es| - 1]);
      StepKeepsServed(cfg, Exec(cfg, es[..|es| - 1]), es[|es| - 1]);
    }
  }

  /** A message is accepted if and only if the stream is open and the sink is not closing. */
  lemma AcceptedIff(cfg: Config, es: seq<Event>, m: Message)
    ensures var s, s' := Exec(cfg, es), Exec(cfg, es + [WriteMessage(m)]);
            s'.log == if !s.sink.streamClosed && !s.sink.draining then s.log + [m] else s.log
  {
    ExecStep(cfg, es, WriteMessage(m));
  }

  /** The network closes the stream; or the close packet was acknowledged; or the sink gave up for good. */
  predicate ClosesStream(cfg: Config, s: System, e: Event) {
    || e.StreamCloses?
    || (e.SendReturns? && CanReturn(s, e.i) &&
        if e.ok then s.loops[e.i].packet.close else e.deadlinePassed && (s.sink.draining || cfg.closeOnFailure))
  }

  /** A packet that does not close carries something. */
  ghost predicate NoIdlePackets(s: System) {
    forall p <- s.sent :: p.close || p.msgs != []
  }

  lemma NoIdlePacketIsSent(cfg: Config, s: System, e: Event)
    requires NoIdlePackets(s)
    ensures NoIdlePackets(Step(cfg, s, e))
  {
    if !e.LoopStarts? && !e.SendReturns? { assert Step(cfg, s, e).sent == s.sent; }
  }

  lemma {:induction false} PacketsAreNotIdle(cfg: Config, es: seq<Event>)
    ensures NoIdlePackets(Exec(cfg, es))
    decreases |es|
  {
    if es != [] {
      PacketsAreNotIdle(cfg, es[..|es| - 1]);
      NoIdlePacketIsSent(cfg, Exec(cfg, es[..|es| - 1]), es[|es| - 1]);
    }
  }

  lemma ReturnClosesStreamIff(cfg: Config, s: System, e: Event)
    requires Inv(s) && NoIdlePackets(s) && !s.sink.streamClosed && e.SendReturns? && CanReturn(s, e.i)
    ensures Step(cfg, s, e).sink.streamClosed <==> ClosesStream(cfg, s, e)
  {
    assert LoopOk(s.loops[e.i], s) && PacketOk(s.loops[e.i].packet, s);
  }

  /** An open stream is closed by these steps and by no other. */
  lemma StreamClosesIff(cfg: Config, es: seq<Event>, e: Event)
    requires !Exec(cfg, es).sink.streamClosed
    ensures Exec(cfg, es + [e]).sink.streamClosed <==> ClosesStream(cfg, Exec(cfg, es), e)
  {
    ExecKeepsInv(cfg, es);
    PacketsAreNotIdle(cfg, es);
    ExecStep(cfg, es, e);
    if e.SendReturns? && CanReturn(Exec(cfg, es), e.i) { ReturnClosesStreamIff(cfg, Exec(cfg, es), e); }
  }

  // ---------- everything is sent ----------

  predicate CloseIsComing(s: System) {
    (s.phase.Forwarding? && s.phase.close) || exists p :: p in s.inbox && p.close
  }

  /** The inbox leads to the end of the log without a gap, and to a close packet if the sink is closing. */
  predicate AllArrived(s: System) {
    && GapFree(s.readSeq, s.inbox) && Reach(s.readSeq, s.inbox) == |s.log|
    && (s.sink.draining ==> CloseIsComing(s))
  }

  lemma {:induction false} ReachStaysWithin(r: nat, inbox: seq<Packet>, n: nat)
    requires r <= n && forall p <- inbox :: p.End() <= n
    ensures Reach(r, inbox) <= n
    decreases |inbox|
  {
    if inbox != [] { ReachStaysWithin(Max(r, inbox[0].End()), inbox[1..], n); }
  }

  lemma ReachWithinLog(s: System)
    requires Inv(s)
    ensures Reach(s.readSeq, s.inbox) <= |s.log|
  {
    forall p <- s.inbox ensures p.End() <= |s.log| { assert PacketOk(p, s); }
    ReachStaysWithin(s.readSeq, s.inbox, |s.log|);
  }

  lemma NothingToSend(s: System)
    requires Inv(s) && AckInv(s) && !s.sink.streamClosed && s.sink.queue == [] && !s.sink.draining
    ensures AllArrived(s)
  {
    ReachWithinLog(s);
  }

  /** The packet that carries the end of the log, and the close if there is one, arrives. */
  lemma LastPacketArrives(cfg: Config, s: System, p: Packet)
    requires Inv(s) && AckInv(s) && p in s.sent && p.End() == |s.log| && (s.sink.draining ==> p.close)
    ensures AllArrived(Step(cfg, s, Arrives(p)))
  {
    var s' := Step(cfg, s, Arrives(p));
    assert s'.inbox[|s.inbox|] == p;
    ReachWithinLog(s);
    ReachOneMore(s.readSeq, s.inbox, p);
  }

  // ---------- runs that only work ----------

  /** The run goes on with work alone, and sends in it are acknowledged. */
  ghost predicate GoesOn(cfg: Config, es: seq<Event>, more: seq<Event>) {
    && SendIsAcknowledged(cfg, es + more) && NeverLoses(cfg, es + more) && (forall e <- more :: IsWork(e))
    && Exec(cfg, es + more).log == Exec(cfg, es).log
    && Exec(cfg, es + more).sink.draining == Exec(cfg, es).sink.draining
  }

  lemma WorkKeepsLog(cfg: Config, s: System, e: Event)
    requires IsWork(e)
    ensures Step(cfg, s, e).log == s.log && Step(cfg, s, e).sink.draining == s.sink.draining
    ensures !Loses(cfg, s, e)
  {
  }

  lemma WorkStaysAcknowledged(cfg: Config, es: seq<Event>, e: Event)
    requires SendIsAcknowledged(cfg, es) && NeverLoses(cfg, es) && IsWork(e)
    requires var s := Exec(cfg, es);
             e.SendReturns? && CanReturn(s, e.i) ==> s.loops[e.i].packet in s.arrived
    ensures SendIsAcknowledged(cfg, es + [e]) && NeverLoses(cfg, es + [e])
    ensures var s, s' := Exec(cfg, es), Exec(cfg, es + [e]);
            s' == Step(cfg, s, e) && s'.log == s.log && s'.sink.draining == s.sink.draining
  {
    WorkKeepsLog(cfg, Exec(cfg, es), e);
    NeverLosesOneMore(cfg, es, e);
    ExecStep(cfg, es, e);
    assert (es + [e])[..|es|] == es;
  }

  lemma GoesOnOneMore(cfg: Config, es: seq<Event>, more: seq<Event>, e: Event)
    requires GoesOn(cfg, es, more) && IsWork(e)
    requires var s := Exec(cfg, es + more);
             e.SendReturns? && CanReturn(s, e.i) ==> s.loops[e.i].packet in s.arrived
    ensures GoesOn(cfg, es, more + [e])
    ensures Exec(cfg, es + (more + [e])) == Step(cfg, Exec(cfg, es + more), e)
  {
    assert es + (more + [e]) == es + more + [e];
    WorkStaysAcknowledged(cfg, es + more, e);
  }

  /** What holds along such a run while the reader has not ended. */
  lemma GoesOnKeeps(cfg: Config, es: seq<Event>, more: seq<Event>)
    requires GoesOn(cfg, es, more)
    ensures Inv(Exec(cfg, es + more)) && AckInv(Exec(cfg, es + more)) && Served(Exec(cfg, es + more).sink)
  {
    ExecKeepsInv(cfg, es + more);
    AckInvHolds(cfg, es + more);
    WorkIsServed(cfg, es + more);
  }

  lemma Arrive(cfg: Config, es: seq<Event>, more: seq<Event>, p: Packet) returns (more': seq<Event>)
    requires GoesOn(cfg, es, more) && p in Exec(cfg, es + more).sent
    ensures GoesOn(cfg, es, more')
    ensures Exec(cfg, es + more') == Step(cfg, Exec(cfg, es + more), Arrives(p))
  {
    GoesOnOneMore(cfg, es, more, Arrives(p));
    more' := more + [Arrives(p)];
  }

  /** A loop that is about to start hands its packet to Send. */
  lemma StartedLoopSends(cfg: Config, s: System)
    requires Inv(s) && !s.sink.streamClosed && s.loops == [Starting] && (s.sink.queue != [] || s.sink.draining)
    ensures var p := Packet(s.sink.nextSeq, s.sink.draining, s.sink.queue);
            Step(cfg, s, LoopStarts(0)) == s.(loops := [Sending(p)], sent := s.sent + {p})
  {
  }

  /** A loop whose packet was acknowledged hands on what has been queued since, and the close. */
  lemma AcknowledgedLoopSends(cfg: Config, s: System, p: Packet)
    requires Inv(s) && !s.sink.streamClosed && s.loops == [Sending(p)] && !p.close
    ensures CanReturn(s, 0)
    ensures var n := |p.msgs|;
            var sink := s.sink.(nextSeq := s.sink.nextSeq + n, queue := s.sink.queue[n..]);
            var p' := Packet(sink.nextSeq, sink.draining, sink.queue);
            Step(cfg, s, SendReturns(0, true, false)) ==
            if !sink.draining && sink.queue == [] then s.(sink := sink.(writing := false), loops := [])
            else s.(sink := sink, loops := [Sending(p')], sent := s.sent + {p'})
  {
    assert LoopOk(s.loops[0], s);
  }

  /** A packet is on its way that carries the end of the log, and the close if there is one. */
  predicate LastIsSent(s: System) {
    && |s.loops| == 1 && s.loops[0].Sending?
    && s.loops[0].packet.End() == |s.log| && (s.sink.draining ==> s.loops[0].packet.close)
  }

  lemma LoopStartsSending(cfg: Config, es: seq<Event>, more: seq<Event>) returns (more': seq<Event>)
    requires GoesOn(cfg, es, more) && Open(Exec(cfg, es + more))
    requires var s := Exec(cfg, es + more);
             !s.sink.streamClosed && s.loops == [Starting] && (s.sink.queue != [] || s.sink.draining)
    ensures GoesOn(cfg, es, more') && Open(Exec(cfg, es + more')) && LastIsSent(Exec(cfg, es + more'))
  {
    GoesOnKeeps(cfg, es, more);
    StartedLoopSends(cfg, Exec(cfg, es + more));
    GoesOnOneMore(cfg, es, more, LoopStarts(0));
    more' := more + [LoopStarts(0)];
  }

  lemma LoopGoesRound(cfg: Config, es: seq<Event>, more: seq<Event>, p: Packet) returns (more': seq<Event>)
    requires GoesOn(cfg, es, more) && Open(Exec(cfg, es + more))
    requires var s := Exec(cfg, es + more); !s.sink.streamClosed && s.loops == [Sending(p)] && !p.close
    ensures GoesOn(cfg, es, more') && Open(Exec(cfg, es + more'))
    ensures AllArrived(Exec(cfg, es + more')) || LastIsSent(Exec(cfg, es + more'))
  {
    GoesOnKeeps(cfg, es, more);
    assert LoopOk(Exec(cfg, es + more).loops[0], Exec(cfg, es + more));
    more' := Arrive(cfg, es, more, p);
    var s := Exec(cfg, es + more');
    GoesOnKeeps(cfg, es, more');
    AcknowledgedLoopSends(cfg, s, p);
    GoesOnOneMore(cfg, es, more', SendReturns(0, true, false));
    more' := more' + [SendReturns(0, true, false)];
    GoesOnKeeps(cfg, es, more');
    if Exec(cfg, es + more').loops == [] { NothingToSend(Exec(cfg, es + more')); }
  }

  lemma LastArrives(cfg: Config, es: seq<Event>, more: seq<Event>) returns (more': seq<Event>)
    requires GoesOn(cfg, es, more) && Open(Exec(cfg, es + more)) && LastIsSent(Exec(cfg, es + more))
    ensures GoesOn(cfg, es, more') && Open(Exec(cfg, es + more')) && AllArrived(Exec(cfg, es + more'))
  {
    var s := Exec(cfg, es + more);
    GoesOnKeeps(cfg, es, more);
    assert LoopOk(s.loops[0], s);
    more' := Arrive(cfg, es, more, s.loops[0].packet);
    LastPacketArrives(cfg, s, s.loops[0].packet);
  }

  /** From an open stream everything can be sent and arrive. */
  lemma AllCanArrive(cfg: Config, es: seq<Event>) returns (more: seq<Event>)
    requires SendIsAcknowledged(cfg, es) && NeverLoses(cfg, es)
    requires Open(Exec(cfg, es)) && !Exec(cfg, es).sink.streamClosed
    ensures GoesOn(cfg, es, more) && Open(Exec(cfg, es + more)) && AllArrived(Exec(cfg, es + more))
  {
    more := [];
    assert es + more == es;
    var s := Exec(cfg, es);
    GoesOnKeeps(cfg, es, more);
    if s.sink.queue == [] && !s.sink.draining {
      NothingToSend(s);
    } else {
      if s.loops[0].Starting? {
        more := LoopStartsSending(cfg, es, more);
      } else if !s.loops[0].packet.close {
        more := LoopGoesRound(cfg, es, more, s.loops[0].packet);
      } else {
        assert LoopOk(s.loops[0], s) && PacketOk(s.loops[0].packet, s);
      }
      if !AllArrived(Exec(cfg, es + more)) { more := LastArrives(cfg, es, more); }
    }
  }

  // ---------- everything is read ----------

  /** The reader either still has something to read, or has ended on the close packet. */
  predicate Reading(s: System) {
    if s.phase.Ended? then s.phase == Ended(CleanClose) else Open(s) && AllArrived(s)
  }

  lemma ReadingForwards(cfg: Config, s: System)
    requires Inv(s) && Reading(s) && s.phase.Forwarding?
    ensures var s' := Step(cfg, s, NextRead(s)); Reading(s') && Closer(s, s')
  {
  }

  lemma ReadingReads(cfg: Config, s: System)
    requires Inv(s) && Reading(s) && s.phase.Waiting? && s.inbox != []
    ensures var s' := Step(cfg, s, NextRead(s)); Reading(s') && Closer(s, s')
  {
    ReadKeepsInv(s);
    var s' := Read(s);
    if s.sink.draining {
      var p :| p in s.inbox && p.close;
      assert p == s.inbox[0] || p in s'.inbox;
    }
  }

  /** The reader has read everything, and ended if the sink is closing. */
  lemma ReadEverything(s: System)
    requires Inv(s) && Reading(s) && (s.phase.Ended? || (s.phase.Waiting? && s.inbox == []))
    ensures s.Written() == s.log && (s.sink.draining ==> s.phase == Ended(CleanClose))
  {
  }

  /**
   Progress: in every acknowledged run without a loss, while the stream is open and the reader goes on, work alone can
   deliver everything that was accepted; and if the sink is closing, it ends the reader with a clean close.
   */
  lemma EverythingCanBeDelivered(cfg: Config, es: seq<Event>) returns (more: seq<Event>)
    requires SendIsAcknowledged(cfg, es) && NeverLoses(cfg, es)
    requires Open(Exec(cfg, es)) && !Exec(cfg, es).sink.streamClosed
    ensures SendIsAcknowledged(cfg, es + more) && forall e <- more :: IsWork(e)
    ensures Exec(cfg, es + more).Written() == Exec(cfg, es + more).log == Exec(cfg, es).log
    ensures Exec(cfg, es).sink.draining ==> Exec(cfg, es + more).phase == Ended(CleanClose)
  {
    more := AllCanArrive(cfg, es);
    var s := Exec(cfg, es + more);
    GoesOnKeeps(cfg, es, more);
    while !(s.phase.Ended? || (s.phase.Waiting? && s.inbox == []))
      invariant s == Exec(cfg, es + more) && GoesOn(cfg, es, more) && Inv(s) && Reading(s)
      decreases |s.inbox|, PendingLeft(s), |s.channel.buffer|
    {
      if s.phase.Forwarding? { ReadingForwards(cfg, s); } else { ReadingReads(cfg, s); }
      GoesOnOneMore(cfg, es, more, NextRead(s));
      more := more + [NextRead(s)];
      s := Exec(cfg, es + more);
      GoesOnKeeps(cfg, es, more);
    }
    ReadEverything(s);
  }

  /** A close can be completed: all that was accepted before it is written, and the reader ends on the close packet. */
  lemma CloseCanComplete(cfg: Config, es: seq<Event>) returns (more: seq<Event>)
    requires SendIsAcknowledged(cfg, es) && NeverLoses(cfg, es)
    requires Open(Exec(cfg, es)) && !Exec(cfg, es).sink.streamClosed
    ensures SendIsAcknowledged(cfg, es + [CloseSink] + more) && forall e <- more :: IsWork(e)
    ensures var s := Exec(cfg, es + [CloseSink] + more);
            s.phase == Ended(CleanClose) && s.Written() == s.log == Exec(cfg, es).log
  {
    ExecStep(cfg, es, CloseSink);
    AcknowledgedOneMore(cfg, es, CloseSink);
    NeverLosesOneMore(cfg, es, CloseSink);
    more := EverythingCanBeDelivered(cfg, es + [CloseSink]);
  }
}
