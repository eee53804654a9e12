/**
 The signal relay as a distributed system: one sink with its write loops, a network that may lose, duplicate,
 delay and reorder packets, and one reader that forwards into a bounded channel (pkg/routing/signal.go).

 A run is any sequence of events; an event that is not enabled changes nothing.
 */
module SignalRelay {
  import opened Common
  import opened MessageChannels
  import opened SignalEndpoints

  /** A write loop: spawned but not yet under the lock, or waiting for Send to return. */
  datatype Loop = Starting | Sending(packet: Packet)

  datatype Phase =
    | Waiting
    | Forwarding(pending: seq<Message>, close: bool)
    | Ended(outcome: CopyOutcome)

  datatype Config = Config(closeOnFailure: bool, capacity: nat)

  datatype System = System(
    sink: Sink,
    loops: seq<Loop>,
    log: seq<Message>,      // every message WriteMessage has accepted
    sent: set<Packet>,      // every packet ever handed to Send: any of them may still arrive
    arrived: set<Packet>,   // every packet that ever reached the reader's inbox
    inbox: seq<Packet>,
    readSeq: nat,
    phase: Phase,
    channel: Channel,
    taken: seq<Message>,    // what the consumer has received from the channel
    gaveUp: bool)           // the sink dropped its queue at a deadline
  {
    /** Everything written to the output channel. */
    function Written(): seq<Message> { taken + channel.buffer }
  }

  datatype Event =
    | WriteMessage(m: Message)
    | CloseSink
    | LoopStarts(i: nat)
    | SendReturns(i: nat, ok: bool, deadlinePassed: bool)
    | StreamCloses
    | Arrives(p: Packet)
    | ReadPacket
    | ForwardNext
    | FinishPacket
    | StreamEnds
    | Take
    | ChannelCloses  // by whoever else holds the channel

  function Init(cfg: Config): System {
    System(Sink(0, [], false, false, false), [], [], {}, {}, [], 0, Waiting,
           Channel(cfg.capacity, [], false), [], false)
  }

  /** Loop i moves on after a locked section. */
  function WithLoop(s: System, i: nat, r: LoopResult): System
    requires i < |s.loops|
  {
    match r.next
    case None => s.(sink := r.sink, loops := s.loops[..i] + s.loops[i + 1..])
    case Some(p) => s.(sink := r.sink, loops := s.loops[i := Sending(p)], sent := s.sent + {p})
  }

  function End(s: System, outcome: CopyOutcome): System {
    s.(phase := Ended(outcome), channel := s.channel.(isClosed := true))
  }

  function Spawned(s: System): seq<Loop> {
    if s.sink.writing then s.loops else s.loops + [Starting]
  }

  function Read(s: System): System
    requires s.inbox != []
  {
    var p, s' := s.inbox[0], s.(inbox := s.inbox[1..]);
    match Trim(s.readSeq, p)
    case None => End(s', MessageDropped)
    case Some(msgs) => s'.(readSeq := s.readSeq + |msgs|, phase := Forwarding(msgs, p.close))
  }

  function Forward(s: System): System
    requires s.phase.Forwarding? && s.phase.pending != []
  {
    var r := WriteResultOf(s.channel);
    if r != Published then End(s, WriteFailed(r))
    else s.(channel := AfterWrite(s.channel, s.phase.pending[0]), phase := s.phase.(pending := s.phase.pending[1..]))
  }

  function GivingUp(s: System, now: bool): System {
    s.(gaveUp := s.gaveUp || now)
  }

  /** Send returns to a loop whose packet is still at the head of the queue, as it always is. */
  predicate CanReturn(s: System, i: nat) {
    i < |s.loops| && s.loops[i].Sending? && |s.loops[i].packet.msgs| <= |s.sink.queue|
  }

  function Step(cfg: Config, s: System, e: Event): System {
    match e
    case WriteMessage(m) =>
      if !Accepts(s.sink) then s
      else s.(sink := AfterWriteMessage(s.sink, m), loops := Spawned(s), log := s.log + [m])
    case CloseSink =>
      s.(sink := AfterClose(s.sink), loops := Spawned(s))
    case LoopStarts(i) =>
      if i < |s.loops| && s.loops[i].Starting? then WithLoop(s, i, LoopHead(s.sink, false, cfg.closeOnFailure)) else s
    case SendReturns(i, ok, deadlinePassed) =>
      if CanReturn(s, i) then
        var r := AfterSend(s.sink, s.loops[i].packet, ok, deadlinePassed, cfg.closeOnFailure);
        WithLoop(GivingUp(s, !ok && deadlinePassed), i, r)
      else s
    case StreamCloses => s.(sink := s.sink.(streamClosed := true))
    case Arrives(p) =>
      if p in s.sent then s.(inbox := s.inbox + [p], arrived := s.arrived + {p}) else s
    case ReadPacket =>
      if s.phase.Waiting? && s.inbox != [] then Read(s) else s
    case ForwardNext =>
      if s.phase.Forwarding? && s.phase.pending != [] then Forward(s) else s
    case FinishPacket =>
      if s.phase.Forwarding? && s.phase.pending == [] then
        if s.phase.close then End(s, CleanClose) else s.(phase := Waiting)
      else s
    case StreamEnds =>
      if s.phase.Waiting? then End(s, StreamEnded) else s
    case Take =>
      if s.channel.buffer != [] then
        s.(taken := s.taken + [s.channel.buffer[0]], channel := s.channel.(buffer := s.channel.buffer[1..]))
      else s
    case ChannelCloses => s.(channel := s.channel.(isClosed := true))
  }

  function Exec(cfg: Config, es: seq<Event>): System {
    if es == [] then Init(cfg) else Step(cfg, Exec(cfg, es[..|es| - 1]), es[|es| - 1])
  }

  // ---------- what every step keeps ----------

  ghost predicate PacketOk(p: Packet, s: System) {
    && IsSlice(p, s.log) && p.first <= s.sink.nextSeq
    && (p.close ==> s.sink.draining && p.End() == |s.log|)
  }

  ghost predicate LoopOk(l: Loop, s: System) {
    l.Sending? ==>
      && l.packet in s.sent && l.packet.first == s.sink.nextSeq
      && |l.packet.msgs| <= |s.sink.queue|
  }

  ghost predicate SenderInv(s: System) {
    && s.sink.nextSeq <= |s.log| && s.sink.queue == s.log[s.sink.nextSeq..]
    && |s.loops| <= 1 && (s.sink.writing <==> |s.loops| == 1)
    && (forall l <- s.loops :: LoopOk(l, s))
    && (forall p <- s.sent :: PacketOk(p, s))
    && s.arrived <= s.sent && (forall p <- s.inbox :: p in s.arrived)
  }

  ghost predicate ReaderInv(s: System) {
    && s.readSeq <= |s.log|
    && match s.phase
       case Waiting => s.Written() == s.log[..s.readSeq]
       case Forwarding(pending, close) =>
         && s.Written() + pending == s.log[..s.readSeq]
         && (close ==> s.sink.draining && s.readSeq == |s.log|)
       case Ended(outcome) =>
         && s.Written() <= s.log && s.channel.isClosed
         && (outcome.CleanClose? ==> s.sink.draining && s.Written() == s.log)
  }

  ghost predicate Inv(s: System) {
    SenderInv(s) && ReaderInv(s)
  }

  /** The sender's half, for a step that leaves the accepted log and the sink's position where they are. */
  lemma PacketsStayOk(s: System, s': System)
    requires SenderInv(s)
    requires s'.sent == s.sent && s.log <= s'.log && s.sink.nextSeq <= s'.sink.nextSeq
    requires s.sink.draining ==> s'.sink.draining && s'.log == s.log
    ensures forall p <- s'.sent :: PacketOk(p, s')
  {
    forall p <- s'.sent ensures PacketOk(p, s') { assert PacketOk(p, s); }
  }

  lemma LoopResultKeepsInv(s: System, i: nat, r: LoopResult)
    requires Inv(s) && i < |s.loops|
    requires s.sink.nextSeq <= r.sink.nextSeq <= |s.log| && r.sink.queue == s.log[r.sink.nextSeq..]
    requires r.sink.draining == s.sink.draining && r.sink.writing == r.next.Some?
    requires r.next.Some? ==> r.next.value == Packet(r.sink.nextSeq, r.sink.draining, r.sink.queue)
    ensures Inv(WithLoop(s, i, r))
  {
    PacketsStayOk(s, s.(sink := r.sink));
  }

  lemma SenderStepKeepsInv(cfg: Config, s: System, e: Event)
    requires Inv(s) && (e.WriteMessage? || e.CloseSink? || e.StreamCloses?)
    ensures Inv(Step(cfg, s, e))
  {
    PacketsStayOk(s, Step(cfg, s, e));
  }

  lemma LoopStartKeepsInv(cfg: Config, s: System, i: nat)
    requires Inv(s) && i < |s.loops| && s.loops[i].Starting?
    ensures Inv(WithLoop(s, i, LoopHead(s.sink, false, cfg.closeOnFailure)))
  {
    LoopResultKeepsInv(s, i, LoopHead(s.sink, false, cfg.closeOnFailure));
  }

  /** What the sink noted about giving up is not part of the invariant. */
  lemma GivingUpKeepsInv(s: System, now: bool)
    requires Inv(s)
    ensures Inv(GivingUp(s, now))
  {
    var s' := GivingUp(s, now);
    PacketsStayOk(s, s');
    forall l <- s'.loops ensures LoopOk(l, s') { assert LoopOk(l, s); }
  }

  lemma SendReturnKeepsInv(cfg: Config, s: System, i: nat, ok: bool, deadlinePassed: bool)
    requires Inv(s) && i < |s.loops| && s.loops[i].Sending? && LoopOk(s.loops[i], s)
    ensures Inv(WithLoop(s, i, AfterSend(s.sink, s.loops[i].packet, ok, deadlinePassed, cfg.closeOnFailure)))
  {
    LoopResultKeepsInv(s, i, AfterSend(s.sink, s.loops[i].packet, ok, deadlinePassed, cfg.closeOnFailure));
  }

  lemma LoopStepKeepsInv(cfg: Config, s: System, e: Event)
    requires Inv(s) && (e.LoopStarts? || e.SendReturns?)
    ensures Inv(Step(cfg, s, e))
  {
    if e.LoopStarts? && e.i < |s.loops| && s.loops[e.i].Starting? {
      LoopStartKeepsInv(cfg, s, e.i);
    } else if e.SendReturns? && CanReturn(s, e.i) {
      assert LoopOk(s.loops[e.i], s);
      var s1 := GivingUp(s, !e.ok && e.deadlinePassed);
      GivingUpKeepsInv(s, !e.ok && e.deadlinePassed);
      SendReturnKeepsInv(cfg, s1, e.i, e.ok, e.deadlinePassed);
    }
  }

  /** Steps of the network, the reader and the consumer leave the sender alone. */
  ghost predicate SameSender(s: System, s': System) {
    s'.sink == s.sink && s'.loops == s.loops && s'.log == s.log && s'.sent == s.sent
  }

  lemma SenderInvUntouched(s: System, s': System)
    requires SenderInv(s) && SameSender(s, s')
    requires s'.arrived <= s'.sent && forall p <- s'.inbox :: p in s'.arrived
    ensures SenderInv(s')
  {
    PacketsStayOk(s, s');
    assert forall l <- s'.loops :: LoopOk(l, s) ==> LoopOk(l, s');
  }

  lemma ReadKeepsInv(s: System)
    requires Inv(s) && s.phase.Waiting? && s.inbox != []
    ensures Inv(Read(s))
    ensures Read(s).readSeq == (if s.inbox[0].first <= s.readSeq then Max(s.readSeq, s.inbox[0].End()) else s.readSeq)
  {
    SenderInvUntouched(s, Read(s));
    var p := s.inbox[0];
    assert PacketOk(p, s);
    if p.first <= s.readSeq {
      TrimExtendsPrefix(s.log, s.readSeq, p);
    }
  }

  lemma ForwardKeepsInv(s: System)
    requires Inv(s) && s.phase.Forwarding? && s.phase.pending != []
    ensures Inv(Forward(s))
  {
    var s' := Forward(s);
    SenderInvUntouched(s, s');
    if s'.phase.Forwarding? {
      assert s'.Written() + s'.phase.pending == s.Written() + s.phase.pending;
    } else {
      assert s.Written() <= s.Written() + s.phase.pending;
    }
  }

  lemma OtherStepKeepsInv(cfg: Config, s: System, e: Event)
    requires Inv(s) && (e.Arrives? || e.FinishPacket? || e.StreamEnds? || e.Take? || e.ChannelCloses?)
    ensures Inv(Step(cfg, s, e))
  {
    var s' := Step(cfg, s, e);
    SenderInvUntouched(s, s');
    assert s'.Written() == s.Written();
    if s.phase.Forwarding? && s.phase.pending == [] {
      assert s.Written() + s.phase.pending == s.Written();
    }
  }

  lemma StepKeepsInv(cfg: Config, s: System, e: Event)
    requires Inv(s)
    ensures Inv(Step(cfg, s, e))
  {
    match e
    case WriteMessage(_) => SenderStepKeepsInv(cfg, s, e);
    case CloseSink => SenderStepKeepsInv(cfg, s, e);
    case StreamCloses => SenderStepKeepsInv(cfg, s, e);
    case LoopStarts(_) => LoopStepKeepsInv(cfg, s, e);
    case SendReturns(_, _, _) => LoopStepKeepsInv(cfg, s, e);
    case ReadPacket => if s.phase.Waiting? && s.inbox != [] { ReadKeepsInv(s); }
    case ForwardNext => if s.phase.Forwarding? && s.phase.pending != [] { ForwardKeepsInv(s); }
    case _ => OtherStepKeepsInv(cfg, s, e);
  }

  lemma {:induction false} ExecKeepsInv(cfg: Config, es: seq<Event>)
    ensures Inv(Exec(cfg, es))
    decreases |es|
  {
    if es != [] {
      ExecKeepsInv(cfg, es[..|es| - 1]);
      StepKeepsInv(cfg, Exec(cfg, es[..|es| - 1]), es[|es| - 1]);
    }
  }

  // ---------- safety over whole runs ----------

  /** Whatever the network, the scheduler and the deadlines do, the output is a prefix of the accepted messages. */
  lemma PrefixSafety(cfg: Config, es: seq<Event>)
    ensures var s := Exec(cfg, es); s.Written() <= s.log
  {
    ExecKeepsInv(cfg, es);
    var s := Exec(cfg, es);
    if s.phase.Forwarding? {
      assert s.Written() <= s.Written() + s.phase.pending;
    }
  }

  /** A reader that ends on a close packet has written the whole log, and the log can no longer grow. */
  lemma CleanCloseIsComplete(cfg: Config, es: seq<Event>, later: seq<Event>)
    requires Exec(cfg, es).phase == Ended(CleanClose)
    ensures Exec(cfg, es).Written() == Exec(cfg, es).log
    ensures Exec(cfg, es + later).log == Exec(cfg, es).log
    ensures Exec(cfg, es + later).Written() == Exec(cfg, es).log
  {
    ExecKeepsInv(cfg, es);
    ExecKeepsInv(cfg, es + later);
    LogFrozenOnceDraining(cfg, es, later);
  }

  lemma DrainingLoop(s: System, i: nat, r: LoopResult)
    requires i < |s.loops| && r.sink.draining
    ensures var s' := WithLoop(s, i, r); s'.sink.draining && s'.log == s.log && s'.phase == s.phase
  {
  }

  lemma DrainingStep(cfg: Config, s: System, e: Event)
    requires s.sink.draining
    ensures var s' := Step(cfg, s, e);
            s'.sink.draining && s'.log == s.log && (s.phase.Ended? ==> s'.phase == s.phase)
  {
    if e.LoopStarts? && e.i < |s.loops| && s.loops[e.i].Starting? {
      DrainingLoop(s, e.i, LoopHead(s.sink, false, cfg.closeOnFailure));
    } else if e.SendReturns? && CanReturn(s, e.i) {
      var r := AfterSend(s.sink, s.loops[e.i].packet, e.ok, e.deadlinePassed, cfg.closeOnFailure);
      DrainingLoop(GivingUp(s, !e.ok && e.deadlinePassed), e.i, r);
    }
  }

  lemma ExecStep(cfg: Config, es: seq<Event>, e: Event)
    ensures Exec(cfg, es + [e]) == Step(cfg, Exec(cfg, es), e)
  {
    assert (es + [e])[..|es|] == es;
  }

  lemma {:induction false} LogFrozenOnceDraining(cfg: Config, es: seq<Event>, later: seq<Event>)
    requires Exec(cfg, es).sink.draining
    ensures var s, s' := Exec(cfg, es), Exec(cfg, es + later);
            && s'.sink.draining && s'.log == s.log
            && (s.phase.Ended? ==> s'.phase == s.phase)
    decreases |later|
  {
    if later == [] {
      assert es + later == es;
    } else {
      var init, e := later[..|later| - 1], later[|later| - 1];
      LogFrozenOnceDraining(cfg, es, init);
      DrainingStep(cfg, Exec(cfg, es + init), e);
      ExecStep(cfg, es + init, e);
      assert es + init + [e] == es + later;
    }
  }

  // ---------- acknowledged sends ----------

  /** The assumption on psrpc: when Send returns nil, its packet has reached the reader's FIFO inbox. */
  ghost predicate SendIsAcknowledged(cfg: Config, es: seq<Event>)
    decreases |es|
  {
    es == [] ||
    var s, e := Exec(cfg, es[..|es| - 1]), es[|es| - 1];
    && SendIsAcknowledged(cfg, es[..|es| - 1])
    && (e.SendReturns? && e.ok && CanReturn(s, e.i) ==> s.loops[e.i].packet in s.arrived)
  }

  /** How far the reader gets by reading the whole inbox, and whether it meets a gap on the way. */
  function Reach(r: nat, inbox: seq<Packet>): (r': nat)
    ensures r <= r'
    decreases |inbox|
  {
    if inbox == [] then r else Reach(Max(r, inbox[0].End()), inbox[1..])
  }

  predicate GapFree(r: nat, inbox: seq<Packet>)
    decreases |inbox|
  {
    inbox == [] || (inbox[0].first <= r && GapFree(Max(r, inbox[0].End()), inbox[1..]))
  }

  lemma {:induction false} ReachOneMore(r: nat, inbox: seq<Packet>, p: Packet)
    ensures Reach(r, inbox + [p]) == Max(Reach(r, inbox), p.End())
    ensures GapFree(r, inbox + [p]) <==> GapFree(r, inbox) && p.first <= Reach(r, inbox)
    decreases |inbox|
  {
    if inbox == [] {
      assert [p][1..] == [];
    } else {
      assert (inbox + [p])[1..] == inbox[1..] + [p];
      ReachOneMore(Max(r, inbox[0].End()), inbox[1..], p);
    }
  }

  /** The sink gives up at its deadline and goes on: its stream stays open, and it is not being closed. */
  predicate GivesUpAndGoesOn(cfg: Config, s: System, e: Event) {
    && e.SendReturns? && !e.ok && e.deadlinePassed && CanReturn(s, e.i)
    && !cfg.closeOnFailure && !s.sink.draining && !s.sink.streamClosed
  }

  /** It does so although the inbox does not lead to the end of the log: some message has not been delivered. */
  predicate Loses(cfg: Config, s: System, e: Event) {
    GivesUpAndGoesOn(cfg, s, e) && Reach(s.readSeq, s.inbox) < |s.log|
  }

  predicate NeverLoses(cfg: Config, es: seq<Event>) {
    es == [] || (NeverLoses(cfg, es[..|es| - 1]) && !Loses(cfg, Exec(cfg, es[..|es| - 1]), es[|es| - 1]))
  }

  /**
   The inbox has no gap, every packet that may still arrive starts within what it leads to, and so do those to come,
   unless there will be none, because the sink gave up with its stream closed.
   */
  ghost predicate AckInv(s: System) {
    && GapFree(s.readSeq, s.inbox)
    && (forall p <- s.sent :: p.first <= Reach(s.readSeq, s.inbox))
    && (forall p <- s.arrived :: p.End() <= Reach(s.readSeq, s.inbox))
    && (s.sink.nextSeq <= Reach(s.readSeq, s.inbox) || (s.gaveUp && s.sink.streamClosed))
    && s.phase != Ended(MessageDropped)
  }

  lemma AckSendReturns(cfg: Config, s: System, e: Event)
    requires Inv(s) && AckInv(s) && e.SendReturns? && CanReturn(s, e.i)
    requires e.ok ==> s.loops[e.i].packet in s.arrived
    requires !Loses(cfg, s, e)
    ensures AckInv(Step(cfg, s, e))
  {
    assert LoopOk(s.loops[e.i], s);
  }

  lemma AckArrives(cfg: Config, s: System, p: Packet)
    requires Inv(s) && AckInv(s) && p in s.sent
    ensures AckInv(Step(cfg, s, Arrives(p)))
  {
    ReachOneMore(s.readSeq, s.inbox, p);
  }

  lemma AckRead(s: System)
    requires Inv(s) && AckInv(s) && s.phase.Waiting? && s.inbox != []
    ensures AckInv(Read(s))
  {
    ReadKeepsInv(s);
  }

  /** A step leaves alone what was sent, what arrived and what was read. */
  predicate LeavesTraffic(s: System, s': System) {
    && s'.sent == s.sent && s'.arrived == s.arrived && s'.inbox == s.inbox && s'.readSeq == s.readSeq
    && s'.gaveUp == s.gaveUp && s'.sink.nextSeq == s.sink.nextSeq
    && (s.sink.streamClosed ==> s'.sink.streamClosed)
    && (s'.phase == Ended(MessageDropped) ==> s.phase == s'.phase)
  }

  lemma AckUnaffected(s: System, s': System)
    requires AckInv(s) && LeavesTraffic(s, s')
    ensures AckInv(s')
  {
  }

  lemma OtherLeavesTraffic(cfg: Config, s: System, e: Event)
    requires !(e.SendReturns? && CanReturn(s, e.i)) && !(e.LoopStarts? && e.i < |s.loops| && s.loops[e.i].Starting?)
    requires !(e.Arrives? && e.p in s.sent) && !(e.ReadPacket? && s.phase.Waiting? && s.inbox != [])
    ensures LeavesTraffic(s, Step(cfg, s, e))
  {
  }

  lemma AckLoopStarts(cfg: Config, s: System, i: nat)
    requires AckInv(s) && i < |s.loops| && s.loops[i].Starting?
    ensures AckInv(Step(cfg, s, LoopStarts(i)))
  {
  }

  lemma AckStep(cfg: Config, s: System, e: Event)
    requires Inv(s) && AckInv(s) && !Loses(cfg, s, e)
    requires e.SendReturns? && e.ok && CanReturn(s, e.i) ==> s.loops[e.i].packet in s.arrived
    ensures AckInv(Step(cfg, s, e))
  {
    if e.SendReturns? && CanReturn(s, e.i) {
      AckSendReturns(cfg, s, e);
    } else if e.LoopStarts? && e.i < |s.loops| && s.loops[e.i].Starting? {
      AckLoopStarts(cfg, s, e.i);
    } else if e.Arrives? && e.p in s.sent {
      AckArrives(cfg, s, e.p);
    } else if e.ReadPacket? && s.phase.Waiting? && s.inbox != [] {
      AckRead(s);
    } else {
      OtherLeavesTraffic(cfg, s, e);
      AckUnaffected(s, Step(cfg, s, e));
    }
  }

  lemma {:induction false} AckInvHolds(cfg: Config, es: seq<Event>)
    requires SendIsAcknowledged(cfg, es) && NeverLoses(cfg, es)
    ensures AckInv(Exec(cfg, es))
    decreases |es|
  {
    if es != [] {
      ExecKeepsInv(cfg, es[..|es| - 1]);
      AckInvHolds(cfg, es[..|es| - 1]);
      AckStep(cfg, Exec(cfg, es[..|es| - 1]), es[|es| - 1]);
    }
  }

  lemma {:induction false} LosesAt(cfg: Config, es: seq<Event>)
    requires !NeverLoses(cfg, es)
    ensures exists k :: 0 <= k < |es| && Loses(cfg, Exec(cfg, es[..k]), es[k])
    decreases |es|
  {
    var init := es[..|es| - 1];
    if !NeverLoses(cfg, init) {
      LosesAt(cfg, init);
      var k :| 0 <= k < |init| && Loses(cfg, Exec(cfg, init[..k]), init[k]);
      assert init[..k] == es[..k] && init[k] == es[k];
    } else {
      assert Loses(cfg, Exec(cfg, es[..|es| - 1]), es[|es| - 1]);
    }
  }

  /**
   The reader reports a dropped message only in runs where the sink gave up on an undelivered message and went on: not
   one that closes its stream on failure, not while it was draining, and not when all it sent had been delivered.
   */
  lemma NoFalseDrop(cfg: Config, es: seq<Event>)
    requires SendIsAcknowledged(cfg, es)
    ensures Exec(cfg, es).phase == Ended(MessageDropped) ==>
              exists k :: 0 <= k < |es| && Loses(cfg, Exec(cfg, es[..k]), es[k])
  {
    if NeverLoses(cfg, es) { AckInvHolds(cfg, es); } else { LosesAt(cfg, es); }
  }

  lemma GaveUpStays(cfg: Config, s: System, e: Event)
    ensures s.gaveUp || GivesUpAndGoesOn(cfg, s, e) ==> Step(cfg, s, e).gaveUp
  {
  }

  lemma {:induction false} NoLossWithoutGivingUp(cfg: Config, es: seq<Event>)
    requires !Exec(cfg, es).gaveUp
    ensures NeverLoses(cfg, es)
    decreases |es|
  {
    if es != [] {
      GaveUpStays(cfg, Exec(cfg, es[..|es| - 1]), es[|es| - 1]);
      NoLossWithoutGivingUp(cfg, es[..|es| - 1]);
    }
  }

  /** Once the reader has worked through its inbox, every acknowledged message has been written. */
  lemma AcknowledgedMeansWritten(cfg: Config, es: seq<Event>)
    requires SendIsAcknowledged(cfg, es) && !Exec(cfg, es).gaveUp
    requires Exec(cfg, es).phase.Waiting? && Exec(cfg, es).inbox == []
    ensures var s := Exec(cfg, es); s.sink.nextSeq <= |s.log| && s.log[..s.sink.nextSeq] <= s.Written() <= s.log
  {
    NoLossWithoutGivingUp(cfg, es);
    ExecKeepsInv(cfg, es);
    AckInvHolds(cfg, es);
  }

  // ---------- when giving up loses messages ----------

  /** No Send returns in these events, so what was acknowledged and lost before is all there is. */
  ghost predicate NoReturns(es: seq<Event>) {
    forall e <- es :: !e.SendReturns?
  }

  /** Nothing is lost after the first n events. */
  predicate NeverLosesSince(cfg: Config, n: nat, all: seq<Event>) {
    |all| <= n ||
    var init := all[..|all| - 1];
    NeverLosesSince(cfg, n, init) && !Loses(cfg, Exec(cfg, init), all[|all| - 1])
  }

  lemma NeverLosesOneMore(cfg: Config, es: seq<Event>, e: Event)
    ensures NeverLoses(cfg, es + [e]) <==> NeverLoses(cfg, es) && !Loses(cfg, Exec(cfg, es), e)
  {
    assert (es + [e])[..|es|] == es;
  }

  lemma AcknowledgedOneMore(cfg: Config, es: seq<Event>, e: Event)
    requires SendIsAcknowledged(cfg, es) && !(e.SendReturns? && e.ok)
    ensures SendIsAcknowledged(cfg, es + [e])
  {
    assert (es + [e])[..|es|] == es;
  }

  lemma {:induction false} NeverLosesInTwo(cfg: Config, n: nat, all: seq<Event>)
    requires n <= |all| && NeverLoses(cfg, all[..n]) && NeverLosesSince(cfg, n, all)
    ensures NeverLoses(cfg, all)
    decreases |all|
  {
    if |all| == n {
      assert all[..n] == all;
    } else {
      assert all[..|all| - 1][..n] == all[..n];
      NeverLosesInTwo(cfg, n, all[..|all| - 1]);
    }
  }

  lemma {:induction false} QuietRun(cfg: Config, n: nat, all: seq<Event>)
    requires n <= |all| && SendIsAcknowledged(cfg, all[..n]) && NoReturns(all[n..])
    ensures SendIsAcknowledged(cfg, all) && NeverLosesSince(cfg, n, all)
    decreases |all|
  {
    if |all| == n {
      assert all[..n] == all;
    } else {
      var init := all[..|all| - 1];
      assert init[..n] == all[..n] && all[n..] == init[n..] + [all[|all| - 1]];
      assert all[|all| - 1] in all[n..];
      QuietRun(cfg, n, init);
    }
  }

  /** The reader goes on, and there is a gap in its inbox. */
  predicate Doomed(s: System) {
    && !s.sink.draining && !s.phase.Ended? && !s.channel.isClosed && s.channel.capacity > 0
    && !GapFree(s.readSeq, s.inbox)
  }

  /** What the reader does next: forward, make room, finish the packet, or read the next one. */
  function NextRead(s: System): Event {
    if s.phase.Forwarding? && s.phase.pending != [] then
      if |s.channel.buffer| < s.channel.capacity then ForwardNext else Take
    else if s.phase.Forwarding? then FinishPacket
    else ReadPacket
  }

  function PendingLeft(s: System): nat {
    if s.phase.Forwarding? then |s.phase.pending| + 1 else 0
  }

  /** Less is left to read: packets, then messages of the packet at hand, then room to make. */
  predicate Closer(s: System, s': System) {
    || |s'.inbox| < |s.inbox|
    || (|s'.inbox| == |s.inbox| && PendingLeft(s') < PendingLeft(s))
    || (|s'.inbox| == |s.inbox| && PendingLeft(s') == PendingLeft(s) && |s'.channel.buffer| < |s.channel.buffer|)
  }

  lemma DoomedForwards(cfg: Config, s: System)
    requires Inv(s) && Doomed(s) && s.phase.Forwarding?
    ensures var s' := Step(cfg, s, NextRead(s)); Doomed(s') && Closer(s, s')
  {
  }

  lemma DoomedReads(cfg: Config, s: System)
    requires Inv(s) && Doomed(s) && s.phase.Waiting?
    ensures var s' := Step(cfg, s, NextRead(s)); (s'.phase == Ended(MessageDropped) || Doomed(s')) && Closer(s, s')
  {
    if s.inbox[0].first <= s.readSeq { ReadKeepsInv(s); }
  }

  lemma DoomedStep(cfg: Config, es: seq<Event>)
    requires Doomed(Exec(cfg, es))
    ensures var s, s' := Exec(cfg, es), Exec(cfg, es + [NextRead(Exec(cfg, es))]);
            (s'.phase == Ended(MessageDropped) || Doomed(s')) && Closer(s, s')
  {
    var s := Exec(cfg, es);
    ExecKeepsInv(cfg, es);
    ExecStep(cfg, es, NextRead(s));
    if s.phase.Forwarding? { DoomedForwards(cfg, s); } else { DoomedReads(cfg, s); }
  }

  /** A reader with a gap in its inbox can be led to it. */
  lemma DoomedDrops(cfg: Config, es: seq<Event>) returns (more: seq<Event>)
    requires Doomed(Exec(cfg, es))
    ensures NoReturns(more) && Exec(cfg, es + more).phase == Ended(MessageDropped)
  {
    more := [];
    assert es + more == es;
    var s := Exec(cfg, es);
    while s.phase != Ended(MessageDropped)
      invariant s == Exec(cfg, es + more) && NoReturns(more)
      invariant s.phase == Ended(MessageDropped) || Doomed(s)
      decreases |s.inbox|, PendingLeft(s), |s.channel.buffer|
    {
      DoomedStep(cfg, es + more);
      assert es + (more + [NextRead(s)]) == es + more + [NextRead(s)];
      more := more + [NextRead(s)];
      s := Exec(cfg, es + more);
    }
  }

  /** After giving up the sink is idle, behind nothing. */
  lemma GaveUpState(cfg: Config, s: System, e: Event)
    requires Inv(s) && GivesUpAndGoesOn(cfg, s, e)
    ensures Step(cfg, s, e) ==
            s.(sink := Sink(|s.log|, [], false, false, false), loops := [], gaveUp := true)
  {
    assert LoopOk(s.loops[e.i], s);
  }

  /** The next message then travels in a packet that starts at the end of the log, as it was. */
  lemma NextPacketArrives(cfg: Config, s: System, m: Message)
    requires s.sink == Sink(|s.log|, [], false, false, false) && s.loops == []
    ensures var p := Packet(|s.log|, false, [m]);
            var s' := Step(cfg, Step(cfg, Step(cfg, s, WriteMessage(m)), LoopStarts(0)), Arrives(p));
            && s'.inbox == s.inbox + [p] && s'.readSeq == s.readSeq && s'.phase == s.phase && s'.channel == s.channel
            && !s'.sink.draining && s'.log == s.log + [m] && s'.taken == s.taken
  {
    var s1 := Step(cfg, s, WriteMessage(m));
    assert s1.sink == Sink(|s.log|, [m], true, false, false) && s1.loops == [Starting];
    var s2 := Step(cfg, s1, LoopStarts(0));
    assert Packet(|s.log|, false, [m]) in s2.sent;
  }

  lemma LossDooms(cfg: Config, es: seq<Event>, e: Event, m: Message) returns (more: seq<Event>)
    requires Loses(cfg, Exec(cfg, es), e)
    requires var s := Exec(cfg, es); !s.phase.Ended? && !s.channel.isClosed && s.channel.capacity > 0
    ensures NoReturns(more) && Doomed(Exec(cfg, es + [e] + more))
  {
    var s := Exec(cfg, es);
    ExecKeepsInv(cfg, es);
    GaveUpState(cfg, s, e);
    ExecStep(cfg, es, e);
    var e1 := es + [e];
    var p := Packet(|s.log|, false, [m]);
    ExecKeepsInv(cfg, e1);
    NextPacketArrives(cfg, Exec(cfg, e1), m);
    ExecStep(cfg, e1, WriteMessage(m));
    ExecStep(cfg, e1 + [WriteMessage(m)], LoopStarts(0));
    ExecStep(cfg, e1 + [WriteMessage(m)] + [LoopStarts(0)], Arrives(p));
    more := [WriteMessage(m), LoopStarts(0), Arrives(p)];
    assert e1 + [WriteMessage(m)] + [LoopStarts(0)] + [Arrives(p)] == e1 + more;
    ExecKeepsInv(cfg, e1 + more);
    ReachOneMore(s.readSeq, s.inbox, p);
  }

  /** In this continuation the reader reports a dropped message, though nothing more is lost in it. */
  ghost predicate DropFollows(cfg: Config, es: seq<Event>, more: seq<Event>) {
    && SendIsAcknowledged(cfg, es + more) && NeverLosesSince(cfg, |es|, es + more)
    && Exec(cfg, es + more).phase == Ended(MessageDropped)
  }

  lemma DoomedLeadsToDrop(cfg: Config, given: seq<Event>, first: seq<Event>) returns (more: seq<Event>)
    requires SendIsAcknowledged(cfg, given) && NoReturns(first) && Doomed(Exec(cfg, given + first))
    ensures DropFollows(cfg, given, more)
  {
    var rest := DoomedDrops(cfg, given + first);
    more := first + rest;
    var all := given + more;
    assert all == given + first + rest && all[..|given|] == given && all[|given|..] == more;
    QuietRun(cfg, |given|, all);
  }

  lemma LossLeadsToDrop(cfg: Config, es: seq<Event>, e: Event) returns (more: seq<Event>)
    requires SendIsAcknowledged(cfg, es) && Loses(cfg, Exec(cfg, es), e)
    requires var s := Exec(cfg, es); !s.phase.Ended? && !s.channel.isClosed && s.channel.capacity > 0
    ensures DropFollows(cfg, es + [e], more)
  {
    var first := LossDooms(cfg, es, e, Message(""));
    AcknowledgedOneMore(cfg, es, e);
    more := DoomedLeadsToDrop(cfg, es + [e], first);
  }

  /**
   At a step where the sink gives up and goes on, and nothing has been lost before: a drop can follow without a further
   loss if and only if the inbox does not lead to the end of the log. A sink that gives up on sends that were
   delivered after all loses nothing.
   */
  lemma GivingUpDropsIff(cfg: Config, es: seq<Event>, e: Event)
    requires SendIsAcknowledged(cfg, es) && NeverLoses(cfg, es) && GivesUpAndGoesOn(cfg, Exec(cfg, es), e)
    requires var s := Exec(cfg, es); !s.phase.Ended? && !s.channel.isClosed && s.channel.capacity > 0
    ensures (exists more: seq<Event> :: DropFollows(cfg, es + [e], more)) <==>
              Reach(Exec(cfg, es).readSeq, Exec(cfg, es).inbox) < |Exec(cfg, es).log|
  {
    if Loses(cfg, Exec(cfg, es), e) {
      var more := LossLeadsToDrop(cfg, es, e);
    } else {
      NeverLosesOneMore(cfg, es, e);
      forall more: seq<Event> ensures !DropFollows(cfg, es + [e], more) { NoDropFollows(cfg, es + [e], more); }
    }
  }

  lemma NoDropFollows(cfg: Config, es: seq<Event>, more: seq<Event>)
    requires NeverLoses(cfg, es)
    ensures !DropFollows(cfg, es, more)
  {
    if DropFollows(cfg, es, more) {
      assert (es + more)[..|es|] == es;
      NeverLosesInTwo(cfg, |es|, es + more);
      AckInvHolds(cfg, es + more);
    }
  }

  /** One message is sent, given up, and was never delivered; */
  lemma GiveUp(m: Message) returns (es: seq<Event>)
    ensures var cfg := Config(false, DEFAULT_MESSAGE_CHANNEL_SIZE);
            && SendIsAcknowledged(cfg, es)
            && Exec(cfg, es) == Init(cfg).(sink := Sink(1, [], false, false, false), log := [m],
                                           sent := {Packet(0, false, [m])}, gaveUp := true)
  {
    var cfg := Config(false, DEFAULT_MESSAGE_CHANNEL_SIZE);
    AcknowledgedOneMore(cfg, [], WriteMessage(m));
    ExecStep(cfg, [], WriteMessage(m));
    var e0 := [] + [WriteMessage(m)];
    assert Exec(cfg, e0) == Init(cfg).(sink := Sink(0, [m], true, false, false), loops := [Starting], log := [m]);
    AcknowledgedOneMore(cfg, e0, LoopStarts(0));
    ExecStep(cfg, e0, LoopStarts(0));
    var e1 := e0 + [LoopStarts(0)];
    var p := Packet(0, false, [m]);
    assert Exec(cfg, e1) == Exec(cfg, e0).(loops := [Sending(p)], sent := {p});
    AcknowledgedOneMore(cfg, e1, SendReturns(0, false, true));
    ExecStep(cfg, e1, SendReturns(0, false, true));
    es := e1 + [SendReturns(0, false, true)];
  }

  /** the next packet then arrives with nothing before it. */
  lemma NextIsAGap(m: Message, m': Message) returns (es: seq<Event>)
    ensures var cfg := Config(false, DEFAULT_MESSAGE_CHANNEL_SIZE);
            var s := Exec(cfg, es);
            && SendIsAcknowledged(cfg, es) && s.log == [m, m'] && s.Written() == []
            && s.inbox == [Packet(1, false, [m'])] && s.readSeq == 0 && s.phase.Waiting?
  {
    var cfg := Config(false, DEFAULT_MESSAGE_CHANNEL_SIZE);
    var e2 := GiveUp(m);
    NextPacketArrives(cfg, Exec(cfg, e2), m');
    AcknowledgedOneMore(cfg, e2, WriteMessage(m'));
    ExecStep(cfg, e2, WriteMessage(m'));
    var e3 := e2 + [WriteMessage(m')];
    AcknowledgedOneMore(cfg, e3, LoopStarts(0));
    ExecStep(cfg, e3, LoopStarts(0));
    var e4 := e3 + [LoopStarts(0)];
    AcknowledgedOneMore(cfg, e4, Arrives(Packet(1, false, [m'])));
    ExecStep(cfg, e4, Arrives(Packet(1, false, [m'])));
    es := e4 + [Arrives(Packet(1, false, [m']))];
  }

  /** Such a run: the sink gives up on an undelivered message and goes on, and the reader reports a dropped one. */
  lemma GivingUpDropsMessages(m: Message, m': Message) returns (cfg: Config, es: seq<Event>)
    ensures SendIsAcknowledged(cfg, es) && Exec(cfg, es).phase == Ended(MessageDropped)
    ensures Exec(cfg, es).log == [m, m'] && Exec(cfg, es).Written() == []
  {
    cfg := Config(false, DEFAULT_MESSAGE_CHANNEL_SIZE);
    var before := NextIsAGap(m, m');
    AcknowledgedOneMore(cfg, before, ReadPacket);
    ExecStep(cfg, before, ReadPacket);
    es := before + [ReadPacket];
  }
}
