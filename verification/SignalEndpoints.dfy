/**
 The two ends of the signal relay (pkg/routing/signal.go): the sink, which queues messages and resends the
 whole unacknowledged queue, and the reader, which trims what it already has and refuses gaps.

 The write loop releases its lock only while a send is outstanding, so it is split there into two atomic
 sections: the loop head, which either ends the loop or hands a packet to Send, and the section that runs
 when Send returns, which ends the loop or falls through to the head again.
 */
module SignalEndpoints {
  import opened Common
  import opened MessageChannels

  /** A relay packet carries the messages numbered first, first + 1, ... */
  datatype Packet = Packet(first: nat, close: bool, msgs: seq<Message>) {
    function End(): nat { first + |msgs| }
  }

  // ---------- sink ----------

  datatype Sink = Sink(nextSeq: nat, queue: seq<Message>, writing: bool, draining: bool, streamClosed: bool)

  /** The sink after a section of the write loop, and the packet given to Send unless the loop has ended. */
  datatype LoopResult = LoopResult(sink: Sink, next: Option<Packet>)

  function EndLoop(s: Sink, failed: bool, closeOnFailure: bool): LoopResult {
    LoopResult(s.(writing := false, streamClosed := s.streamClosed || s.draining || (failed && closeOnFailure)), None)
  }

  function LoopHead(s: Sink, failed: bool, closeOnFailure: bool): LoopResult {
    if (!s.draining && s.queue == []) || s.streamClosed then
      EndLoop(s, failed, closeOnFailure)
    else
      LoopResult(s, Some(Packet(s.nextSeq, s.draining, s.queue)))
  }

  function AfterSend(s: Sink, packet: Packet, ok: bool, deadlinePassed: bool, closeOnFailure: bool): LoopResult
    requires |packet.msgs| <= |s.queue|
  {
    if !ok then
      if deadlinePassed then
        EndLoop(s.(nextSeq := s.nextSeq + |s.queue|, queue := []), true, closeOnFailure)
      else
        LoopHead(s, true, closeOnFailure)
    else
      var n := |packet.msgs|;
      var s' := s.(nextSeq := s.nextSeq + n, queue := s.queue[n..]);
      if packet.close then EndLoop(s', false, closeOnFailure) else LoopHead(s', false, closeOnFailure)
  }

  predicate Accepts(s: Sink) {
    !s.streamClosed && !s.draining
  }

  function AfterWriteMessage(s: Sink, m: Message): Sink {
    if Accepts(s) then s.(queue := s.queue + [m], writing := true) else s
  }

  function AfterClose(s: Sink): Sink {
    s.(draining := true, writing := true)
  }

  class SignalMessageSink {
    const closeOnFailure: bool
    var nextSeq: nat
    var queue: seq<Message>
    var writing: bool
    var draining: bool
    var streamClosed: bool

    function View(): Sink
      reads this
    {
      Sink(nextSeq, queue, writing, draining, streamClosed)
    }

    constructor (closeOnFailure: bool)
      ensures View() == Sink(0, [], false, false, false) && this.closeOnFailure == closeOnFailure
    {
      this.closeOnFailure := closeOnFailure;
      nextSeq, queue, writing, draining, streamClosed := 0, [], false, false, false;
    }

    /** `spawn` tells whether a write loop was started. */
    method WriteMessage(m: Message) returns (accepted: bool, spawn: bool)
      modifies this
      ensures View() == AfterWriteMessage(old(View()), m)
      ensures accepted == Accepts(old(View())) && spawn == (accepted && !old(writing))
    {
      if streamClosed || draining {
        return false, false;
      }
      queue := queue + [m];
      accepted, spawn := true, !writing;
      if !writing {
        writing := true;
      }
    }

    method Close() returns (spawn: bool)
      modifies this
      ensures View() == AfterClose(old(View())) && spawn == !old(writing)
    {
      draining := true;
      spawn := !writing;
      if !writing {
        writing := true;
      }
    }

    method LoopEnd(failed: bool)
      modifies this
      ensures View() == EndLoop(old(View()), failed, closeOnFailure).sink
    {
      writing := false;
      if draining {
        streamClosed := true;
      }
      if failed && closeOnFailure {
        streamClosed := true;
      }
    }

    method Head(failed: bool) returns (next: Option<Packet>)
      modifies this
      ensures LoopResult(View(), next) == LoopHead(old(View()), failed, closeOnFailure)
    {
      var close := draining;
      if (!close && |queue| == 0) || streamClosed {
        LoopEnd(failed);
        return None;
      }
      next := Some(Packet(nextSeq, close, queue));
    }

    method SendReturned(packet: Packet, ok: bool, deadlinePassed: bool) returns (next: Option<Packet>)
      requires |packet.msgs| <= |queue|
      modifies this
      ensures LoopResult(View(), next) == AfterSend(old(View()), packet, ok, deadlinePassed, closeOnFailure)
    {
      if !ok && deadlinePassed {
        nextSeq := nextSeq + |queue|;
        queue := [];
        LoopEnd(true);
        return None;
      }
      if ok {
        var n := |packet.msgs|;
        nextSeq := nextSeq + n;
        queue := queue[n..];
        if packet.close {
          LoopEnd(false);
          return None;
        }
      }
      next := Head(!ok);
    }
  }

  // ---------- reader ----------

  /** What the reader keeps of a packet: None is a gap, otherwise the messages it did not have yet. */
  function Trim(nextSeq: nat, p: Packet): Option<seq<Message>> {
    if nextSeq < p.first then None
    else Some(p.msgs[(if nextSeq - p.first > |p.msgs| then |p.msgs| else nextSeq - p.first)..])
  }

  predicate IsSlice(p: Packet, log: seq<Message>) {
    p.End() <= |log| && p.msgs == log[p.first..p.End()]
  }

  /** When the packet is a slice of a log of which the reader has a prefix, trimming extends that prefix. */
  lemma TrimExtendsPrefix(log: seq<Message>, nextSeq: nat, p: Packet)
    requires nextSeq <= |log| && IsSlice(p, log) && p.first <= nextSeq
    ensures Trim(nextSeq, p).Some?
    ensures var kept := Trim(nextSeq, p).value;
            && log[..nextSeq] + kept == log[..nextSeq + |kept|]
            && nextSeq + |kept| == Max(nextSeq, p.End())
  {
  }

  datatype CopyOutcome = CleanClose | MessageDropped | WriteFailed(why: WriteResult) | StreamEnded

  class SignalMessageReader {
    var nextSeq: nat

    constructor ()
      ensures nextSeq == 0
    {
      nextSeq := 0;
    }

    method Read(p: Packet) returns (res: Option<seq<Message>>)
      modifies this
      ensures res == Trim(old(nextSeq), p)
      ensures nextSeq == old(nextSeq) + (if res.Some? then |res.value| else 0)
    {
      if nextSeq < p.first {
        return None;
      }
      var msgs := p.msgs;
      if nextSeq > p.first {
        var n := nextSeq - p.first;
        if n > |msgs| {
          n := |msgs|;
        }
        msgs := msgs[n..];
      }
      nextSeq := nextSeq + |msgs|;
      return Some(msgs);
    }
  }

  // ---------- copying a stream into a channel ----------

  /** Writes messages until the channel refuses one. */
  function ForwardAll(c: Channel, msgs: seq<Message>): (Channel, Option<WriteResult>)
    decreases |msgs|
  {
    if msgs == [] then (c, None)
    else if WriteResultOf(c) != Published then (c, Some(WriteResultOf(c)))
    else ForwardAll(AfterWrite(c, msgs[0]), msgs[1..])
  }

  function CopyAll(nextSeq: nat, c: Channel, packets: seq<Packet>): (Channel, CopyOutcome)
    decreases |packets|
  {
    if packets == [] then (c, StreamEnded)
    else
      var p := packets[0];
      match Trim(nextSeq, p)
      case None => (c, MessageDropped)
      case Some(msgs) =>
        var (c', refused) := ForwardAll(c, msgs);
        if refused.Some? then (c', WriteFailed(refused.value))
        else if p.close then (c', CleanClose)
        else CopyAll(nextSeq + |msgs|, c', packets[1..])
  }

  /** Copies packets while nothing is received from the channel; the consumer's steps are in SignalRelay. */
  method CopySignalStreamToMessageChannel(packets: seq<Packet>, ch: MessageChannel) returns (outcome: CopyOutcome)
    requires ch.Valid()
    modifies ch`msgChan
    ensures ch.Valid() && (ch.View(), outcome) == CopyAll(0, old(ch.View()), packets)
  {
    var r := new SignalMessageReader();
    for i := 0 to |packets|
      invariant ch.Valid() && fresh(r)
      invariant CopyAll(0, old(ch.View()), packets) == CopyAll(r.nextSeq, ch.View(), packets[i..])
    {
      assert packets[i..][1..] == packets[i + 1..];
      ghost var start, before := r.nextSeq, ch.View();
      var res := r.Read(packets[i]);
      if res.None? {
        return MessageDropped;
      }
      var msgs := res.value;
      for j := 0 to |msgs|
        invariant ch.Valid() && fresh(r) && r.nextSeq == start + |msgs|
        invariant ForwardAll(before, msgs) == ForwardAll(ch.View(), msgs[j..])
      {
        assert msgs[j..][1..] == msgs[j + 1..];
        var written := ch.WriteMessage(msgs[j]);
        if written != Published {
          return WriteFailed(written);
        }
      }
      if packets[i].close {
        return CleanClose;
      }
    }
    return StreamEnded;
  }

  lemma {:induction false} ForwardAllAppends(c: Channel, msgs: seq<Message>)
    ensures var (c', refused) := ForwardAll(c, msgs);
            && c.buffer <= c'.buffer <= c.buffer + msgs && c'.capacity == c.capacity && c'.isClosed == c.isClosed
            && (refused.None? ==> c'.buffer == c.buffer + msgs)
            && (refused == Some(ChannelFull) ==> |c'.buffer| >= c.capacity)
            && (refused == Some(ChannelClosed) <==> c.isClosed && msgs != [])
            && (refused.None? <==> msgs == [] || (!c.isClosed && |c.buffer| + |msgs| <= c.capacity))
    decreases |msgs|
  {
    if msgs != [] && WriteResultOf(c) == Published {
      var c1 := AfterWrite(c, msgs[0]);
      ForwardAllAppends(c1, msgs[1..]);
      assert c1.buffer + msgs[1..] == c.buffer + msgs;
    }
  }

  lemma ForwardingASliceExtendsPrefix(log: seq<Message>, nextSeq: nat, c: Channel, p: Packet)
    requires nextSeq <= |log| && c.buffer == log[..nextSeq] && IsSlice(p, log) && p.first <= nextSeq
    ensures var msgs := Trim(nextSeq, p).value;
            var (c', refused) := ForwardAll(c, msgs);
            && c.buffer <= c'.buffer <= log
            && (refused.None? ==> nextSeq + |msgs| <= |log| && c'.buffer == log[..nextSeq + |msgs|])
  {
    TrimExtendsPrefix(log, nextSeq, p);
    ForwardAllAppends(c, Trim(nextSeq, p).value);
  }

  /** Copying any sequence of slices of a log leaves a prefix of that log in the channel. */
  lemma {:induction false} CopyWritesAPrefix(log: seq<Message>, nextSeq: nat, c: Channel, packets: seq<Packet>)
    requires nextSeq <= |log| && c.buffer == log[..nextSeq]
    requires forall p <- packets :: IsSlice(p, log)
    ensures c.buffer <= CopyAll(nextSeq, c, packets).0.buffer <= log
    decreases |packets|
  {
    if packets != [] && packets[0].first <= nextSeq {
      var p := packets[0];
      ForwardingASliceExtendsPrefix(log, nextSeq, c, p);
      var msgs := Trim(nextSeq, p).value;
      var (c', refused) := ForwardAll(c, msgs);
      if refused.None? && !p.close {
        CopyWritesAPrefix(log, nextSeq + |msgs|, c', packets[1..]);
      }
    }
  }
}
