/** The bounded channel a signal reader writes into (pkg/routing/messagechannel.go). */
module MessageChannels {
  import opened Common

  /** One encoded signal message. */
  datatype Message = Message(body: string)

  const DEFAULT_MESSAGE_CHANNEL_SIZE: nat := 200

  datatype WriteResult = Published | ChannelClosed | ChannelFull

  /** What a channel holds: the buffered messages, oldest first. */
  datatype Channel = Channel(capacity: nat, buffer: seq<Message>, isClosed: bool)

  function WriteResultOf(c: Channel): WriteResult {
    if c.isClosed then ChannelClosed
    else if |c.buffer| < c.capacity then Published
    else ChannelFull
  }

  function AfterWrite(c: Channel, m: Message): Channel {
    if WriteResultOf(c) == Published then c.(buffer := c.buffer + [m]) else c
  }

  class MessageChannel {
    const capacity: nat
    var msgChan: seq<Message>
    var isClosed: bool
    var onCloseCalls: nat  // how often the close callback has run

    ghost predicate Valid()
      reads this
    {
      && |msgChan| <= capacity
      && onCloseCalls == (if isClosed then 1 else 0)
    }

    function View(): Channel
      reads this
    {
      Channel(capacity, msgChan, isClosed)
    }

    constructor (size: nat)
      ensures Valid() && View() == Channel(size, [], false)
    {
      capacity := size;
      msgChan := [];
      isClosed := false;
      onCloseCalls := 0;
    }

    method WriteMessage(m: Message) returns (r: WriteResult)
      requires Valid()
      modifies this`msgChan
      ensures Valid()
      ensures r == WriteResultOf(old(View())) && View() == AfterWrite(old(View()), m)
    {
      if isClosed {
        return ChannelClosed;
      }
      if |msgChan| < capacity {
        msgChan := msgChan + [m];
        return Published;
      }
      return ChannelFull;
    }

    /** A receive on the channel: takes the oldest message, if there is one. */
    method Receive() returns (m: Option<Message>)
      requires Valid()
      modifies this`msgChan
      ensures Valid() && isClosed == old(isClosed)
      ensures old(msgChan) == (if m.Some? then [m.value] else []) + msgChan
      ensures m.None? <==> old(msgChan) == []
    {
      if msgChan == [] {
        return None;
      }
      m := Some(msgChan[0]);
      msgChan := msgChan[1..];
    }

    /** Closing twice is closing once: the callback runs a single time and buffered messages stay readable. */
    method Close()
      requires Valid()
      modifies this`isClosed, this`onCloseCalls
      ensures Valid() && View() == old(View()).(isClosed := true)
    {
      if isClosed {
        return;
      }
      isClosed := true;
      onCloseCalls := onCloseCalls + 1;
    }
  }
}
