/** The bounded queue between the engine and one consumer (src/http/token_channel.cpp). */
module TokenChannels {
  import opened Lifecycle

  datatype FinishReason = NotFinished | Stop | Length

  datatype TokenEvent = TokenEvent(token: nat, reason: FinishReason)

  /** A channel's value; `popped` is its history: what its consumer has taken so far. */
  datatype Channel = Channel(capacity: nat, buffer: seq<TokenEvent>, closed: bool, popped: seq<TokenEvent>)
  {
    /** Everything ever accepted, in order. */
    function Stream(): seq<TokenEvent> { popped + buffer }

    predicate CanPush() { !closed && |buffer| < capacity }

    function Push(event: TokenEvent): Channel
      requires CanPush()
    {
      this.(buffer := buffer + [event])
    }

    /** A blocked consumer wakes up when there is something to take or the channel is closed. */
    predicate CanPop() { buffer != [] || closed }

    function Pop(): Channel
      requires CanPop()
    {
      if buffer == [] then this else this.(buffer := buffer[1..], popped := popped + [buffer[0]])
    }

    function Close(): Channel { this.(closed := true) }
  }

  function NewChannel(capacity: nat): Channel {
    Channel(capacity, [], false, [])
  }

  lemma PushExtendsStream(ch: Channel, event: TokenEvent)
    requires ch.CanPush()
    ensures ch.Push(event).Stream() == ch.Stream() + [event]
  {
  }

  lemma PopKeepsStream(ch: Channel)
    requires ch.CanPop()
    ensures ch.Pop().Stream() == ch.Stream()
  {
    if ch.buffer != [] {
      assert ch.buffer == [ch.buffer[0]] + ch.buffer[1..];
    }
  }

  /** A pop hands out the oldest buffered event, takes it and nothing else off the buffer, and records it. */
  lemma PopTakesOldest(ch: Channel)
    requires ch.CanPop() && ch.buffer != []
    ensures ch.buffer == [ch.buffer[0]] + ch.Pop().buffer && ch.Pop().popped == ch.popped + [ch.buffer[0]]
  {
  }

  /** The mutable channel; each method is one lock region. */
  class TokenChannel {
    const capacity: nat
    var buffer: seq<TokenEvent>
    var closed: bool
    ghost var popped: seq<TokenEvent>

    constructor (capacity: nat)
      ensures View() == NewChannel(capacity)
    {
      this.capacity := capacity;
      buffer, closed, popped := [], false, [];
    }

    ghost function View(): Channel
      reads this
    {
      Channel(capacity, buffer, closed, popped)
    }

    method TryPush(event: TokenEvent) returns (ok: bool)
      modifies this
      ensures ok <==> old(View()).CanPush()
      ensures ok <==> !old(closed) && |old(buffer)| < capacity
      ensures buffer == if ok then old(buffer) + [event] else old(buffer)
      ensures closed == old(closed) && popped == old(popped)
      ensures View() == if ok then old(View()).Push(event) else old(View())
      ensures View().Stream() == old(View()).Stream() + (if ok then [event] else [])
    {
      if closed || |buffer| >= capacity {
        return false;
      }
      PushExtendsStream(View(), event);
      buffer := buffer + [event];
      return true;
    }

    /** Enabled once the wait is over. */
    method Pop() returns (event: Option<TokenEvent>)
      requires View().CanPop()
      modifies this
      ensures View() == old(View()).Pop() && View().Stream() == old(View()).Stream()
      ensures event == if old(buffer) == [] then None else Some(old(buffer)[0])
      ensures buffer == if old(buffer) == [] then [] else old(buffer)[1..]
      ensures popped == old(popped) + (if event.Some? then [event.value] else []) && closed == old(closed)
    {
      PopKeepsStream(View());
      if buffer == [] {
        return None;
      }
      event := Some(buffer[0]);
      popped := popped + [buffer[0]];
      buffer := buffer[1..];
    }

    method Close()
      modifies this
      ensures View() == old(View()).Close() && View().Stream() == old(View()).Stream()
      ensures closed && buffer == old(buffer) && popped == old(popped)
    {
      closed := true;
    }
  }
}
