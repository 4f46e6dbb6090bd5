/** Bounded channels as the workers use them (src/app/channels.rs). */
module Channels {

  /** A bounded queue together with the number of values it refused. */
  datatype Bounded<T> = Bounded(queue: seq<T>, drops: nat)

  /** A full queue keeps what it holds, loses the incoming value and counts it. */
  function Offered<T>(b: Bounded<T>, capacity: nat, value: T): Bounded<T> {
    if |b.queue| < capacity then b.(queue := b.queue + [value]) else b.(drops := b.drops + 1)
  }

  datatype TryRecv<T> = Received(value: T) | Empty | Disconnected

  class SyncChannel<T> {
    const capacity: nat
    var queue: seq<T>
    var drops: nat
    var senderAlive: bool
    var receiverAlive: bool

    function View(): Bounded<T>
      reads this
    {
      Bounded(queue, drops)
    }

    constructor (capacity: nat)
      ensures View() == Bounded([], 0) && senderAlive && receiverAlive && this.capacity == capacity
    {
      this.capacity := capacity;
      queue, drops, senderAlive, receiverAlive := [], 0, true, true;
    }

    /** `try_send_snapshot`: false means the receiver is gone. */
    method TrySendSnapshot(value: T) returns (alive: bool)
      modifies this
      ensures senderAlive == old(senderAlive) && receiverAlive == old(receiverAlive)
      ensures alive == old(receiverAlive)
      ensures View() == if alive then Offered(old(View()), capacity, value) else old(View())
    {
      if !receiverAlive {
        return false;
      }
      if |queue| < capacity {
        queue := queue + [value];
      } else {
        drops := drops + 1;
      }
      return true;
    }

    /** `Receiver::try_recv`: queued values outlive their sender. */
    method TryReceive() returns (r: TryRecv<T>)
      modifies this
      ensures senderAlive == old(senderAlive) && receiverAlive == old(receiverAlive) && drops == old(drops)
      ensures old(queue) != [] ==> r == Received(old(queue)[0]) && queue == old(queue)[1..]
      ensures old(queue) == [] ==> queue == [] && r == if senderAlive then Empty else Disconnected
    {
      if queue != [] {
        r := Received(queue[0]);
        queue := queue[1..];
      } else if senderAlive {
        r := Empty;
      } else {
        r := Disconnected;
      }
    }
  }
}
