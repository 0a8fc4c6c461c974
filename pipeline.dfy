/**
 * The sentinel-terminated producer/consumer protocol of the first two
 * versions of the mayhem service (part_1/mayhem_1.py over queue.Queue and
 * mayhem_4.py over asyncio.Queue).  The publisher puts messages 1..n and then
 * one None on a FIFO queue; the consumer takes items from the head until it
 * meets that None.
 *
 * Both versions run the same steps in the same order: an unbounded
 * asyncio.Queue never suspends on put, so the publish task of mayhem_4.py
 * runs to completion before the consume task takes its first item, exactly
 * as the sequential calls of mayhem_1.py do.  Each await is therefore one
 * ordinary step on the shared queue here.
 */
module Pipeline {
  import opened Options
  import opened Naming

  /** A published event: its instance, its sequence number and the derived hostname. */
  datatype PubSubMessage = PubSubMessage(instanceName: string, messageId: int, hostname: string)

  /** Construction of a message, including the post-init hook that derives the hostname. */
  function NewMessage(instanceName: string, messageId: int): (msg: PubSubMessage)
    ensures msg.instanceName == instanceName && msg.messageId == messageId
    ensures InstanceNameOf(msg.hostname) == Some(instanceName)
  {
    HostnameRoundTrip(instanceName, Hostname(instanceName));
    PubSubMessage(instanceName, messageId, Hostname(instanceName))
  }

  /** A queue item: a message, or None, the publisher's end-of-stream sentinel. */
  type Item = Option<PubSubMessage>

  /** A FIFO queue (queue.Queue / asyncio.Queue), unbounded, seen as the sequence of its items. */
  class FifoQueue {
    var items: seq<Item>

    constructor ()
      ensures items == []
    {
      items := [];
    }

    /** Inserts at the tail. */
    method Put(item: Item)
      modifies this
      ensures items == old(items) + [item]
    {
      items := items + [item];
    }

    /** Removes and returns the head. */
    method Get() returns (item: Item)
      requires items != []
      modifies this
      ensures item == old(items)[0]
      ensures items == old(items)[1..]
    {
      item := items[0];
      items := items[1..];
    }
  }

  /** The messages publish creates, the i-th one from the i-th random host id. */
  function Published(hostIds: seq<HostId>): (msgs: seq<PubSubMessage>)
    ensures |msgs| == |hostIds|
    ensures forall i :: 0 <= i < |msgs| ==> msgs[i].messageId == i + 1
    ensures forall i :: 0 <= i < |msgs| ==> HostIdOf(msgs[i].instanceName) == Some(hostIds[i])
    ensures forall i, j :: 0 <= i < j < |msgs| ==> msgs[i].messageId < msgs[j].messageId
  {
    var msgs := seq(|hostIds|, i requires 0 <= i < |hostIds| => NewMessage(InstanceName(hostIds[i]), i + 1));
    forall i | 0 <= i < |msgs| ensures HostIdOf(msgs[i].instanceName) == Some(hostIds[i]) {
      InstanceNameRoundTrip(hostIds[i], msgs[i].instanceName);
    }
    msgs
  }

  function Wrap(msgs: seq<PubSubMessage>): (items: seq<Item>)
    ensures |items| == |msgs| && None !in items
    ensures forall i :: 0 <= i < |msgs| ==> items[i] == Some(msgs[i])
  {
    seq(|msgs|, i requires 0 <= i < |msgs| => Some(msgs[i]))
  }

  function Unwrap(items: seq<Item>): (msgs: seq<PubSubMessage>)
    requires None !in items
    ensures |msgs| == |items|
    ensures forall i :: 0 <= i < |items| ==> items[i] == Some(msgs[i])
  {
    var msgs := seq(|items|, i requires 0 <= i < |items| => items[i].value);
    forall i | 0 <= i < |items| ensures items[i] == Some(msgs[i]) {
      assert items[i] in items;
    }
    msgs
  }

  /** Everything one publish call appends: its messages in order, then one sentinel. */
  function Batch(hostIds: seq<HostId>): (items: seq<Item>)
    ensures |items| == |hostIds| + 1
    ensures items[|hostIds|] == None && None !in items[..|hostIds|]
    ensures Unwrap(items[..|hostIds|]) == Published(hostIds)
  {
    var items := Wrap(Published(hostIds)) + [None];
    assert items[..|hostIds|] == Wrap(Published(hostIds));
    items
  }

  /** publish(queue, n): one message per id 1..n, each with a fresh random host id, then None. */
  method Publish(queue: FifoQueue, n: int, hostIds: seq<HostId>)
    requires |hostIds| == if n > 0 then n else 0
    modifies queue
    ensures queue.items == old(queue.items) + Batch(hostIds)
    ensures n <= 0 ==> queue.items == old(queue.items) + [None]
  {
    var x := 1;
    while x < n + 1
      invariant 1 <= x <= |hostIds| + 1
      invariant queue.items == old(queue.items) + Wrap(Published(hostIds)[..x - 1])
    {
      var hostId := hostIds[x - 1];
      var instanceName := InstanceName(hostId);
      var msg := NewMessage(instanceName, x);
      queue.Put(Some(msg));
      assert Published(hostIds)[..x] == Published(hostIds)[..x - 1] + [msg];
      x := x + 1;
    }
    assert Published(hostIds)[..x - 1] == Published(hostIds);
    queue.Put(None);
  }

  /** Position of the first sentinel: the point where consume stops. */
  function SentinelIndex(items: seq<Item>): (k: nat)
    requires None in items
    ensures k < |items| && items[k] == None
    ensures forall i :: 0 <= i < k ==> items[i] != None
  {
    if items[0] == None then 0
    else
      assert items == [items[0]] + items[1..];
      1 + SentinelIndex(items[1..])
  }

  /**
   * What consume does, one get at a time: the messages it processes and the
   * items it leaves behind.  Every item is processed, is the sentinel, or remains.
   */
  function Drain(items: seq<Item>): (r: (seq<PubSubMessage>, seq<Item>))
    requires None in items
    ensures |r.0| + 1 + |r.1| == |items|
  {
    if items[0] == None then ([], items[1..])
    else
      assert items == [items[0]] + items[1..];
      var (processed, rest) := Drain(items[1..]);
      ([items[0].value] + processed, rest)
  }

  /** consume(queue): takes items from the head until the first None and processes each message. */
  method Consume(queue: FifoQueue) returns (processed: seq<PubSubMessage>)
    requires None in queue.items
    modifies queue
    ensures (processed, queue.items) == Drain(old(queue.items))
    ensures var k := SentinelIndex(old(queue.items));
      processed == Unwrap(old(queue.items)[..k]) && queue.items == old(queue.items)[k + 1..]
  {
    ghost var all := Drain(queue.items);
    processed := [];
    assert all.0 == processed + Drain(queue.items).0;
    while true
      invariant None in queue.items
      invariant all.0 == processed + Drain(queue.items).0
      invariant all.1 == Drain(queue.items).1
      decreases |queue.items|
    {
      ghost var before := queue.items;
      var item := queue.Get();
      if item == None {
        assert Drain(before) == ([], queue.items);
        assert processed + [] == processed;
        break;
      }
      assert before == [item] + queue.items;
      assert Drain(before).0 == [item.value] + Drain(queue.items).0;
      assert processed + Drain(before).0 == (processed + [item.value]) + Drain(queue.items).0;
      processed := processed + [item.value];
    }
    DrainAtFirstSentinel(old(queue.items));
  }

  /** consume stops at the first sentinel: it processes exactly the messages before it. */
  lemma {:induction false} DrainAtFirstSentinel(items: seq<Item>)
    requires None in items
    ensures var k := SentinelIndex(items);
      Drain(items) == (Unwrap(items[..k]), items[k + 1..])
  {
    if items[0] != None {
      var tail := items[1..];
      assert items == [items[0]] + tail;
      DrainAtFirstSentinel(tail);
      var k := SentinelIndex(items);
      var j := SentinelIndex(tail);
      assert j == k - 1 by {
        assert items[..k] == [items[0]] + tail[..k - 1];
      }
      assert items[..k] == [items[0]] + tail[..j];
      assert Unwrap(items[..k]) == [items[0].value] + Unwrap(tail[..j]);
      assert tail[j + 1..] == items[k + 1..];
    }
  }

  /** Whatever follows the first sentinel is left on the queue untouched. */
  lemma {:induction false} DrainKeepsTail(items: seq<Item>, later: seq<Item>)
    requires None in items
    ensures None in items + later
    ensures Drain(items + later) == (Drain(items).0, Drain(items).1 + later)
  {
    assert (items + later)[0] == items[0];
    if items[0] == None {
      assert (items + later)[1..] == items[1..] + later;
    } else {
      var tail := items[1..];
      assert items == [items[0]] + tail;
      assert items + later == [items[0]] + (tail + later);
      DrainKeepsTail(tail, later);
      assert (items + later)[1..] == tail + later;
    }
  }

  /**
   * FIFO hand-off: messages already waiting are processed first, then the new
   * batch in publish order, and the queue is left empty.
   */
  lemma {:induction false} DrainAfterPublish(pending: seq<PubSubMessage>, hostIds: seq<HostId>)
    ensures None in Wrap(pending) + Batch(hostIds)
    ensures Drain(Wrap(pending) + Batch(hostIds)) == (pending + Published(hostIds), [])
  {
    var items := Wrap(pending) + Batch(hostIds);
    var k := |pending| + |hostIds|;
    assert items[k] == None;
    assert items[..k] == Wrap(pending) + Batch(hostIds)[..|hostIds|];
    assert Wrap(pending + Published(hostIds)) == items[..k];
    DrainAtFirstSentinel(items);
    assert SentinelIndex(items) == k;
    var all := pending + Published(hostIds);
    forall i | 0 <= i < k ensures Unwrap(items[..k])[i] == all[i] {
      assert Wrap(all)[i] == Some(all[i]);
    }
    assert Unwrap(items[..k]) == all;
  }

  /** main: publish n messages on a new queue, then consume them. */
  method Run(n: int, hostIds: seq<HostId>) returns (processed: seq<PubSubMessage>, line: FifoQueue)
    requires |hostIds| == if n > 0 then n else 0
    ensures processed == Published(hostIds)
    ensures |processed| == |hostIds| && line.items == []
  {
    line := new FifoQueue();
    Publish(line, n, hostIds);
    assert line.items == Wrap([]) + Batch(hostIds);
    DrainAfterPublish([], hostIds);
    processed := Consume(line);
  }
}
