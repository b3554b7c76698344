/**
 * The in-memory queue factory `Bernard\QueueFactory\InMemoryFactory`, as its
 * test suite pins it down: a cache from queue names to queue objects, where
 * `create` is identity-stable per name and `remove` evicts the entry and
 * closes the queue, after which every operation on it is refused.
 */
module QueueFactory {
  import opened Wrappers
  import opened Message
  import opened Slices

  /** `InvalidOperationException`, raised by an operation on a closed queue. */
  datatype QueueError = InvalidOperation(queue: string)

  /** `Bernard\Queue\InMemoryQueue`: an ordered list of messages and a closed flag. */
  class InMemoryQueue
  {
    const name: string
    var closed: bool
    var messages: seq<PlainMessage>

    constructor (name: string)
      ensures this.name == name && !closed && messages == []
    {
      this.name := name;
      closed := false;
      messages := [];
    }

    /** `close()`: from now on every operation is refused. */
    method Close()
      modifies this
      ensures closed && messages == old(messages)
    {
      closed := true;
    }

    /** `enqueue($envelope)`: appends, unless the queue is closed. */
    method Enqueue(message: PlainMessage) returns (r: Outcome<QueueError>)
      modifies this
      ensures closed == old(closed)
      ensures old(closed) ==> r == Fail(InvalidOperation(name)) && messages == old(messages)
      ensures !old(closed) ==> r == Pass && messages == old(messages) + [message]
    {
      if closed {
        return Fail(InvalidOperation(name));
      }
      messages := messages + [message];
      r := Pass;
    }

    /** `peek($index, $limit)`: up to `limit` messages from position `index`,
        in queue order, without removing them; refused once closed. */
    method Peek(index: nat, limit: nat) returns (r: Result<seq<PlainMessage>, QueueError>)
      ensures closed ==> r == Err(InvalidOperation(name))
      ensures !closed ==> r.Ok? && |r.value| == Window(|messages|, index, limit)
      ensures !closed ==> forall i :: 0 <= i < |r.value| ==> r.value[i] == messages[index + i]
    {
      if closed {
        return Err(InvalidOperation(name));
      }
      var result := [];
      var i := index;
      while i < |messages| && |result| < limit
        invariant |result| <= limit
        invariant |result| == (if index < i then i - index else 0)
        invariant index < |messages| ==> index <= i <= |messages|
        invariant index >= |messages| ==> i == index
        invariant forall k :: 0 <= k < |result| ==> result[k] == messages[index + k]
      {
        result := result + [messages[i]];
        i := i + 1;
      }
      r := Ok(result);
    }
  }

  class InMemoryFactory
  {
    /** The cache: one open queue object per created name. */
    var queues: map<string, InMemoryQueue>

    /** Each cached queue carries its own name, so distinct names map to
        distinct objects. */
    ghost predicate Valid()
      reads this, queues.Values
    {
      forall n :: n in queues ==> queues[n].name == n
    }

    constructor ()
      ensures Valid() && queues == map[]
    {
      queues := map[];
    }

    /** `create($queueName)`: the cached queue when there is one, otherwise a
        new open queue, which is cached. */
    method Create(name: string) returns (q: InMemoryQueue)
      requires Valid()
      modifies this
      ensures Valid()
      ensures name in old(queues) ==> q == old(queues)[name] && queues == old(queues)
      ensures name !in old(queues) ==> fresh(q) && !q.closed && q.messages == [] && queues == old(queues)[name := q]
      ensures q.name == name
    {
      if name in queues {
        return queues[name];
      }
      q := new InMemoryQueue(name);
      queues := queues[name := q];
    }

    /** `exists($queueName)` */
    method Exists(name: string) returns (b: bool)
      ensures b <==> name in queues
    {
      b := name in queues;
    }

    /** `count()`, the `Countable` size. */
    method Count() returns (n: nat)
      ensures n == |queues|
    {
      n := |queues|;
    }

    /** `all()` */
    method All() returns (m: map<string, InMemoryQueue>)
      ensures m == queues
    {
      m := queues;
    }

    /** `remove($queueName)`: evicts the cached queue and closes it. */
    method Remove(name: string)
      requires Valid()
      modifies this, queues.Values
      ensures Valid() && queues == old(queues) - {name}
      ensures name in old(queues) ==> old(queues)[name].closed
      ensures forall q :: q in old(queues.Values) && q.name != name ==> q.closed == old(q.closed)
      ensures forall q :: q in old(queues.Values) ==> q.messages == old(q.messages)
    {
      if name in queues {
        queues[name].Close();
        queues := queues - {name};
      }
    }
  }

  /** testRemoveClosesQueue: after `remove`, the count drops from 1 to 0 and
      a peek on the handle obtained before fails. */
  method RemoveClosesQueue() returns (existed: bool, countBefore: nat, countAfter: nat, peeked: Result<seq<PlainMessage>, QueueError>)
    ensures existed && countBefore == 1 && countAfter == 0
    ensures peeked == Err(InvalidOperation("queue"))
  {
    var factory := new InMemoryFactory();
    var queue := factory.Create("queue");
    existed := factory.Exists("queue");
    countBefore := factory.Count();
    factory.Remove("queue");
    countAfter := factory.Count();
    peeked := queue.Peek(0, 1);
  }

  /** testItCanCreateQueues: a new factory is empty; two creates give two
      distinct queues, `all()` maps each name to its queue, and a second
      `create` of a name returns the very same object. */
  method CreateQueues(name1: string, name2: string)
      returns (countBefore: nat, queue1: InMemoryQueue, queue2: InMemoryQueue, all: map<string, InMemoryQueue>, again: InMemoryQueue)
    requires name1 != name2
    ensures countBefore == 0
    ensures queue1 != queue2 && again == queue1
    ensures all == map[name1 := queue1, name2 := queue2] && |all| == 2
  {
    var factory := new InMemoryFactory();
    countBefore := factory.Count();
    queue1 := factory.Create(name1);
    queue2 := factory.Create(name2);
    all := factory.All();
    again := factory.Create(name1);
  }

  /** `create` stays identity-stable when a caller has closed the cached queue
      through its handle: it returns the same, still closed, object. */
  method CreateAfterClose(name: string) returns (same: bool, stillClosed: bool, count: nat)
    ensures same && stillClosed && count == 1
  {
    var factory := new InMemoryFactory();
    var queue := factory.Create(name);
    queue.Close();
    var again := factory.Create(name);
    same := again == queue;
    stillClosed := again.closed;
    count := factory.Count();
  }
}
