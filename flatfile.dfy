/**
 * The flat-file queue driver `Bernard\Driver\FlatFile\Driver`, as its test
 * suite pins it down. One queue is one directory holding a counter of the next
 * id, the pending `<id>.job` files and the claimed files a pop renamed away.
 * Here a directory is a `QueueState` value and the root directory is the map
 * `Driver.queues` from queue names to those values.
 */
module FlatFile {
  import opened Wrappers
  import opened Slices

  newtype byte = x: int | 0 <= x < 256

  /** A message body: the driver stores and returns it byte for byte. */
  type Bytes = seq<byte>

  /** The contents of one queue directory. `pending` are the `<id>.job` files,
      `claimed` the ones a pop has taken and that await acknowledgement. */
  datatype QueueState = QueueState(nextId: nat, pending: map<nat, Bytes>, claimed: map<nat, Bytes>)

  /** A freshly created queue directory: no files, and the first id is 1. */
  const EmptyQueue: QueueState := QueueState(1, map[], map[])

  /** What a pop hands out: the body, and the receipt (the id of the claimed file). */
  datatype DriverMessage = DriverMessage(message: Bytes, receipt: nat)

  datatype DriverError = QueueNotFound(queue: string) | UnknownReceipt(receipt: nat)

  /** Ids are handed out from 1 below `nextId`, and no file is both pending and claimed. */
  ghost predicate WellFormed(q: QueueState)
  {
    1 <= q.nextId &&
    (forall id :: id in q.pending ==> 1 <= id < q.nextId) &&
    (forall id :: id in q.claimed ==> 1 <= id < q.nextId) &&
    q.pending.Keys !! q.claimed.Keys
  }

  /** Every id in the queue, and every id it will hand out, comes after `last`. */
  ghost predicate IdsAfter(q: QueueState, last: nat)
  {
    last < q.nextId &&
    (forall id :: id in q.pending ==> last < id) &&
    (forall id :: id in q.claimed ==> last < id)
  }

  /** A new queue directory under `name`. Its ids continue after the last id a
      removed queue of that name handed out, so no receipt of the removed queue
      can name one of its files; a name never used before starts at id 1. */
  function NewQueue(lastIds: map<string, nat>, name: string): (q: QueueState)
    ensures WellFormed(q) && q.pending == map[] && q.claimed == map[]
    ensures name !in lastIds ==> q == EmptyQueue
    ensures name in lastIds ==> IdsAfter(q, lastIds[name])
  {
    QueueState((if name in lastIds then lastIds[name] else 0) + 1, map[], map[])
  }

  /** `createQueue`: a queue that already exists is left as it is. */
  function Created(queues: map<string, QueueState>, lastIds: map<string, nat>, name: string): (r: map<string, QueueState>)
    ensures name in r && r.Keys == queues.Keys + {name}
    ensures forall n :: n in queues ==> r[n] == queues[n]
    ensures name !in queues ==> r[name] == NewQueue(lastIds, name)
  {
    if name in queues then queues else queues[name := NewQueue(lastIds, name)]
  }

  /** `pushMessage`: the body goes into a new pending file under the next id. */
  function Pushed(q: QueueState, payload: Bytes): (r: QueueState)
    ensures WellFormed(q) ==> WellFormed(r) && q.nextId !in q.pending && q.nextId !in q.claimed
    ensures r.pending.Keys == q.pending.Keys + {q.nextId} && r.pending[q.nextId] == payload
    ensures forall id :: id in q.pending && id != q.nextId ==> r.pending[id] == q.pending[id]
    ensures r.nextId == q.nextId + 1 && r.claimed == q.claimed
  {
    QueueState(q.nextId + 1, q.pending[q.nextId := payload], q.claimed)
  }

  /** Moving a pending file to the claimed state keeps its body. */
  function Claimed(q: QueueState, id: nat): (r: QueueState)
    requires id in q.pending
    ensures WellFormed(q) ==> WellFormed(r)
    ensures id !in r.pending && id in r.claimed && r.claimed[id] == q.pending[id]
    ensures r.pending.Keys == q.pending.Keys - {id} && |r.pending| == |q.pending| - 1
  {
    QueueState(q.nextId, q.pending - {id}, q.claimed[id := q.pending[id]])
  }

  /** Claiming one file leaves every other file, pending or claimed, and the
      id counter as they were. */
  lemma ClaimKeepsOthers(q: QueueState, id: nat)
    requires id in q.pending
    ensures forall j :: j in Claimed(q, id).pending ==> Claimed(q, id).pending[j] == q.pending[j]
    ensures forall j :: j in q.claimed && j != id ==> j in Claimed(q, id).claimed && Claimed(q, id).claimed[j] == q.claimed[j]
    ensures Claimed(q, id).nextId == q.nextId
  {
  }

  /** `acknowledgeMessage`: the claimed file is deleted. */
  function Acknowledged(q: QueueState, id: nat): (r: QueueState)
    requires id in q.claimed
    ensures WellFormed(q) ==> WellFormed(r)
    ensures r.pending == q.pending && id !in r.claimed
    ensures r.claimed.Keys == q.claimed.Keys - {id}
  {
    QueueState(q.nextId, q.pending, q.claimed - {id})
  }

  /** The largest id of a non-empty set: the newest message. */
  ghost function NewestId(ids: set<nat>): (m: nat)
    requires ids != {}
    ensures m in ids && forall id :: id in ids ==> id <= m
  {
    var x :| x in ids;
    var others := ids - {x};
    assert forall id :: id in ids ==> id == x || id in others;
    if others == {} then x
    else
      var rest := NewestId(others);
      if x <= rest then rest else x
  }

  /** `popMessage` with nothing pending yields no message; otherwise it claims
      the newest pending message. */
  ghost function Popped(q: QueueState): (r: (Option<DriverMessage>, QueueState))
    ensures WellFormed(q) ==> WellFormed(r.1)
    ensures q.pending == map[] ==> r == (None, q)
    ensures q.pending != map[] ==>
              && r.0.Some? && r.0.value.receipt in q.pending
              && r.0.value.message == q.pending[r.0.value.receipt]
              && (forall id :: id in q.pending ==> id <= r.0.value.receipt)
              && r.1 == Claimed(q, r.0.value.receipt)
  {
    if q.pending == map[] then (None, q)
    else
      var id := NewestId(q.pending.Keys);
      (Some(DriverMessage(q.pending[id], id)), Claimed(q, id))
  }

  /** The bodies that pops deliver, one after the other, until nothing is pending. */
  ghost function DrainOrder(pending: map<nat, Bytes>): (r: seq<Bytes>)
    ensures |r| == |pending|
    decreases |pending|
  {
    if pending == map[] then []
    else
      var id := NewestId(pending.Keys);
      assert (pending - {id}).Keys == pending.Keys - {id};
      [pending[id]] + DrainOrder(pending - {id})
  }

  /** Pushes, in order. */
  function PushedAll(q: QueueState, payloads: seq<Bytes>): (r: QueueState)
    ensures WellFormed(q) ==> WellFormed(r)
    ensures r.nextId == q.nextId + |payloads| && r.claimed == q.claimed
    decreases |payloads|
  {
    if payloads == [] then q else PushedAll(Pushed(q, payloads[0]), payloads[1..])
  }

  function Reversed<T>(s: seq<T>): (r: seq<T>)
    ensures |r| == |s|
  {
    if s == [] then [] else Reversed(s[1..]) + [s[0]]
  }

  // ConcatAssociative, PrefixStep and EmptyPrefix state sequence facts Dafny
  // knows already. The proofs below call them by name so that the solver meets
  // each fact once, on generic sequences, instead of searching for it among
  // sequences of byte sequences, which is far slower.

  lemma ConcatAssociative<T>(a: seq<T>, b: seq<T>, c: seq<T>)
    ensures a + (b + c) == (a + b) + c
  {
  }

  /** Reversing a sequence with one more element at its end puts that element first. */
  lemma {:induction false} ReversedSnoc<T>(s: seq<T>, x: T)
    ensures Reversed(s + [x]) == [x] + Reversed(s)
  {
    if s != [] {
      assert (s + [x])[1..] == s[1..] + [x];
      ReversedSnoc(s[1..], x);
    }
  }

  /** The first element of a sequence followed by a prefix of its tail is a
      prefix one longer, capped at the length of the sequence. */
  lemma PrefixStep<T>(whole: seq<T>, rest: seq<T>, taken: seq<T>, n: nat)
    requires 0 < n && whole != [] && rest == whole[1..]
    requires taken == rest[..if n - 1 <= |rest| then n - 1 else |rest|]
    ensures [whole[0]] + taken == whole[..if n <= |whole| then n else |whole|]
  {
  }

  lemma EmptyPrefix<T>(s: seq<T>)
    ensures s[..0] == []
  {
  }

  /** Two ids that are both the largest of a set are the same id. */
  lemma NewestIsUnique(ids: set<nat>, id: nat)
    requires id in ids && forall j :: j in ids ==> j <= id
    ensures NewestId(ids) == id
  {
  }

  /** Creating a queue twice leaves the state creating it once does. */
  lemma CreateIdempotent(queues: map<string, QueueState>, lastIds: map<string, nat>, name: string)
    ensures Created(Created(queues, lastIds, name), lastIds, name) == Created(queues, lastIds, name)
    ensures name in Created(queues, lastIds, name)
  {
  }

  /** Pushing, popping and acknowledging never hand out or bring back an id
      at or below `last`. */
  lemma PushKeepsIdsAfter(q: QueueState, payload: Bytes, last: nat)
    requires IdsAfter(q, last)
    ensures IdsAfter(Pushed(q, payload), last)
  {
  }

  lemma PopKeepsIdsAfter(q: QueueState, last: nat)
    requires IdsAfter(q, last)
    ensures IdsAfter(Popped(q).1, last)
  {
  }

  lemma AcknowledgeKeepsIdsAfter(q: QueueState, id: nat, last: nat)
    requires id in q.claimed && IdsAfter(q, last)
    ensures IdsAfter(Acknowledged(q, id), last)
  {
  }

  /** A receipt handed out by a queue that was later removed names no file of
      a queue whose ids all come after the removed queue's last id. */
  lemma StaleReceiptNamesNoFile(removed: QueueState, receipt: nat, later: QueueState)
    requires WellFormed(removed) && receipt in removed.claimed
    requires IdsAfter(later, removed.nextId - 1)
    ensures receipt !in later.claimed && receipt !in later.pending
  {
  }

  /** The first push into a new queue gives one pending file, with id 1. */
  lemma FirstPushHasIdOne(payload: Bytes)
    ensures Pushed(EmptyQueue, payload).pending == map[1 := payload]
    ensures |Pushed(EmptyQueue, payload).pending| == 1
  {
  }

  /** A pushed message becomes the newest one: the next pop delivers it, and
      afterwards the drain order is what it was before the push. */
  lemma {:induction false} DrainAfterPush(q: QueueState, payload: Bytes)
    requires WellFormed(q)
    ensures DrainOrder(Pushed(q, payload).pending) == [payload] + DrainOrder(q.pending)
  {
    var p := Pushed(q, payload).pending;
    NewestIsUnique(p.Keys, q.nextId);
    assert p - {q.nextId} == q.pending;
  }

  /** Pushing a batch puts it in front of whatever was pending, newest first. */
  lemma {:induction false} DrainAfterPushes(q: QueueState, payloads: seq<Bytes>)
    requires WellFormed(q)
    ensures DrainOrder(PushedAll(q, payloads).pending) == Reversed(payloads) + DrainOrder(q.pending)
    decreases |payloads|
  {
    if payloads != [] {
      var p0, rest := payloads[0], payloads[1..];
      var q' := Pushed(q, p0);
      calc {
        DrainOrder(PushedAll(q, payloads).pending);
        DrainOrder(PushedAll(q', rest).pending);
        { DrainAfterPushes(q', rest); }
        Reversed(rest) + DrainOrder(q'.pending);
        { DrainAfterPush(q, p0); }
        Reversed(rest) + ([p0] + DrainOrder(q.pending));
        { ConcatAssociative(Reversed(rest), [p0], DrainOrder(q.pending)); }
        (Reversed(rest) + [p0]) + DrainOrder(q.pending);
        Reversed(payloads) + DrainOrder(q.pending);
      }
    }
  }

  /** A pop delivers the head of the drain order and leaves the rest of it. */
  lemma PopTakesDrainHead(q: QueueState)
    requires q.pending != map[]
    ensures Popped(q).0.Some? && Popped(q).0.value.message == DrainOrder(q.pending)[0]
    ensures DrainOrder(Popped(q).1.pending) == DrainOrder(q.pending)[1..]
  {
  }

  /** Pops, in order; stops at the first pop that finds nothing pending. */
  ghost function PoppedAll(q: QueueState, n: nat): (r: (seq<Bytes>, QueueState))
    ensures |r.0| == if n <= |q.pending| then n else |q.pending|
    decreases n
  {
    if n == 0 then ([], q)
    else
      match Popped(q).0
      case None => ([], q)
      case Some(m) =>
        var rest := PoppedAll(Popped(q).1, n - 1);
        ([m.message] + rest.0, rest.1)
  }

  /** One more pop puts the head of the drain order in front of what the
      remaining pops deliver from the state that pop leaves. */
  lemma PopThenPops(q: QueueState, n: nat)
    requires 0 < n && q.pending != map[]
    ensures PoppedAll(q, n).0 == [DrainOrder(q.pending)[0]] + PoppedAll(Popped(q).1, n - 1).0
    ensures DrainOrder(Popped(q).1.pending) == DrainOrder(q.pending)[1..]
  {
    PopTakesDrainHead(q);
  }

  /** Zero pops, or pops with nothing pending, deliver nothing. */
  lemma NothingPopped(q: QueueState, n: nat)
    requires n == 0 || q.pending == map[]
    ensures PoppedAll(q, n).0 == DrainOrder(q.pending)[..0]
  {
    EmptyPrefix(DrainOrder(q.pending));
  }

  /** n pops deliver the first n bodies of the drain order. */
  lemma {:induction false} PopsFollowDrainOrder(q: QueueState, n: nat)
    ensures PoppedAll(q, n).0 == DrainOrder(q.pending)[..if n <= |q.pending| then n else |q.pending|]
    decreases n
  {
    if n == 0 || q.pending == map[] {
      NothingPopped(q, n);
    } else {
      var next := Popped(q).1;
      PopThenPops(q, n);
      PopsFollowDrainOrder(next, n - 1);
      PrefixStep(DrainOrder(q.pending), DrainOrder(next.pending), PoppedAll(next, n - 1).0, n);
    }
  }

  /** Pushing messages into a queue with nothing pending and popping as many
      times delivers them newest first. */
  lemma PushesThenPopsReversed(q: QueueState, payloads: seq<Bytes>)
    requires WellFormed(q) && q.pending == map[]
    ensures PoppedAll(PushedAll(q, payloads), |payloads|).0 == Reversed(payloads)
  {
    DrainAfterPushes(q, payloads);
    PopsFollowDrainOrder(PushedAll(q, payloads), |payloads|);
  }

  /** Popping then acknowledging with the receipt removes the newest pending
      message for good and leaves the claimed files as they were. */
  lemma PopThenAcknowledge(q: QueueState)
    requires WellFormed(q) && q.pending != map[]
    ensures var (m, q') := Popped(q);
            m.Some? && m.value.receipt in q'.claimed &&
            Acknowledged(q', m.value.receipt).pending == q.pending - {m.value.receipt} &&
            Acknowledged(q', m.value.receipt).claimed == q.claimed &&
            |Acknowledged(q', m.value.receipt).pending| == |q.pending| - 1
  {
    var (m, q') := Popped(q);
    assert Acknowledged(q', m.value.receipt).claimed == q.claimed;
  }

  /** The newest pending id, found by one scan over the listing. */
  method FindNewest(pending: map<nat, Bytes>) returns (id: nat)
    requires pending != map[]
    ensures id in pending && forall j :: j in pending ==> j <= id
    ensures id == NewestId(pending.Keys)
  {
    var rest := pending.Keys;
    id :| id in rest;
    rest := rest - {id};
    while rest != {}
      invariant rest <= pending.Keys && id in pending
      invariant forall j :: j in pending && j !in rest ==> j <= id
      decreases rest
    {
      var j :| j in rest;
      if id < j {
        id := j;
      }
      rest := rest - {j};
    }
    NewestIsUnique(pending.Keys, id);
  }

  class Driver
  {
    /** The root directory: one entry per existing queue directory. */
    var queues: map<string, QueueState>
    /** For each removed queue, the last id it handed out. */
    var lastIds: map<string, nat>

    /** Every queue is well-formed, and a queue created again after a removal
        hands out only ids after the removed queue's last one. */
    ghost predicate Valid()
      reads this
    {
      forall n :: n in queues ==> WellFormed(queues[n]) && (n in lastIds ==> IdsAfter(queues[n], lastIds[n]))
    }

    constructor ()
      ensures Valid() && queues == map[] && lastIds == map[]
    {
      queues := map[];
      lastIds := map[];
    }

    /** `createQueue`: idempotent. */
    method CreateQueue(name: string)
      requires Valid()
      modifies this
      ensures Valid() && queues == Created(old(queues), old(lastIds), name) && lastIds == old(lastIds)
    {
      queues := Created(queues, lastIds, name);
    }

    /** `removeQueue`: drops the directory with every pending and claimed file,
        and remembers the last id the queue handed out. */
    method RemoveQueue(name: string)
      requires Valid()
      modifies this
      ensures Valid() && queues == old(queues) - {name}
      ensures name !in queues
      ensures name !in old(queues) ==> lastIds == old(lastIds)
      ensures name in old(queues) ==>
                old(queues)[name].nextId >= 1 && lastIds == old(lastIds)[name := old(queues)[name].nextId - 1]
    {
      if name in queues {
        lastIds := lastIds[name := queues[name].nextId - 1];
      }
      queues := queues - {name};
    }

    /** `listQueues`: one name per queue directory. */
    method ListQueues() returns (names: seq<string>)
      ensures |names| == |queues|
      ensures forall n :: n in names <==> n in queues
      ensures forall i, j :: 0 <= i < j < |names| ==> names[i] != names[j]
    {
      var rest := queues.Keys;
      names := [];
      while rest != {}
        invariant rest <= queues.Keys
        invariant forall n :: n in names <==> n in queues && n !in rest
        invariant forall i, j :: 0 <= i < j < |names| ==> names[i] != names[j]
        invariant |names| + |rest| == |queues.Keys|
        decreases rest
      {
        var n :| n in rest;
        names := names + [n];
        rest := rest - {n};
      }
    }

    /** `pushMessage`: fails when the queue does not exist. */
    method PushMessage(name: string, payload: Bytes) returns (r: Outcome<DriverError>)
      requires Valid()
      modifies this
      ensures Valid() && lastIds == old(lastIds)
      ensures name !in old(queues) ==> r == Fail(QueueNotFound(name)) && queues == old(queues)
      ensures name in old(queues) ==> r == Pass && queues == old(queues)[name := Pushed(old(queues)[name], payload)]
    {
      if name !in queues {
        return Fail(QueueNotFound(name));
      }
      if name in lastIds {
        PushKeepsIdsAfter(queues[name], payload, lastIds[name]);
      }
      queues := queues[name := Pushed(queues[name], payload)];
      r := Pass;
    }

    /** `popMessage` without waiting: claims the newest pending message and
        returns it with its receipt, or no message when nothing is pending. */
    method PopMessage(name: string) returns (r: Result<Option<DriverMessage>, DriverError>)
      requires Valid()
      modifies this
      ensures Valid() && lastIds == old(lastIds)
      ensures name !in old(queues) ==> r == Err(QueueNotFound(name)) && queues == old(queues)
      ensures name in old(queues) ==>
                r.Ok? && var (m, q') := Popped(old(queues)[name]);
                r.value == m && queues == old(queues)[name := q']
    {
      if name !in queues {
        return Err(QueueNotFound(name));
      }
      var q := queues[name];
      if q.pending == map[] {
        return Ok(None);
      }
      var id := FindNewest(q.pending);
      if name in lastIds {
        PopKeepsIdsAfter(q, lastIds[name]);
      }
      queues := queues[name := Claimed(q, id)];
      r := Ok(Some(DriverMessage(q.pending[id], id)));
    }

    /** `acknowledgeMessage`: deletes the claimed file the receipt names. A
        receipt that names no claimed file, including one whose queue is gone,
        is stale: it is refused and changes nothing. */
    method AcknowledgeMessage(name: string, receipt: nat) returns (r: Outcome<DriverError>)
      requires Valid()
      modifies this
      ensures Valid() && lastIds == old(lastIds)
      ensures name !in old(queues) ==> r == Fail(UnknownReceipt(receipt)) && queues == old(queues)
      ensures name in old(queues) && receipt !in old(queues)[name].claimed ==>
                r == Fail(UnknownReceipt(receipt)) && queues == old(queues)
      ensures name in old(queues) && receipt in old(queues)[name].claimed ==>
                r == Pass && queues == old(queues)[name := Acknowledged(old(queues)[name], receipt)]
    {
      if name !in queues || receipt !in queues[name].claimed {
        return Fail(UnknownReceipt(receipt));
      }
      if name in lastIds {
        AcknowledgeKeepsIdsAfter(queues[name], receipt, lastIds[name]);
      }
      queues := queues[name := Acknowledged(queues[name], receipt)];
      r := Pass;
    }

    /** `peekQueue`: up to `limit` pending bodies from position `index`, read
        without claiming anything. `ids` names the files read. */
    method PeekQueue(name: string, index: nat, limit: nat) returns (r: Result<seq<Bytes>, DriverError>, ghost ids: seq<nat>)
      ensures name !in queues ==> r == Err(QueueNotFound(name))
      ensures name in queues ==> r.Ok? && |r.value| == |ids| == Window(|queues[name].pending|, index, limit)
      ensures name in queues ==>
                forall i :: 0 <= i < |ids| ==> ids[i] in queues[name].pending && r.value[i] == queues[name].pending[ids[i]]
      ensures forall i, j :: 0 <= i < j < |ids| ==> ids[i] != ids[j]
    {
      ids := [];
      if name !in queues {
        return Err(QueueNotFound(name)), ids;
      }
      var pending := queues[name].pending;
      var rest := pending.Keys;
      var seen: nat := 0;
      var bodies := [];
      while rest != {} && |bodies| < limit
        invariant rest <= pending.Keys
        invariant seen + |rest| == |pending.Keys|
        invariant |bodies| == |ids| == if seen <= index then 0 else seen - index
        invariant |bodies| <= limit
        invariant forall i :: 0 <= i < |ids| ==> ids[i] in pending && ids[i] !in rest && bodies[i] == pending[ids[i]]
        invariant forall i, j :: 0 <= i < j < |ids| ==> ids[i] != ids[j]
        decreases rest
      {
        var id :| id in rest;
        rest := rest - {id};
        if seen >= index {
          bodies := bodies + [pending[id]];
          ids := ids + [id];
        }
        seen := seen + 1;
      }
      r := Ok(bodies);
    }
  }
}
