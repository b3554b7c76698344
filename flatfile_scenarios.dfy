/**
 * The flat-file driver's test cases, replayed against the `Driver` model.
 * Each method builds its own driver, runs the calls the test makes, and its
 * postcondition is what the test asserts.
 */
module FlatFileScenarios {
  import opened Wrappers
  import opened FlatFile

  const Newsletter: string := "send-newsletter"

  // StepForward and WholePrefix state sequence facts Dafny knows already. The
  // loops below call them by name so that the solver meets each fact once, on
  // generic sequences, instead of searching for it among sequences of byte
  // sequences, which is far slower.

  /** Moving one position along a sequence. */
  lemma StepForward<T>(s: seq<T>, i: nat)
    requires i < |s|
    ensures s[..i] + [s[i]] == s[..i + 1] && s[i..][0] == s[i] && s[i..][1..] == s[i + 1..]
  {
  }

  lemma WholePrefix<T>(s: seq<T>)
    ensures s[..|s|] == s
  {
  }

  /** A map whose keys are three distinct values has three entries. */
  lemma ThreeKeys<K, V>(m: map<K, V>, a: K, b: K, c: K)
    requires a != b && a != c && b != c
    requires m.Keys == {a, b, c}
    ensures |m| == 3
  {
    assert |m.Keys| == |m|;
    assert {a, b, c} == {a} + {b} + {c};
  }

  /** testCreate: creating the queue twice leaves one empty queue. */
  method CreateTwice() returns (d: Driver)
    ensures d.Valid() && d.queues == map[Newsletter := EmptyQueue]
  {
    d := new Driver();
    d.CreateQueue(Newsletter);
    d.CreateQueue(Newsletter);
  }

  /** testRemove: a queue holding a pending message is removed entirely. */
  method RemoveWithPendingMessage(payload: Bytes) returns (pendingBefore: nat, d: Driver)
    ensures pendingBefore == 1
    ensures d.Valid() && Newsletter !in d.queues && d.queues == map[]
  {
    d := new Driver();
    d.CreateQueue(Newsletter);
    var _ := d.PushMessage(Newsletter, payload);
    pendingBefore := |d.queues[Newsletter].pending|;
    d.RemoveQueue(Newsletter);
  }

  /** testRemoveQueueWithPoppedMessage: removal succeeds while a popped
      message is still unacknowledged. */
  method RemoveWithPoppedMessage(payload: Bytes) returns (popped: Result<Option<DriverMessage>, DriverError>, d: Driver)
    ensures popped == Ok(Some(DriverMessage(payload, 1)))
    ensures d.Valid() && Newsletter !in d.queues && d.queues == map[]
  {
    d := new Driver();
    d.CreateQueue(Newsletter);
    var _ := d.PushMessage(Newsletter, payload);
    popped := d.PopMessage(Newsletter);
    NewestIsUnique({1}, 1);
    d.RemoveQueue(Newsletter);
  }

  /** A receipt does not outlive its queue: after the queue is removed and
      created again, the new queue's first message gets id 2, and the old
      receipt 1 is refused instead of deleting that message. */
  method StaleReceiptRefused(first: Bytes, second: Bytes)
      returns (popped1: Result<Option<DriverMessage>, DriverError>, popped2: Result<Option<DriverMessage>, DriverError>,
               ack: Outcome<DriverError>, d: Driver)
    ensures popped1 == Ok(Some(DriverMessage(first, 1)))
    ensures popped2 == Ok(Some(DriverMessage(second, 2)))
    ensures ack == Fail(UnknownReceipt(1))
    ensures d.Valid() && Newsletter in d.queues && d.queues[Newsletter].claimed == map[2 := second]
  {
    d := new Driver();
    d.CreateQueue(Newsletter);
    var _ := d.PushMessage(Newsletter, first);
    NewestIsUnique({1}, 1);
    popped1 := d.PopMessage(Newsletter);
    d.RemoveQueue(Newsletter);
    d.CreateQueue(Newsletter);
    var _ := d.PushMessage(Newsletter, second);
    NewestIsUnique({2}, 2);
    popped2 := d.PopMessage(Newsletter);
    ack := d.AcknowledgeMessage(Newsletter, popped1.value.value.receipt);
  }

  /** testPushMessage (and the file name `1.job` in testPushMessagePermissions):
      one push gives exactly one pending message, with id 1. */
  method PushOne(payload: Bytes) returns (d: Driver)
    ensures d.Valid() && Newsletter in d.queues
    ensures d.queues[Newsletter].pending == map[1 := payload]
    ensures |d.queues[Newsletter].pending| == 1
  {
    d := new Driver();
    d.CreateQueue(Newsletter);
    var _ := d.PushMessage(Newsletter, payload);
  }

  /** testPopMessage: pushing `job #1`, `job #2`, `job #3` and popping three
      times delivers `job #3`, `job #2`, `job #1`; here for any list of jobs. */
  method PopNewestFirst(jobs: seq<Bytes>) returns (popped: seq<Bytes>)
    ensures popped == Reversed(jobs)
  {
    var d := new Driver();
    d.CreateQueue(Newsletter);
    for i := 0 to |jobs|
      invariant d.Valid() && Newsletter in d.queues
      invariant DrainOrder(d.queues[Newsletter].pending) == Reversed(jobs[..i])
    {
      ghost var q := d.queues[Newsletter];
      var _ := d.PushMessage(Newsletter, jobs[i]);
      DrainAfterPush(q, jobs[i]);
      ReversedSnoc(jobs[..i], jobs[i]);
      StepForward(jobs, i);
    }
    WholePrefix(jobs);
    var expected := Reversed(jobs);
    popped := [];
    for i := 0 to |jobs|
      invariant d.Valid() && Newsletter in d.queues
      invariant popped == expected[..i]
      invariant DrainOrder(d.queues[Newsletter].pending) == expected[i..]
    {
      ghost var q := d.queues[Newsletter];
      PopTakesDrainHead(q);
      var r := d.PopMessage(Newsletter);
      StepForward(expected, i);
      popped := popped + [r.value.value.message];
    }
  }

  /** testAcknowledgeMessage: pop, then acknowledge with the receipt, leaves
      nothing pending and nothing claimed. */
  method AcknowledgePopped(payload: Bytes) returns (ack: Outcome<DriverError>, d: Driver)
    ensures ack == Pass
    ensures d.Valid() && Newsletter in d.queues
    ensures d.queues[Newsletter].pending == map[] && d.queues[Newsletter].claimed == map[]
  {
    d := new Driver();
    d.CreateQueue(Newsletter);
    var _ := d.PushMessage(Newsletter, payload);
    NewestIsUnique({1}, 1);
    var popped := d.PopMessage(Newsletter);
    ack := d.AcknowledgeMessage(Newsletter, popped.value.value.receipt);
  }

  /** testPeekQueue: with the pushed messages pending, a peek of three from the
      start returns three bodies and every message is still pending. */
  method PeekLeavesPending(payloads: seq<Bytes>) returns (peeked: Result<seq<Bytes>, DriverError>, pendingAfter: nat)
    requires |payloads| >= 3
    ensures peeked.Ok? && |peeked.value| == 3
    ensures pendingAfter == |payloads|
  {
    var d := new Driver();
    d.CreateQueue(Newsletter);
    for i := 0 to |payloads|
      invariant d.Valid() && Newsletter in d.queues
      invariant |d.queues[Newsletter].pending| == i
    {
      var _ := d.PushMessage(Newsletter, payloads[i]);
    }
    ghost var ids;
    peeked, ids := d.PeekQueue(Newsletter, 0, 3);
    pendingAfter := |d.queues[Newsletter].pending|;
  }

  /** The first two of the queues the listing test sets up; the second holds one message. */
  method SetUpTwoQueues(name1: string, name2: string, job: Bytes) returns (d: Driver)
    requires name1 != name2
    ensures fresh(d) && d.Valid() && d.queues.Keys == {name1, name2}
  {
    d := new Driver();
    d.CreateQueue(name1);
    d.CreateQueue(name2);
    var _ := d.PushMessage(name2, job);
  }

  /** All three queues the listing test sets up; the third holds two messages. */
  method SetUpThreeQueues(name1: string, name2: string, name3: string, job1: Bytes, job2: Bytes) returns (d: Driver)
    requires name1 != name2 && name1 != name3 && name2 != name3
    ensures fresh(d) && d.Valid() && d.queues.Keys == {name1, name2, name3}
  {
    d := SetUpTwoQueues(name1, name2, job1);
    d.CreateQueue(name3);
    var _ := d.PushMessage(name3, job1);
    var _ := d.PushMessage(name3, job2);
  }

  /** testListQueues: three queues holding zero, one and two messages are all
      listed. The test's names are `send-newsletter-1` to `-3`; any three
      distinct names do. */
  method ListThreeQueues(name1: string, name2: string, name3: string, job1: Bytes, job2: Bytes) returns (names: seq<string>)
    requires name1 != name2 && name1 != name3 && name2 != name3
    ensures |names| == 3
    ensures name1 in names && name2 in names && name3 in names
  {
    var d := SetUpThreeQueues(name1, name2, name3, job1, job2);
    ThreeKeys(d.queues, name1, name2, name3);
    names := d.ListQueues();
  }
}
