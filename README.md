# Bernard message envelope, flat-file driver and in-memory queue factory

This project is a Dafny model of three parts of Bernard, a PHP message-queue
library:

- **`PlainMessage`** (`Message`) is the immutable message envelope: a name and an
  argument array.
  - Its readers (`getName`, `all`, `has`, `get`, and the `ArrayAccess` and
    magic-property aliases) are functions on a datatype.
  - Its four writers are methods. Each always reports the `LogicException`
    "Message is immutable".
  - `get` returns the argument when `has` holds, and `Null` otherwise, exactly
    as the PHP code does. A missing key and a key bound to null therefore read
    the same through `get`. Only `has` tells them apart, and a lemma shows this.
- **The flat-file driver** (`FlatFile`, `FlatFileScenarios`) is modelled as the
  state machine its test suite describes.
  - The root directory is the map `Driver.queues` from queue names to
    `QueueState`. A `QueueState` holds the id counter, the pending `<id>.job`
    files and the claimed files.
  - `Driver.lastIds` remembers, for each removed queue, the last id it handed
    out. A queue created again under that name continues after that id. Every
    test starts from a fresh root directory, so its first push still gets
    id 1. A receipt from before the removal can then never name a file of the
    new queue, and acknowledging it is refused.
  - Each driver operation is a method on `Driver`. Its postcondition ties the
    new state to a specification function (`Created`, `Pushed`, `Popped`,
    `Acknowledged`).
  - Lemmas about those functions give the promised behaviour:
    - a pop claims the newest pending message;
    - n pushes followed by n pops deliver the bodies in reverse order;
    - pop then acknowledge removes the message for good.
  - `FlatFileScenarios` replays each test as a method. Its postcondition is
    what the test asserts.
- **The in-memory queue factory** (`QueueFactory`) is a class with a mutable
  name-to-queue cache. Queue handles are objects that carry a `closed` flag.
  - `create` returns the cached object for a known name.
  - `remove` evicts the entry and closes that object.
  - After `remove`, a `peek` through a handle obtained earlier is refused with
    an invalid-operation error.

The sources of the flat-file driver and of the in-memory factory are not part
of this model. Their behaviour is taken from
`tests/Driver/FlatFile/DriverTest.php` and
`tests/QueueFactory/InMemoryFactoryTest.php`. The cited lines are the test
assertions each member captures.

Pop order is the one `testPopMessage` asserts
(`tests/Driver/FlatFile/DriverTest.php:88-95`): after pushing `job #1`,
`job #2` and `job #3`, the pops return `job #3`, `job #2`, `job #1`. A pop
therefore takes the **highest** pending id, the newest message.

The tests pin no result for the following paths, and the driver source is not
part of this model, so the model chooses these results:

- push, pop and peek on a missing queue fail with `QueueNotFound`;
- acknowledging a receipt that names no claimed file fails with
  `UnknownReceipt` and changes nothing, including when the receipt's queue
  has been removed;
- a pop with nothing pending gives "no message" (`Ok(None)`).

## Model

| member | source | states |
|---|---|---|
| Message.Construct | src/Message/PlainMessage.php:23-27 | `new PlainMessage($name, $arguments)`; its properties are stated by `ConstructorStores` |
| Message.ConstructNamed | src/Message/PlainMessage.php:23-27 | `new PlainMessage($name)` with the default empty argument array; its properties are stated by `DefaultArgumentsEmpty` |
| Message.PlainMessage.GetName | src/Message/PlainMessage.php:32-35 | `getName()`; stated by `ConstructorStores` and `AttemptWrites` |
| Message.PlainMessage.All | src/Message/PlainMessage.php:40-43 | `all()`; stated by `ConstructorStores` and `AttemptWrites` |
| Message.PlainMessage.Get | src/Message/PlainMessage.php:52-55 | `get($name)`; stated by `GetTotal` and `GetConflatesAbsentAndNull` |
| Message.PlainMessage.Has | src/Message/PlainMessage.php:64-67 | `has($name)`; stated by `HasIffKey` |
| Message.PlainMessage.OffsetGet | src/Message/PlainMessage.php:69-72 | `offsetGet`; stated by `AliasesAgree` |
| Message.PlainMessage.OffsetExists | src/Message/PlainMessage.php:74-77 | `offsetExists`; stated by `AliasesAgree` |
| Message.PlainMessage.MagicGet | src/Message/PlainMessage.php:89-92 | `__get`; stated by `AliasesAgree` |
| Message.PlainMessage.MagicIsset | src/Message/PlainMessage.php:94-97 | `__isset`; stated by `AliasesAgree` |
| Message.ConstructorStores | src/Message/PlainMessage.php:23-43 | `getName()` and `all()` return exactly the name and the argument array given to the constructor |
| Message.DefaultArgumentsEmpty | src/Message/PlainMessage.php:23-27 | without an argument array, `all()` is empty, `has` is false for every key and `get` returns null |
| Message.HasIffKey | src/Message/PlainMessage.php:64-67 | `has(k)` holds exactly when `k` is a key of `all()`, including a key bound to null |
| Message.GetTotal | src/Message/PlainMessage.php:52-55 | `get(k)` is the stored value when `has(k)` and null otherwise; it is null exactly when the key is absent or bound to null |
| Message.AliasesAgree | src/Message/PlainMessage.php:69-97 | `offsetGet` and `__get` agree with `get`; `offsetExists` and `__isset` agree with `has` |
| Message.GetConflatesAbsentAndNull | src/Message/PlainMessage.php:52-67 | a key bound to null and a missing key both read as null through `get`; only `has` separates them |
| Message.PlainMessage.OffsetSet | src/Message/PlainMessage.php:79-82 | always fails with `LogicException("Message is immutable")`, whatever the offset and value |
| Message.PlainMessage.OffsetUnset | src/Message/PlainMessage.php:84-87 | always fails with `LogicException("Message is immutable")`, whatever the offset |
| Message.PlainMessage.MagicSet | src/Message/PlainMessage.php:99-102 | always fails with `LogicException("Message is immutable")`, whatever the property and value |
| Message.PlainMessage.MagicUnset | src/Message/PlainMessage.php:104-107 | always fails with `LogicException("Message is immutable")`, whatever the property |
| Message.AttemptWrites | src/Message/PlainMessage.php:79-107 | after any sequence of attempted writes, each write reported the immutable error, and `getName`, `all`, `has` and `get` answer as before |
| FlatFile.NewQueue | tests/Driver/FlatFile/DriverTest.php:40-46 | a new queue is empty and well-formed; under a name never used before its first id is 1; under the name of a removed queue all its ids come after that queue's last id |
| FlatFile.Created | tests/Driver/FlatFile/DriverTest.php:40-46 | after `createQueue` the queue exists; other queues are untouched; a missing queue becomes `NewQueue`; an existing one is left as it was |
| FlatFile.Pushed | tests/Driver/FlatFile/DriverTest.php:69-75 | a push adds exactly one pending file, under the next id, holding the body; that id was unused; every other pending file keeps its body, claimed files are unchanged and the counter advances by one; well-formedness is kept |
| FlatFile.Claimed | tests/Driver/FlatFile/DriverTest.php:125-129 | claiming moves the file from pending to claimed with its body and leaves one fewer pending `*.job` |
| FlatFile.ClaimKeepsOthers | tests/Driver/FlatFile/DriverTest.php:125-129 | claiming one file keeps every other pending and claimed file with its body, and the id counter |
| FlatFile.Acknowledged | tests/Driver/FlatFile/DriverTest.php:127 | acknowledging deletes the claimed file and leaves the pending files as they were |
| FlatFile.NewestId | tests/Driver/FlatFile/DriverTest.php:92-95 | the result is a member of the id set and no id in it is larger |
| FlatFile.Popped | tests/Driver/FlatFile/DriverTest.php:84-96 | with nothing pending, no message and no change; otherwise the message with the largest pending id, with its body and its id as receipt, is claimed; well-formedness is kept |
| FlatFile.DrainOrder | tests/Driver/FlatFile/DriverTest.php:92-95 | the successive pops' bodies, one per pending file |
| FlatFile.PushedAll | tests/Driver/FlatFile/DriverTest.php:88-90 | pushes in order advance the id counter by their number, keep claimed files and keep well-formedness |
| FlatFile.NewestIsUnique | tests/Driver/FlatFile/DriverTest.php:92-95 | an id that is in the set and no smaller than any of its members is the newest id |
| FlatFile.CreateIdempotent | tests/Driver/FlatFile/DriverTest.php:40-46 | creating a queue twice gives the same state as creating it once, and the queue exists |
| FlatFile.PushKeepsIdsAfter | tests/Driver/FlatFile/DriverTest.php:58-67 | a push never brings an id at or below a removed queue's last id into the re-created queue |
| FlatFile.PopKeepsIdsAfter | tests/Driver/FlatFile/DriverTest.php:58-67 | neither does a pop |
| FlatFile.AcknowledgeKeepsIdsAfter | tests/Driver/FlatFile/DriverTest.php:58-67 | neither does an acknowledge |
| FlatFile.StaleReceiptNamesNoFile | tests/Driver/FlatFile/DriverTest.php:58-67 | a receipt of a removed queue names neither a pending nor a claimed file of a queue whose ids all come after the removed queue's last id |
| FlatFile.FirstPushHasIdOne | tests/Driver/FlatFile/DriverTest.php:74-81 | the first push into a new queue leaves exactly one pending file, with id 1 (the `1.job` file) |
| FlatFile.DrainAfterPush | tests/Driver/FlatFile/DriverTest.php:88-94 | after a push, the next pop delivers that body and the rest of the drain order is unchanged |
| FlatFile.DrainAfterPushes | tests/Driver/FlatFile/DriverTest.php:88-94 | pushing a batch puts it, reversed, in front of what was pending |
| FlatFile.PopTakesDrainHead | tests/Driver/FlatFile/DriverTest.php:92-94 | a pop delivers the head of the drain order and leaves its tail |
| FlatFile.PopThenPops | tests/Driver/FlatFile/DriverTest.php:92-94 | n pops deliver the head of the drain order followed by what n - 1 pops deliver from the state after it, whose drain order is the rest of the original one |
| FlatFile.PoppedAll | tests/Driver/FlatFile/DriverTest.php:92-95 | n pops in a row deliver n bodies, or as many as are pending when fewer are; `PopsFollowDrainOrder` says which |
| FlatFile.NothingPopped | tests/Driver/FlatFile/DriverTest.php:92-95 | zero pops, or pops with nothing pending, deliver nothing |
| FlatFile.PopsFollowDrainOrder | tests/Driver/FlatFile/DriverTest.php:92-95 | n pops deliver the first n bodies of the drain order, or all of it when fewer are pending |
| FlatFile.PushesThenPopsReversed | tests/Driver/FlatFile/DriverTest.php:84-96 | pushing bodies into a queue with nothing pending, then popping as many times, delivers them in reverse order |
| FlatFile.PopThenAcknowledge | tests/Driver/FlatFile/DriverTest.php:119-130 | popping and acknowledging with the receipt removes that message from pending for good, one fewer pending, claimed files as before |
| Slices.Window | tests/Driver/FlatFile/DriverTest.php:140 | the size of a slice of `limit` from position `index` over `n` items, as both peeks return it: never above either bound, `min(limit, n - index)` inside, 0 past the end |
| FlatFile.FindNewest | tests/Driver/FlatFile/DriverTest.php:92-95 | the scan returns a pending id no smaller than any other, which is `NewestId` of the listing |
| FlatFile.Driver.constructor | tests/Driver/FlatFile/DriverTest.php:28 | a new driver has no queues and remembers no removed queue |
| FlatFile.Driver.CreateQueue | tests/Driver/FlatFile/DriverTest.php:40-46 | the new state is `Created` of the old one; the remembered last ids are unchanged; the invariant is kept |
| FlatFile.Driver.RemoveQueue | tests/Driver/FlatFile/DriverTest.php:48-67 | the queue is gone with all its pending and claimed files; other queues are unchanged; the last id it handed out is remembered under its name |
| FlatFile.Driver.ListQueues | tests/Driver/FlatFile/DriverTest.php:145-157 | one distinct name per existing queue: exactly the queue names, as many as there are queues |
| FlatFile.Driver.PushMessage | tests/Driver/FlatFile/DriverTest.php:69-75 | a missing queue is refused with no change; otherwise the queue becomes `Pushed` of itself |
| FlatFile.Driver.PopMessage | tests/Driver/FlatFile/DriverTest.php:84-96 | a missing queue is refused with no change; otherwise the result and the new queue are `Popped` of the old queue |
| FlatFile.Driver.AcknowledgeMessage | tests/Driver/FlatFile/DriverTest.php:119-130 | a receipt naming no claimed file, also one whose queue is gone, is refused as unknown with no change; otherwise the queue becomes `Acknowledged` |
| FlatFile.Driver.PeekQueue | tests/Driver/FlatFile/DriverTest.php:132-143 | a missing queue is refused; otherwise the window's number of distinct pending bodies, each equal to its file's body, and nothing changes |
| FlatFileScenarios.CreateTwice | tests/Driver/FlatFile/DriverTest.php:40-46 | two creates leave exactly one queue, and it is empty |
| FlatFileScenarios.RemoveWithPendingMessage | tests/Driver/FlatFile/DriverTest.php:48-56 | the queue held one pending message and is gone after the removal |
| FlatFileScenarios.RemoveWithPoppedMessage | tests/Driver/FlatFile/DriverTest.php:58-67 | the pop returns the pushed body with receipt 1, and the queue is gone after the removal despite the claimed file |
| FlatFileScenarios.StaleReceiptRefused | tests/Driver/FlatFile/DriverTest.php:58-67 | extends the test's removal with a popped message outstanding: after the queue is created again, the new message gets id 2, acknowledging the old receipt 1 is refused, and the new message stays claimed |
| FlatFileScenarios.PushOne | tests/Driver/FlatFile/DriverTest.php:69-81 | one push leaves exactly one pending file, with id 1 and the pushed body |
| FlatFileScenarios.PopNewestFirst | tests/Driver/FlatFile/DriverTest.php:84-96 | pushing any list of jobs and popping as many times returns them newest first, i.e. reversed |
| FlatFileScenarios.AcknowledgePopped | tests/Driver/FlatFile/DriverTest.php:119-130 | the acknowledge succeeds and leaves no pending and no claimed files |
| FlatFileScenarios.PeekLeavesPending | tests/Driver/FlatFile/DriverTest.php:132-143 | with at least three pushed messages, a peek of 3 from 0 returns 3 bodies and all pushed messages are still pending |
| FlatFileScenarios.SetUpTwoQueues | tests/Driver/FlatFile/DriverTest.php:147-150 | the first two queues exist after the creates and the push, and no other |
| FlatFileScenarios.SetUpThreeQueues | tests/Driver/FlatFile/DriverTest.php:147-154 | all three queues exist after the creates and pushes, and no other |
| FlatFileScenarios.ListThreeQueues | tests/Driver/FlatFile/DriverTest.php:145-157 | the listing has 3 entries, one per created queue |
| QueueFactory.InMemoryQueue.constructor | tests/QueueFactory/InMemoryFactoryTest.php:44-49 | a new queue carries its name, is open and holds no messages |
| QueueFactory.InMemoryQueue.Close | tests/QueueFactory/InMemoryFactoryTest.php:33-37 | the queue is closed and its messages are kept |
| QueueFactory.InMemoryQueue.Enqueue | tests/QueueFactory/InMemoryFactoryTest.php:26-37 | refused with an invalid-operation error and no change once closed; otherwise appends the message |
| QueueFactory.InMemoryQueue.Peek | tests/QueueFactory/InMemoryFactoryTest.php:26-37 | refused with an invalid-operation error once closed; otherwise `Window` many messages from `index`, in queue order, nothing removed |
| QueueFactory.InMemoryFactory.constructor | tests/QueueFactory/InMemoryFactoryTest.php:16-17 | a new factory holds no queues |
| QueueFactory.InMemoryFactory.Create | tests/QueueFactory/InMemoryFactoryTest.php:44-53 | a known name returns the identical cached object with no change, whatever its closed flag; a new name gets a fresh, open, empty queue that is cached |
| QueueFactory.InMemoryFactory.Exists | tests/QueueFactory/InMemoryFactoryTest.php:30 | true exactly when the name is cached |
| QueueFactory.InMemoryFactory.Count | tests/QueueFactory/InMemoryFactoryTest.php:31-34 | the number of cached queues |
| QueueFactory.InMemoryFactory.All | tests/QueueFactory/InMemoryFactoryTest.php:47-53 | the whole cache, name to queue object |
| QueueFactory.InMemoryFactory.Remove | tests/QueueFactory/InMemoryFactoryTest.php:33-37 | the entry is evicted, the evicted queue object is closed, every other cached queue keeps its closed flag, and no queue loses messages |
| QueueFactory.RemoveClosesQueue | tests/QueueFactory/InMemoryFactoryTest.php:24-38 | after `create`, `exists` is true and the count is 1; after `remove`, the count is 0 and a peek through the earlier handle fails with an invalid-operation error |
| QueueFactory.CreateAfterClose | tests/QueueFactory/InMemoryFactoryTest.php:44-50 | extends the identity assertion of line 50 to a closed queue, which no test closes through its handle: after a caller closes the cached queue through its handle, `create` of the same name returns that same object, still closed, and the count stays 1 |
| QueueFactory.CreateQueues | tests/QueueFactory/InMemoryFactoryTest.php:40-54 | a new factory counts 0; two names give two distinct queues; `all()` is exactly those two entries; a second `create` returns the identical object |

## Left out

- Filesystem effects are abstracted into the `queues` map. These include directory creation and deletion, `glob`, the counter file, file permissions (the `0770` mode check) and the tear-down's `rm -R`/`rd`.
- The blocking pop with a timeout and the forked producer process are left out. They are about cross-process concurrency and wall-clock time, and a pop with nothing pending returns "no message" at once.
- Advisory locks and the atomic rename that makes a claim race-free are left out, because the model is sequential.
- Serialization of envelopes to bytes is left out; payloads are opaque byte sequences.
- PHP runtime mechanics are not modelled: magic-method dispatch, `ArrayAccess` plumbing, the exception class hierarchy, and the coercion of numeric-string array keys to integers. Argument keys are strings, and argument values are null, booleans, integers and strings only.
- The source of `Bernard\Driver\FlatFile\Driver` is not part of this model, and neither are `Bernard\QueueFactory\InMemoryFactory` and `Bernard\Queue\InMemoryQueue`. The driver's receipt is modelled as the message id, and the receipt's file-name form is not modelled.
- `InMemoryQueue` dequeue, acknowledge and count are left out, because the factory tests never call them. `Enqueue` and `Peek` stand for "any operation" on a closed queue.
- QueueFactory.InMemoryQueue.Enqueue, QueueFactory.InMemoryQueue.Peek: no test pins their results on an open queue. Appending, and returning the in-order slice, are the model's choice.
- FlatFile.Driver.PeekQueue: does not promise an order for the bodies it returns (the tests pin only the count and that nothing is consumed).
- FlatFile.Driver.PopMessage: does not model the `timeout` argument, for the reason given above.
- `Driver.lastIds` grows with every queue name ever removed; where the driver keeps that counter on disk is not modelled.
- `getName()` is declared to return a string under `strict_types=1`, so PHP raises a `TypeError` when the constructor was given a non-string name. The model types the name as a string, so that error path is not represented.
- QueueFactory.InMemoryFactory.All, QueueFactory.CreateQueues: `all()` of the factory (`tests/QueueFactory/InMemoryFactoryTest.php:53`) is compared with `assertSame`, which also pins the insertion order of the PHP array. The model returns a `map`, which has no order.
- The default `index` and `limit` arguments of `peekQueue` and `peek` are not modelled; both are always passed explicitly.
