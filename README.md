# poll-channel in Dafny

A model of the Rust crate `poll-channel`, and proofs about it. The crate lets
one thread wait on several channels at once. Its parts:

- `channel()` creates a **channel pair**: a Sender and a Receiver that share
  an unbounded FIFO queue and a **link** cell.
- Every pair gets a **tag** from a process-wide counter (`TAG`), starting at 0.
- A **Poll** owns a readiness queue of tags (its `Signal`).
- `Poll::add` and `Poll::append` bind a Receiver to a Poll by writing the Poll
  into the pair's link.
- On its first `send`, each Sender instance resolves the link once and caches
  what it found (`init` / `producer`).
- Every `send` enqueues the payload, then pushes the pair's tag to the cached
  Poll, if there is one. Notification is best effort and never changes the
  send's result.
- `Poll::poll` pops the oldest tag, or returns `-1` when nothing is ready.

The model has five modules:

- `Model` (model.dfy) is the specification. It holds the whole process state
  as one value `World`:
  - `counter`: the `TAG` counter;
  - `pairs`: per pair, its tag, queue, link and whether its Receiver is alive;
  - `senders`: per Sender instance, its pair, tag and cache;
  - `signals`: per Poll, its readiness queue.

  Each crate operation is a function on `World`. Shared `Arc<Mutex<..>>` cells
  are modelled as two handles holding the same index. The invariant `Valid`
  says that pair `i` has tag `i`, that `counter` equals the number of pairs,
  and that every link, cache and readiness entry refers to something that
  exists.
- `Properties` (properties.dfy) proves what the crate promises about these
  operations.
- `Traces` (traces.dfy) proves the tag guarantees over any run of operations.
- `Runtime` (runtime.dfy) is the imperative form. The class `Process` has the
  same four fields, updated in place the way src/lib.rs updates its state.
  Each method is proved to have exactly the effect of its `Model` function, so
  every lemma about `Model` applies to it.
- `Scenarios` (scenarios.dfy) restates the two tests of tests/poll.rs as
  methods on `Process`. What those tests assert becomes the methods'
  postconditions.

Rebinding a Receiver to a second Poll does not redirect every Sender. One
might expect that after rebinding, the next send on the same Sender notifies
the new Poll. In src/lib.rs (lines 122-130, 132-134) a Sender
instance that has already sent keeps notifying the Poll it cached on its first
send. Only instances that have not sent yet follow the new link. The model
follows the code, and `Properties.FirstSendFreezesBinding` proves this
behaviour.

tests/poll.rs calls `rx.id()`, but src/lib.rs defines only `Receiver::tag`.
The model reads `id` as `tag`.

A send pushes its tag to the cached Poll even when delivery fails because the
Receiver is gone (src/lib.rs:131-134 never looks at the result). So `poll` can
report the tag of a channel whose Receiver no longer exists. This is
deliberate: the model follows the code, and `Properties.SendNotifiesTarget`
states the push without any condition on the result. It does not describe
notification as happening only after a successful send.

`test_fixed_id` expects tags 0, 1 and 2 (tests/poll.rs:47-53). Those values
hold only when its channels are the first the process creates. Both tests are
in one test binary and can run on parallel threads sharing the one `TAG`
counter (src/lib.rs:75). If `poll_test` creates its channels first, the tags
are shifted. `Scenarios.FixedId` starts from a fresh process.
`Traces.EarlierChannelsShiftTags` states the general case: channels created
earlier shift the tags by their number.

## Model

| member | source | states |
|---|---|---|
| Model.Init | src/lib.rs:75 | The process starts with the tag counter at 0, no pairs and no polls, and the state invariant holds. |
| Model.NewChannel | src/lib.rs:83-103 | `channel()` adds one pair whose Receiver is alive, and one Sender fed by that pair. Nothing that existed before is lost, and the invariant is kept. |
| Model.CloneSender | src/lib.rs:105-115 | A clone is a new Sender instance on the same pair, and the invariant is kept. |
| Model.Target | src/lib.rs:120-130 | The Poll the next send notifies is the cached producer once the instance has sent, and the current link before that. It always names an existing Poll or none. |
| Model.Send | src/lib.rs:117-136 | A send keeps the invariant and loses no handle. |
| Model.TryRecv | src/lib.rs:156-158 | `try_recv` yields a payload exactly when the pair's queue is non-empty. |
| Model.TagOf | src/lib.rs:141-143 | A Receiver's tag was issued by the counter (0 <= tag < counter) and is never the `-1` sentinel. |
| Model.DropReceiver | src/lib.rs:77-81 | After a Receiver is dropped, its pair no longer has a live Receiver, and that is the only change. The pair keeps its queue, link and tag. Every other pair, every Sender, every Poll and the counter are unchanged. |
| Model.NewPoll | src/lib.rs:187-191 | `Poll::new` appends one Poll with an empty readiness queue. Earlier readiness queues, every pair, every Sender and the counter are unchanged. |
| Model.Len | src/lib.rs:160-162 | `len` is 0 exactly when no payload is waiting. How it moves with sends and receives is stated by `Properties.LenCountsPending`. |
| Model.Add | src/lib.rs:201-205 | After `add`, the Receiver's link names this Poll, and the invariant is kept. |
| Model.AddAll | src/lib.rs:194-198 | `append` keeps the invariant and creates or removes no pair or Poll. |
| Model.Poll | src/lib.rs:208-218 | `poll` keeps the invariant and loses no handle. |
| Properties.ChannelTakesCounter | src/lib.rs:87-99 | The new pair's tag, and its Sender's copy of it, equal the counter's old value, and the counter goes up by exactly one. |
| Properties.NewPairIsUnbound | src/lib.rs:83-103 | A new pair has an empty queue, an unbound link and a live Receiver. Its Sender shares its tag and link cell and has an unresolved cache. Every earlier pair, Sender and Poll is unchanged. |
| Properties.CloneHasFreshCache | src/lib.rs:105-115 | A clone has the same pair and tag as the original but an unresolved cache, so its target is the current link. The original, the pairs and the Polls are unchanged. |
| Properties.AddRebinds | src/lib.rs:201-205 | `add` overwrites only the link of that one pair. Queues, tags, Senders, Polls and the counter are unchanged. |
| Properties.RebindSupersedes | src/lib.rs:201-205 | Binding to p1 and then to p2 gives the same state as binding to p2 alone. |
| Properties.AddAllBindsEach | src/lib.rs:194-198 | After `append`, every listed Receiver is bound to the Poll. Unlisted pairs keep their links, and only links change. |
| Properties.AddAllTwo | src/lib.rs:194-198 | `append` of `[a, b]` is `add(a)` followed by `add(b)`. |
| Properties.SendDelivers | src/lib.rs:131-135 | The payload goes to the Sender's own pair and to no other pair. The send succeeds exactly when the Receiver is alive, and a failure returns the payload. |
| Properties.SendNotifiesTarget | src/lib.rs:132-134 | The pair's tag is pushed onto the target Poll's readiness queue and onto no other. When there is no target, no readiness queue changes. Delivery success plays no part. |
| Properties.SendFreezesTarget | src/lib.rs:120-130 | After a send the instance is initialised and its target is what it was just before the send. Other instances keep their caches. |
| Properties.TargetAfterRebind | src/lib.rs:120-130 | Rebinding a pair redirects exactly those of its Senders that have not sent yet. |
| Properties.NotificationNeverAffectsPayload | src/lib.rs:131-135 | Two states with the same queues and Receivers give the same send result and the same queues, whatever their links, caches and Polls. |
| Properties.FirstSendFreezesBinding | src/lib.rs:120-134 | Scenario: bind to p1, send, rebind to p2, send again on the same Sender. Both tags land on p1 and none on p2. A clone made after the rebind targets p2. |
| Properties.PollPopsOldest | src/lib.rs:208-218 | `poll` returns and removes the oldest ready tag and changes nothing else. When nothing is ready it returns `-1` and changes nothing. |
| Properties.TimeoutOnlyWhenIdle | src/lib.rs:208-218 | `poll` returns `-1` exactly when the readiness queue is empty. Otherwise it returns the tag of an existing pair. |
| Properties.NotifiedSend | src/lib.rs:117-136 | A send whose target is Poll p, on a live pair, appends the payload to that pair's queue and the tag to p's queue. Every other pair and every other Sender instance is unchanged. |
| Properties.ReadinessInSendOrder | src/lib.rs:117-136 | Scenario: two new channels bound to one new Poll, one send on each. `poll` returns the first tag, then the second, then `-1`, and both sends succeed. |
| Properties.TryRecvPopsOldest | src/lib.rs:156-158 | `try_recv` returns the oldest payload and removes only that one. On an empty queue it returns nothing and changes nothing. |
| Properties.LenCountsPending | src/lib.rs:160-162 | `len` goes up by one after a delivered send and is unchanged after a failed one. `try_recv` yields a payload exactly when `len` is positive, and then lowers `len` by one. |
| Properties.SendAll | src/lib.rs:117-136 | Any number of sends in a row keeps the invariant and loses no handle. |
| Properties.RecvN | src/lib.rs:156-158 | Any number of `try_recv` calls in a row keeps the invariant and loses no handle. |
| Properties.SendAppends | src/lib.rs:131 | One send to a live Receiver appends the payload to its queue, and the Sender keeps its pair. |
| Properties.SendAllEnqueues | src/lib.rs:131 | Sends to a live Receiver append their payloads to its queue in send order. |
| Properties.RecvNTakesPrefix | src/lib.rs:156-158 | n receives return the first n queued payloads, oldest first, and leave the rest queued. |
| Properties.PayloadFifo | src/lib.rs:117-158 | Per-channel FIFO: the payloads sent on an empty channel are received back in the order they were sent. |
| Traces.Step | src/lib.rs:75-89 | Every operation keeps the invariant. Only `channel()` moves the counter, by exactly one. |
| Traces.Final | src/lib.rs:75-89 | A run ends in a valid state, and the counter never goes back. |
| Traces.IssuedTagsConsecutive | src/lib.rs:87-89 | Over any run, the new channels get consecutive tags starting at the counter's initial value, and the counter ends just past the last one. |
| Traces.TagsUniqueAndNeverTimeout | src/lib.rs:75-89 | From process start, the i-th channel created has tag i. So tags strictly increase, never repeat and never equal `-1`. |
| Traces.EarlierChannelsShiftTags | src/lib.rs:75-89 | Channels created earlier in the same process shift the tags: after k channels, the next run's channels get k, k + 1, and so on. |
| Traces.PolledTagsBelowCounter | src/lib.rs:208-218 | Each value `poll` returns during a run is `-1` or below the final counter. |
| Traces.PolledTagsWereIssued | src/lib.rs:208-218 | From process start, each value `poll` returns is either `-1`, which no channel has, or the tag of a channel the run created. |
| Runtime.Process.constructor | src/lib.rs:75 | A new process is the initial state. |
| Runtime.Process.Channel | src/lib.rs:83-103 | The in-place update is exactly `Model.NewChannel`. |
| Runtime.Process.Clone | src/lib.rs:105-115 | The in-place update is exactly `Model.CloneSender`. |
| Runtime.Process.Send | src/lib.rs:117-136 | The in-place update and the result are exactly `Model.Send`. |
| Runtime.Process.TryRecv | src/lib.rs:156-158 | The in-place update and the result are exactly `Model.TryRecv`. |
| Runtime.Process.Tag | src/lib.rs:141-143 | Returns the pair's tag, which is never `-1`. Nothing changes. |
| Runtime.Process.Len | src/lib.rs:160-162 | Returns the number of queued payloads. Nothing changes. |
| Runtime.Process.DropReceiver | src/lib.rs:77-81 | The in-place update is exactly `Model.DropReceiver`. |
| Runtime.Process.NewPoll | src/lib.rs:187-191 | The in-place update is exactly `Model.NewPoll`. |
| Runtime.Process.Add | src/lib.rs:201-205 | The in-place update is exactly `Model.Add`. |
| Runtime.Process.Append | src/lib.rs:194-198 | The loop of `add` calls, in list order, has exactly the effect of `Model.AddAll`. |
| Runtime.Process.Poll | src/lib.rs:208-218 | The in-place update and the result are exactly `Model.Poll`. |
| Scenarios.PollTestBinds | tests/poll.rs:5-9 | Two new channels bound to one new Poll have distinct pairs, unsent Senders with consecutive tags, empty queues, links to the Poll and an empty readiness queue. |
| Scenarios.PollTestSends | tests/poll.rs:12-19 | A clone's send of 1000, then the original's 100 and the second Sender's 200, leave [1000, 100] and [200] queued. Readiness is [k, k, k + 1]: one entry per Sender instance. |
| Scenarios.PollThenReceive | tests/poll.rs:22-31 | One round of the waiting loop pops the oldest tag and the reported channel's oldest payload. Nothing else changes: the resulting state is the old one with only those two queue heads removed. |
| Scenarios.PollTestDrains | tests/poll.rs:20-39 | The waiting loop sees tags k, k, k + 1 and then `-1`, and receives 1000, 100, 200. This is the four iterations the test counts. |
| Scenarios.PollTestSetUp | tests/poll.rs:5-19 | The set-up on a running `Process` leaves the queues and readiness described above. The two Receivers get the counter's old value and the next one as tags. |
| Scenarios.PollTest | tests/poll.rs:4-42 | From a fresh process the two Receivers report tags 0 and 1. The polls return the first Receiver's tag twice, then the second's, then -1, so each poll names the Receiver read next. Those reads give 1000, 100, 200, which satisfies the test's per-channel payload checks and its `i == 4`. |
| Scenarios.FixedId | tests/poll.rs:45-54 | The first three channels of a process get tags 0, 1 and 2. |

## Left out

- Concurrency: every `Mutex` acquisition is an atomic step of one sequential state, and interleavings between threads are not modelled. One consequence is not captured. `Poll::poll` holds the Poll's mutex for its whole wait (src/lib.rs:211-217). A Sender's first send locks that same mutex to resolve the link (src/lib.rs:124-125), before it enqueues the payload (src/lib.rs:131). So a first send on a channel bound to a Poll that another thread is waiting on blocks until that wait returns, either with a tag pushed by another Sender whose cache already names that Poll (src/lib.rs:132-133) or with `-1` at the timeout. The model's sends never block. The background-thread send in tests/poll.rs runs to completion (it is joined) before the main thread goes on, so it is modelled as an ordinary earlier send.
- Time and blocking: `poll(timeout)` is modelled as returning what is ready at the moment it is called. The `f32` seconds-to-nanoseconds conversion and the waiting are not modelled, since nothing else runs meanwhile.
- `Receiver::recv` and `recv_timeout` are not separate operations. In this sequential model they would block forever or time out exactly where `try_recv` reports an empty queue; on a non-empty queue they return what `try_recv` returns.
- Dropping a Sender is not modelled, so `try_recv` never reports `Disconnected`. It reports only an empty queue (`None`).
- Dropping a Poll is not modelled. `Poll::add` stores a clone of the Poll's shared `Signal` cell in the pair's link (src/lib.rs:204), and that cell owns the readiness queue (src/lib.rs:51-54, 189). So after the Poll is dropped, tags sent to it pile up in a readiness queue that the links keep alive and nobody reads. A Sender that has not sent yet can still cache that queue on its first send. Only once no link holds the cell does the push fail, and `let _ =` then discards the failure. Neither case is observable through the crate's API.
- Model.NewChannel: requires the counter to be below `i32::MAX`. Past that point the code's `*id += 1` overflows: it panics in debug builds and wraps in release builds. The model does not cover that behaviour.
- The `Pollable` trait and the `Signal` struct are not separate entities. `add` takes the pair directly, and a Poll's `Signal` is its readiness queue `signals[p]`.
- Every channel of one `World` carries the same payload type `T`. Rust allows a different `T` per channel, which does not affect tags, links or notifications.
- The crossbeam channel internals are not modelled. An unbounded crossbeam channel is an unbounded FIFO queue whose sends fail only when its Receiver is gone.
- The example in the crate's documentation comment at the top of src/lib.rs is not modelled separately. It is `poll_test` without the clone, and `Properties.ReadinessInSendOrder` covers it.
