/**
  The state of a process using poll-channel, and one function per operation of
  src/lib.rs describing what that operation does to it.

  Everything the crate shares through `Arc<Mutex<..>>` lives in one sequential
  `World`: two handles that share a cell name the same index.
    - `pairs[c]` is channel pair `c`: its payload queue, its notification link
      (the doubly-indirected cell the Sender and the Receiver both hold), its tag
      and whether its Receiver still exists.  A Receiver is named by its pair.
    - `senders[s]` is one Sender instance (the original or a clone): which pair it
      feeds, its copy of the tag and its private `init`/`producer` cache.
    - `signals[p]` is the readiness FIFO of Poll `p` (its `Signal`).
    - `counter` is the global `TAG` counter.
*/
module Model {
  import opened Wrappers

  /** Largest value of Rust's `i32`, the type of a tag. */
  const I32_MAX: int := 0x7fff_ffff

  /** What `Poll::poll` returns when no tag is ready. */
  const TIMEOUT: int := -1

  type Tag = int
  type PairId = nat
  type SenderId = nat
  type PollId = nat

  /** One channel pair: the tag, the crossbeam queue, the link cell and the Receiver's liveness. */
  datatype Pair<T> = Pair(tag: Tag, queue: seq<T>, link: Option<PollId>, receiverAlive: bool)

  /** One Sender instance: the pair it feeds, its tag, and its resolved-target cache. */
  datatype SenderState = SenderState(pair: PairId, tag: Tag, init: bool, producer: Option<PollId>)

  datatype World<T> = World(counter: int, pairs: seq<Pair<T>>, senders: seq<SenderState>, signals: seq<seq<Tag>>)

  /** `Result<(), SendError<T>>`: a failed send hands the payload back. */
  datatype SendOutcome<T> = Sent | SendFailed(value: T)

  datatype Created<T> = Created(world: World<T>, sender: SenderId, receiver: PairId)
  datatype Handle<T> = Handle(world: World<T>, id: nat)
  datatype Sending<T> = Sending(world: World<T>, result: SendOutcome<T>)
  datatype Received<T> = Received(world: World<T>, item: Option<T>)
  datatype Polled<T> = Polled(world: World<T>, tag: Tag)

  ghost predicate RefersToPoll<T>(w: World<T>, p: Option<PollId>) {
    p.Some? ==> p.value < |w.signals|
  }

  /**
    The invariant every reachable state keeps: the counter has handed out exactly
    the tags 0 .. counter-1, pair `i` has tag `i`, every sender copies the tag of
    its pair and caches a producer only after its first send, links and caches
    name existing polls, and readiness queues hold only issued tags.
  */
  ghost predicate Valid<T>(w: World<T>) {
    && w.counter == |w.pairs| <= I32_MAX
    && (forall i :: 0 <= i < |w.pairs| ==> w.pairs[i].tag == i && RefersToPoll(w, w.pairs[i].link))
    && (forall s :: 0 <= s < |w.senders| ==>
          && w.senders[s].pair < |w.pairs|
          && w.senders[s].tag == w.pairs[w.senders[s].pair].tag
          && (w.senders[s].producer.Some? ==> w.senders[s].init)
          && RefersToPoll(w, w.senders[s].producer))
    && (forall p, k :: 0 <= p < |w.signals| && 0 <= k < |w.signals[p]| ==> 0 <= w.signals[p][k] < w.counter)
  }

  /**
    Every handle that is usable in `w` is still usable in `w'`: nothing is
    deallocated, receivers stay alive and senders keep their pair.
  */
  ghost predicate Keeps<T>(w: World<T>, w': World<T>) {
    && |w.pairs| <= |w'.pairs| && |w.senders| <= |w'.senders| && |w.signals| <= |w'.signals|
    && (forall c :: 0 <= c < |w.pairs| ==> w'.pairs[c].receiverAlive == w.pairs[c].receiverAlive)
    && (forall s :: 0 <= s < |w.senders| ==> w'.senders[s].pair == w.senders[s].pair)
  }

  predicate IsReceiver<T>(w: World<T>, c: PairId) {
    c < |w.pairs| && w.pairs[c].receiverAlive
  }

  /** The process before any channel or poll exists (`TAG` starts at 0). */
  function Init<T>(): (w: World<T>)
    ensures Valid(w) && w.pairs == [] && w.signals == []
  {
    World(0, [], [], [])
  }

  /**
    `channel()`: take the counter's value as the new tag, bump the counter, and
    build a Sender and a Receiver sharing one empty queue and one unbound link.
  */
  function NewChannel<T>(w: World<T>): (r: Created<T>)
    requires Valid(w) && w.counter < I32_MAX
    ensures Valid(r.world) && Keeps(w, r.world)
    ensures r.receiver == |w.pairs| && IsReceiver(r.world, r.receiver)
    ensures r.sender == |w.senders| && r.sender < |r.world.senders|
    ensures r.world.senders[r.sender].pair == r.receiver
  {
    var tag := w.counter;
    var pair := Pair(tag, [], None, true);
    var sender := SenderState(|w.pairs|, tag, false, None);
    Created(World(w.counter + 1, w.pairs + [pair], w.senders + [sender], w.signals), |w.senders|, |w.pairs|)
  }

  /** `Sender::clone`: a new Sender instance on the same pair, with an unresolved cache. */
  function CloneSender<T>(w: World<T>, s: SenderId): (r: Handle<T>)
    requires Valid(w) && s < |w.senders|
    ensures Valid(r.world) && Keeps(w, r.world)
    ensures r.id == |w.senders| && r.id < |r.world.senders|
    ensures r.world.senders[r.id].pair == w.senders[s].pair
  {
    var st := w.senders[s];
    Handle(w.(senders := w.senders + [SenderState(st.pair, st.tag, false, None)]), |w.senders|)
  }

  /**
    The poll the next `send` of sender `s` notifies: its cached producer once it
    has sent, otherwise whatever the shared link holds right now.
  */
  function Target<T>(w: World<T>, s: SenderId): (r: Option<PollId>)
    requires Valid(w) && s < |w.senders|
    ensures RefersToPoll(w, r)
  {
    var st := w.senders[s];
    if st.init then st.producer else w.pairs[st.pair].link
  }

  /**
    `Sender::send`: on the first send of this instance resolve the link into the
    cache; enqueue the payload (failing only when the Receiver is gone); push the
    tag to the cached producer, if any, whatever the payload's fate; return the
    payload's result.
  */
  function Send<T>(w: World<T>, s: SenderId, v: T): (r: Sending<T>)
    requires Valid(w) && s < |w.senders|
    ensures Valid(r.world) && Keeps(w, r.world)
  {
    var st := w.senders[s];
    var cached :=
      if st.init then st
      else
        var link := w.pairs[st.pair].link;
        st.(init := true, producer := if link.Some? then link else st.producer);
    var pair := w.pairs[st.pair];
    var result := if pair.receiverAlive then Sent else SendFailed(v);
    var pairs := if pair.receiverAlive then w.pairs[st.pair := pair.(queue := pair.queue + [v])] else w.pairs;
    var signals :=
      match cached.producer
      case Some(p) => w.signals[p := w.signals[p] + [st.tag]]
      case None => w.signals;
    Sending(World(w.counter, pairs, w.senders[s := cached], signals), result)
  }

  /** `Receiver::try_recv`: take the oldest payload, or report that the queue is empty. */
  function TryRecv<T>(w: World<T>, c: PairId): (r: Received<T>)
    requires Valid(w) && IsReceiver(w, c)
    ensures Valid(r.world) && Keeps(w, r.world)
    ensures r.item.Some? <==> w.pairs[c].queue != []
  {
    var pair := w.pairs[c];
    if pair.queue == [] then Received(w, None)
    else Received(w.(pairs := w.pairs[c := pair.(queue := pair.queue[1..])]), Some(pair.queue[0]))
  }

  /** `Receiver::tag`. */
  function TagOf<T>(w: World<T>, c: PairId): (t: Tag)
    requires Valid(w) && c < |w.pairs|
    ensures 0 <= t < w.counter && t != TIMEOUT
  {
    w.pairs[c].tag
  }

  /** `Receiver::len`: the number of payloads waiting. */
  function Len<T>(w: World<T>, c: PairId): (n: nat)
    requires c < |w.pairs|
    ensures n == 0 <==> w.pairs[c].queue == []
  {
    |w.pairs[c].queue|
  }

  /** Dropping a Receiver: from now on its pair's sends fail. */
  function DropReceiver<T>(w: World<T>, c: PairId): (r: World<T>)
    requires Valid(w) && IsReceiver(w, c)
    ensures Valid(r) && |r.pairs| == |w.pairs|
    ensures r.pairs[c] == w.pairs[c].(receiverAlive := false) && !IsReceiver(r, c)
    ensures forall i :: 0 <= i < |w.pairs| && i != c ==> r.pairs[i] == w.pairs[i]
    ensures r.senders == w.senders && r.signals == w.signals && r.counter == w.counter
  {
    w.(pairs := w.pairs[c := w.pairs[c].(receiverAlive := false)])
  }

  /** `Poll::new`: a poll with a fresh, empty readiness queue. */
  function NewPoll<T>(w: World<T>): (r: Handle<T>)
    requires Valid(w)
    ensures Valid(r.world) && Keeps(w, r.world)
    ensures r.id == |w.signals| && r.id < |r.world.signals| && r.world.signals[r.id] == []
    ensures |r.world.signals| == |w.signals| + 1 && r.world.signals[..|w.signals|] == w.signals
    ensures r.world.pairs == w.pairs && r.world.senders == w.senders && r.world.counter == w.counter
  {
    Handle(w.(signals := w.signals + [[]]), |w.signals|)
  }

  /** `Poll::add`: overwrite receiver `c`'s link cell with poll `p`. */
  function Add<T>(w: World<T>, p: PollId, c: PairId): (r: World<T>)
    requires Valid(w) && p < |w.signals| && IsReceiver(w, c)
    ensures Valid(r) && Keeps(w, r)
    ensures r.pairs[c].link == Some(p)
  {
    w.(pairs := w.pairs[c := w.pairs[c].(link := Some(p))])
  }

  ghost predicate AllReceivers<T>(w: World<T>, cs: seq<PairId>) {
    forall i :: 0 <= i < |cs| ==> IsReceiver(w, cs[i])
  }

  /** `Poll::append`: `add` applied to each receiver of `cs`, in list order. */
  function AddAll<T>(w: World<T>, p: PollId, cs: seq<PairId>): (r: World<T>)
    requires Valid(w) && p < |w.signals| && AllReceivers(w, cs)
    ensures Valid(r) && Keeps(w, r) && |r.pairs| == |w.pairs| && |r.signals| == |w.signals|
    decreases |cs|
  {
    if cs == [] then w
    else
      var before := AddAll(w, p, cs[..|cs| - 1]);
      Add(before, p, cs[|cs| - 1])
  }

  /**
    `Poll::poll`: pop the oldest tag of the readiness queue, or return `TIMEOUT`
    and change nothing when it is empty (the waiting itself is not modelled).
  */
  function Poll<T>(w: World<T>, p: PollId): (r: Polled<T>)
    requires Valid(w) && p < |w.signals|
    ensures Valid(r.world) && Keeps(w, r.world)
  {
    var ready := w.signals[p];
    if ready == [] then Polled(w, TIMEOUT)
    else Polled(w.(signals := w.signals[p := ready[1..]]), ready[0])
  }
}
