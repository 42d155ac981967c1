/**
  What src/lib.rs promises about its operations, stated and proved over the
  functions of module Model: tag allocation, the shared link, the sender's
  resolve-once cache, the notification path of `send`, and `poll`.
*/
module Properties {
  import opened Wrappers
  import opened Model

  // ---------------------------------------------------------------- channel()

  /** `channel()` hands out the counter's current value as the tag and bumps the counter by one. */
  lemma ChannelTakesCounter<T>(w: World<T>)
    requires Valid(w) && w.counter < I32_MAX
    ensures var r := NewChannel(w);
      && TagOf(r.world, r.receiver) == w.counter
      && r.world.senders[r.sender].tag == w.counter
      && r.world.counter == w.counter + 1
  {
  }

  /**
    A new pair has an empty queue and an unbound link; its Sender and Receiver
    share that pair (hence its tag and link cell); the Sender's cache is
    unresolved.  Nothing that existed before changes.
  */
  lemma NewPairIsUnbound<T>(w: World<T>)
    requires Valid(w) && w.counter < I32_MAX
    ensures var r := NewChannel(w);
      && r.world.pairs[r.receiver] == Pair(w.counter, [], None, true)
      && r.world.senders[r.sender] == SenderState(r.receiver, w.counter, false, None)
      && Target(r.world, r.sender) == None
      && r.world.pairs[..|w.pairs|] == w.pairs
      && r.world.senders[..|w.senders|] == w.senders
      && r.world.signals == w.signals
  {
  }

  // ------------------------------------------------------------ Sender::clone

  /**
    A clone feeds the same pair with the same tag but starts with an unresolved
    cache, so its first send reads the link as it is then.  The original sender
    and everything else are untouched.
  */
  lemma CloneHasFreshCache<T>(w: World<T>, s: SenderId)
    requires Valid(w) && s < |w.senders|
    ensures var r := CloneSender(w, s); var c := w.senders[s].pair;
      && r.world.senders[r.id] == SenderState(c, w.senders[s].tag, false, None)
      && Target(r.world, r.id) == w.pairs[c].link
      && r.world.senders[..|w.senders|] == w.senders
      && r.world.pairs == w.pairs && r.world.signals == w.signals && r.world.counter == w.counter
  {
  }

  // ----------------------------------------------------- Poll::add and append

  /** `add` overwrites the receiver's link with the poll; nothing else changes. */
  lemma AddRebinds<T>(w: World<T>, p: PollId, c: PairId)
    requires Valid(w) && p < |w.signals| && IsReceiver(w, c)
    ensures var r := Add(w, p, c);
      && r.pairs[c] == w.pairs[c].(link := Some(p))
      && |r.pairs| == |w.pairs|
      && (forall i :: 0 <= i < |w.pairs| && i != c ==> r.pairs[i] == w.pairs[i])
      && r.senders == w.senders && r.signals == w.signals && r.counter == w.counter
  {
  }

  /** Binding a receiver to a second poll leaves no trace of the first binding. */
  lemma RebindSupersedes<T>(w: World<T>, p1: PollId, p2: PollId, c: PairId)
    requires Valid(w) && p1 < |w.signals| && p2 < |w.signals| && IsReceiver(w, c)
    ensures Add(Add(w, p1, c), p2, c) == Add(w, p2, c)
  {
    var once := Add(w, p2, c);
    var twice := Add(Add(w, p1, c), p2, c);
    assert twice.pairs == once.pairs;
  }

  /**
    `append` binds every listed receiver to the poll and leaves every other
    receiver, every payload, every sender cache and every readiness queue alone.
  */
  lemma {:induction false} AddAllBindsEach<T>(w: World<T>, p: PollId, cs: seq<PairId>)
    requires Valid(w) && p < |w.signals| && AllReceivers(w, cs)
    ensures var r := AddAll(w, p, cs);
      && (forall i :: 0 <= i < |cs| ==> r.pairs[cs[i]].link == Some(p))
      && (forall c :: 0 <= c < |w.pairs| && c !in cs ==> r.pairs[c] == w.pairs[c])
      && (forall c :: 0 <= c < |w.pairs| ==> r.pairs[c] == w.pairs[c].(link := r.pairs[c].link))
      && r.senders == w.senders && r.signals == w.signals && r.counter == w.counter
    decreases |cs|
  {
    if cs != [] {
      var front := cs[..|cs| - 1];
      var last := cs[|cs| - 1];
      AddAllBindsEach(w, p, front);
      var before := AddAll(w, p, front);
      AddRebinds(before, p, last);
      forall i | 0 <= i < |cs| ensures AddAll(w, p, cs).pairs[cs[i]].link == Some(p) {
        if i < |cs| - 1 {
          assert cs[i] == front[i];
        }
      }
    }
  }

  /** `append` of a two-element list is `add` of the first, then `add` of the second. */
  lemma AddAllTwo<T>(w: World<T>, p: PollId, a: PairId, b: PairId)
    requires Valid(w) && p < |w.signals| && IsReceiver(w, a) && IsReceiver(w, b)
    ensures AddAll(w, p, [a, b]) == Add(Add(w, p, a), p, b)
  {
    assert [a, b][..1] == [a] && [a][..0] == [];
    assert AddAll(w, p, [a]) == Add(w, p, a);
  }

  // ------------------------------------------------------------- Sender::send

  /**
    The payload goes to the sender's own pair and nowhere else; the send
    succeeds exactly when the Receiver still exists, and a failure hands the
    payload back.
  */
  lemma SendDelivers<T>(w: World<T>, s: SenderId, v: T)
    requires Valid(w) && s < |w.senders|
    ensures var r := Send(w, s, v); var c := w.senders[s].pair; var pair := w.pairs[c];
      && (r.result == Sent <==> pair.receiverAlive)
      && (r.result.SendFailed? ==> r.result.value == v)
      && r.world.pairs[c] == pair.(queue := if pair.receiverAlive then pair.queue + [v] else pair.queue)
      && |r.world.pairs| == |w.pairs|
      && (forall i :: 0 <= i < |w.pairs| && i != c ==> r.world.pairs[i] == w.pairs[i])
      && r.world.counter == w.counter
  {
  }

  /**
    The send pushes the channel's own tag onto the readiness queue of the
    sender's target, and onto no other, whether or not the payload was delivered.
  */
  lemma SendNotifiesTarget<T>(w: World<T>, s: SenderId, v: T)
    requires Valid(w) && s < |w.senders|
    ensures var r := Send(w, s, v); var tag := TagOf(w, w.senders[s].pair);
      && (Target(w, s).None? ==> r.world.signals == w.signals)
      && (Target(w, s).Some? ==>
            var p := Target(w, s).value;
            r.world.signals == w.signals[p := w.signals[p] + [tag]])
  {
  }

  /**
    The first send resolves the target once and for all: afterwards the sender
    is initialised and its target is what it was just before the send.  Other
    sender instances keep their caches.
  */
  lemma SendFreezesTarget<T>(w: World<T>, s: SenderId, v: T)
    requires Valid(w) && s < |w.senders|
    ensures var r := Send(w, s, v);
      && r.world.senders[s].init
      && Target(r.world, s) == Target(w, s)
      && |r.world.senders| == |w.senders|
      && (forall t :: 0 <= t < |w.senders| && t != s ==> r.world.senders[t] == w.senders[t])
  {
  }

  /**
    Rebinding a receiver redirects exactly the senders of that pair that have
    not sent yet; a sender that has sent keeps notifying its cached poll.
  */
  lemma TargetAfterRebind<T>(w: World<T>, p: PollId, c: PairId, s: SenderId)
    requires Valid(w) && p < |w.signals| && IsReceiver(w, c) && s < |w.senders|
    ensures Target(Add(w, p, c), s) ==
              if !w.senders[s].init && w.senders[s].pair == c then Some(p) else Target(w, s)
  {
  }

  /** Two states whose payload queues and receivers agree, whatever their links, caches and polls. */
  ghost predicate SamePayloads<T>(w1: World<T>, w2: World<T>) {
    && |w1.pairs| == |w2.pairs|
    && forall c :: 0 <= c < |w1.pairs| ==>
         w1.pairs[c].queue == w2.pairs[c].queue && w1.pairs[c].receiverAlive == w2.pairs[c].receiverAlive
  }

  /**
    Notification never affects delivery: however the link is bound and whatever
    the sender has cached, a send returns the same result and leaves the same
    payload queues.
  */
  lemma NotificationNeverAffectsPayload<T>(w1: World<T>, w2: World<T>, s: SenderId, v: T)
    requires Valid(w1) && Valid(w2) && s < |w1.senders| && s < |w2.senders|
    requires w1.senders[s].pair == w2.senders[s].pair && SamePayloads(w1, w2)
    ensures Send(w1, s, v).result == Send(w2, s, v).result
    ensures SamePayloads(Send(w1, s, v).world, Send(w2, s, v).world)
  {
    SendDelivers(w1, s, v);
    SendDelivers(w2, s, v);
  }

  /**
    The stale cache: bind a pair to poll `p1`, send once, rebind it to `p2` and
    send again on the same sender.  Both notifications land on `p1` and none on
    `p2`; only a sender instance that has not sent yet (a clone) follows `p2`.
  */
  lemma FirstSendFreezesBinding<T>(w: World<T>, s: SenderId, p1: PollId, p2: PollId, v1: T, v2: T)
    requires Valid(w) && s < |w.senders| && !w.senders[s].init
    requires IsReceiver(w, w.senders[s].pair)
    requires p1 < |w.signals| && p2 < |w.signals| && p1 != p2
    ensures
      var c := w.senders[s].pair;
      var bound1 := Add(w, p1, c);
      var sent1 := Send(bound1, s, v1).world;
      var bound2 := Add(sent1, p2, c);
      var sent2 := Send(bound2, s, v2).world;
      var clone := CloneSender(bound2, s);
      && sent2.signals[p1] == w.signals[p1] + [TagOf(w, c), TagOf(w, c)]
      && sent2.signals[p2] == w.signals[p2]
      && Target(clone.world, clone.id) == Some(p2)
  {
    var c := w.senders[s].pair;
    var bound1 := Add(w, p1, c);
    TargetAfterRebind(w, p1, c, s);
    SendNotifiesTarget(bound1, s, v1);
    SendFreezesTarget(bound1, s, v1);
    var sent1 := Send(bound1, s, v1).world;
    var bound2 := Add(sent1, p2, c);
    TargetAfterRebind(sent1, p2, c, s);
    SendNotifiesTarget(bound2, s, v2);
    CloneHasFreshCache(bound2, s);
  }

  // ------------------------------------------------------------- Poll::poll

  /**
    `poll` removes and returns the oldest ready tag, leaving the rest of the
    state alone; on an empty queue it returns `TIMEOUT` and changes nothing.
  */
  lemma PollPopsOldest<T>(w: World<T>, p: PollId)
    requires Valid(w) && p < |w.signals|
    ensures var r := Poll(w, p);
      && (w.signals[p] == [] ==> r.tag == TIMEOUT && r.world == w)
      && (w.signals[p] != [] ==>
            r.tag == w.signals[p][0] && r.world == w.(signals := w.signals[p := w.signals[p][1..]]))
  {
  }

  /**
    Because no tag is ever `-1`, the sentinel is unambiguous: `poll` returns
    `TIMEOUT` exactly when nothing is ready, and otherwise the tag of an
    existing pair.
  */
  lemma TimeoutOnlyWhenIdle<T>(w: World<T>, p: PollId)
    requires Valid(w) && p < |w.signals|
    ensures var r := Poll(w, p);
      && (r.tag == TIMEOUT <==> w.signals[p] == [])
      && (r.tag != TIMEOUT ==> 0 <= r.tag < |w.pairs| && TagOf(w, r.tag) == r.tag)
  {
  }

  /**
    One send of a sender whose target is poll `p`, on a live pair: the payload
    joins that pair's queue, the pair's tag joins `p`'s readiness queue, and
    every other pair and every other sender instance is untouched.
  */
  lemma NotifiedSend<T>(w: World<T>, s: SenderId, v: T, p: PollId)
    requires Valid(w) && s < |w.senders| && IsReceiver(w, w.senders[s].pair)
    requires Target(w, s) == Some(p)
    ensures var r := Send(w, s, v).world; var c := w.senders[s].pair;
      && |r.pairs| == |w.pairs| && |r.senders| == |w.senders|
      && r.pairs[c] == w.pairs[c].(queue := w.pairs[c].queue + [v])
      && (forall i :: 0 <= i < |w.pairs| && i != c ==> r.pairs[i] == w.pairs[i])
      && r.signals[p] == w.signals[p] + [w.senders[s].tag]
      && (forall t :: 0 <= t < |w.senders| && t != s ==> r.senders[t] == w.senders[t])
  {
    SendDelivers(w, s, v);
    SendNotifiesTarget(w, s, v);
    SendFreezesTarget(w, s, v);
  }

  /**
    Two new channels bound to one new poll, a send on each: the poll reports
    the first channel's tag, then the second's, then `TIMEOUT`.
  */
  lemma ReadinessInSendOrder<T>(w: World<T>, v1: T, v2: T)
    requires Valid(w) && w.counter + 2 <= I32_MAX
    ensures
      var ch1 := NewChannel(w);
      var ch2 := NewChannel(ch1.world);
      var poller := NewPoll(ch2.world);
      var bound := AddAll(poller.world, poller.id, [ch1.receiver, ch2.receiver]);
      var sent1 := Send(bound, ch1.sender, v1);
      var sent2 := Send(sent1.world, ch2.sender, v2);
      var first := Poll(sent2.world, poller.id);
      var second := Poll(first.world, poller.id);
      var third := Poll(second.world, poller.id);
      && first.tag == TagOf(ch1.world, ch1.receiver) == w.counter
      && second.tag == TagOf(ch2.world, ch2.receiver) == w.counter + 1
      && third.tag == TIMEOUT
      && sent1.result == Sent && sent2.result == Sent
  {
    var ch1 := NewChannel(w);
    var ch2 := NewChannel(ch1.world);
    var poller := NewPoll(ch2.world);
    var p, c1, c2 := poller.id, ch1.receiver, ch2.receiver;
    AddAllTwo(poller.world, p, c1, c2);
    var bound := AddAll(poller.world, p, [c1, c2]);
    NotifiedSend(bound, ch1.sender, v1, p);
    var sent1 := Send(bound, ch1.sender, v1);
    SendDelivers(bound, ch1.sender, v1);
    NotifiedSend(sent1.world, ch2.sender, v2, p);
    var sent2 := Send(sent1.world, ch2.sender, v2);
    SendDelivers(sent1.world, ch2.sender, v2);
    assert sent2.world.signals[p] == [w.counter, w.counter + 1];
  }

  // ------------------------------------------------- per-channel FIFO order

  /**
    `try_recv` takes the oldest payload of its own queue and touches nothing
    else; on an empty queue it reports so and changes nothing.
  */
  lemma TryRecvPopsOldest<T>(w: World<T>, c: PairId)
    requires Valid(w) && IsReceiver(w, c)
    ensures var r := TryRecv(w, c); var q := w.pairs[c].queue;
      && (q == [] ==> r.item == None && r.world == w)
      && (q != [] ==> r.item == Some(q[0]) && r.world == w.(pairs := w.pairs[c := w.pairs[c].(queue := q[1..])]))
  {
  }

  /**
    `len` counts the payloads waiting: a delivered send adds one, a failed send
    none, and `try_recv` yields a payload exactly when `len` is positive, then
    removes one.
  */
  lemma LenCountsPending<T>(w: World<T>, s: SenderId, v: T)
    requires Valid(w) && s < |w.senders|
    ensures var c := w.senders[s].pair;
      && Len(Send(w, s, v).world, c) == Len(w, c) + (if w.pairs[c].receiverAlive then 1 else 0)
      && (IsReceiver(w, c) ==>
            var r := TryRecv(w, c);
            && (r.item.Some? <==> Len(w, c) > 0)
            && Len(r.world, c) == if Len(w, c) == 0 then 0 else Len(w, c) - 1)
  {
    SendDelivers(w, s, v);
  }

  /** Sends `vs` one after another on sender `s`. */
  function SendAll<T>(w: World<T>, s: SenderId, vs: seq<T>): (r: World<T>)
    requires Valid(w) && s < |w.senders|
    ensures Valid(r) && Keeps(w, r)
    decreases |vs|
  {
    if vs == [] then w else SendAll(Send(w, s, vs[0]).world, s, vs[1..])
  }

  datatype Drained<T> = Drained(world: World<T>, items: seq<T>)

  /** Calls `try_recv` `n` times on receiver `c`, collecting what it yields. */
  function RecvN<T>(w: World<T>, c: PairId, n: nat): (r: Drained<T>)
    requires Valid(w) && IsReceiver(w, c)
    ensures Valid(r.world) && Keeps(w, r.world)
    decreases n
  {
    if n == 0 then Drained(w, [])
    else
      var x := TryRecv(w, c);
      var rest := RecvN(x.world, c, n - 1);
      Drained(rest.world, (if x.item.Some? then [x.item.value] else []) + rest.items)
  }

  /** One send to a live receiver appends the payload to its queue; the sender keeps its pair. */
  lemma SendAppends<T>(w: World<T>, s: SenderId, v: T)
    requires Valid(w) && s < |w.senders| && IsReceiver(w, w.senders[s].pair)
    ensures var r := Send(w, s, v).world; var c := w.senders[s].pair;
      && r.senders[s].pair == c && IsReceiver(r, c)
      && r.pairs[c].queue == w.pairs[c].queue + [v]
  {
  }

  /** Successive sends to a live receiver append their payloads to its queue, in order. */
  lemma {:induction false} SendAllEnqueues<T>(w: World<T>, s: SenderId, vs: seq<T>)
    requires Valid(w) && s < |w.senders| && IsReceiver(w, w.senders[s].pair)
    ensures var c := w.senders[s].pair;
      SendAll(w, s, vs).pairs[c].queue == w.pairs[c].queue + vs
    decreases |vs|
  {
    if vs != [] {
      var c, q := w.senders[s].pair, w.pairs[w.senders[s].pair].queue;
      SendAppends(w, s, vs[0]);
      var next := Send(w, s, vs[0]).world;
      SendAllEnqueues(next, s, vs[1..]);
      assert (q + [vs[0]]) + vs[1..] == q + vs;
    }
  }

  /** `n` receives take the first `n` payloads, oldest first, and leave the rest queued. */
  lemma {:induction false} RecvNTakesPrefix<T>(w: World<T>, c: PairId, n: nat)
    requires Valid(w) && IsReceiver(w, c) && n <= |w.pairs[c].queue|
    ensures RecvN(w, c, n).items == w.pairs[c].queue[..n]
    ensures RecvN(w, c, n).world.pairs[c].queue == w.pairs[c].queue[n..]
    decreases n
  {
    if n > 0 {
      var q := w.pairs[c].queue;
      var x := TryRecv(w, c);
      assert x.world.pairs[c].queue == q[1..];
      RecvNTakesPrefix(x.world, c, n - 1);
      assert q[..n] == [q[0]] + q[1..][..n - 1];
    }
  }

  /** FIFO per channel: what is sent on an empty channel is received in the same order. */
  lemma PayloadFifo<T>(w: World<T>, s: SenderId, vs: seq<T>)
    requires Valid(w) && s < |w.senders| && IsReceiver(w, w.senders[s].pair)
    requires w.pairs[w.senders[s].pair].queue == []
    ensures RecvN(SendAll(w, s, vs), w.senders[s].pair, |vs|).items == vs
  {
    var c := w.senders[s].pair;
    SendAllEnqueues(w, s, vs);
    RecvNTakesPrefix(SendAll(w, s, vs), c, |vs|);
    assert SendAll(w, s, vs).pairs[c].queue[..|vs|] == vs;
  }
}
