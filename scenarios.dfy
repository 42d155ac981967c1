/**
  The two tests of tests/poll.rs as methods on Runtime.Process, starting from a
  fresh process, with what they assert stated as postconditions.
*/
module Scenarios {
  import opened Wrappers
  import opened Model
  import opened Runtime
  import opened Properties

  /**
    The set-up of `poll_test` on the model, from any valid state: two new
    channels, both bound to one new poll, with empty queues and an empty
    readiness queue.
  */
  lemma PollTestBinds(w: World<int>)
    requires Valid(w) && w.counter + 2 <= I32_MAX
    ensures
      var ch1 := NewChannel(w);
      var ch2 := NewChannel(ch1.world);
      var poller := NewPoll(ch2.world);
      var b := AddAll(poller.world, poller.id, [ch1.receiver, ch2.receiver]);
      && ch1.receiver != ch2.receiver
      && ch1.sender < |b.senders| && ch2.sender < |b.senders|
      && b.senders[ch1.sender] == SenderState(ch1.receiver, w.counter, false, None)
      && b.senders[ch2.sender] == SenderState(ch2.receiver, w.counter + 1, false, None)
      && IsReceiver(b, ch1.receiver) && IsReceiver(b, ch2.receiver)
      && b.pairs[ch1.receiver].link == Some(poller.id) && b.pairs[ch2.receiver].link == Some(poller.id)
      && b.pairs[ch1.receiver].queue == [] && b.pairs[ch2.receiver].queue == []
      && poller.id < |b.signals| && b.signals[poller.id] == []
  {
    var ch1 := NewChannel(w);
    var ch2 := NewChannel(ch1.world);
    var poller := NewPoll(ch2.world);
    AddAllTwo(poller.world, poller.id, ch1.receiver, ch2.receiver);
  }

  /**
    The sends of `poll_test` on the model: from two unsent senders on distinct
    pairs bound to poll `p`, a clone of the first sends 1000, then the first
    sends 100 and the second 200.  The first pair then holds 1000 and 100, the
    second 200, and the readiness queue holds the first tag twice (once per
    Sender instance) and then the second.
  */
  lemma PollTestSends(w: World<int>, p: PollId, tx1: SenderId, tx2: SenderId, k: Tag)
    requires Valid(w) && p < |w.signals| && w.signals[p] == []
    requires tx1 < |w.senders| && tx2 < |w.senders|
    requires !w.senders[tx1].init && !w.senders[tx2].init
    requires w.senders[tx1].pair != w.senders[tx2].pair
    requires w.senders[tx1].tag == k && w.senders[tx2].tag == k + 1
    requires IsReceiver(w, w.senders[tx1].pair) && IsReceiver(w, w.senders[tx2].pair)
    requires w.pairs[w.senders[tx1].pair].link == Some(p) && w.pairs[w.senders[tx2].pair].link == Some(p)
    requires w.pairs[w.senders[tx1].pair].queue == [] && w.pairs[w.senders[tx2].pair].queue == []
    ensures
      var clone := CloneSender(w, tx1);
      var sent1 := Send(clone.world, clone.id, 1000);
      var sent2 := Send(sent1.world, tx1, 100);
      var sent3 := Send(sent2.world, tx2, 200).world;
      && sent3.pairs[w.senders[tx1].pair].queue == [1000, 100]
      && sent3.pairs[w.senders[tx2].pair].queue == [200]
      && sent3.signals[p] == [k, k, k + 1]
  {
    var c1, c2 := w.senders[tx1].pair, w.senders[tx2].pair;
    var clone := CloneSender(w, tx1);
    var w0 := clone.world;
    assert w0.pairs == w.pairs && w0.signals == w.signals;
    assert w0.senders[tx1] == w.senders[tx1] && w0.senders[tx2] == w.senders[tx2];
    assert w0.senders[clone.id] == SenderState(c1, k, false, None);
    NotifiedSend(w0, clone.id, 1000, p);
    var w1 := Send(w0, clone.id, 1000).world;
    assert Target(w1, tx1) == Some(p) && w1.pairs[c1].queue == [1000] && w1.signals[p] == [k];
    NotifiedSend(w1, tx1, 100, p);
    var w2 := Send(w1, tx1, 100).world;
    assert Target(w2, tx2) == Some(p) && w2.pairs[c2].queue == [] && w2.signals[p] == [k, k];
    NotifiedSend(w2, tx2, 200, p);
  }

  /**
    The waiting loop of `poll_test` on the model: with 1000 and 100 queued on
    the first pair, 200 on the second and readiness `[k, k, k + 1]`, polling and
    then receiving from the reported channel yields the tags `k, k, k + 1`, then
    `TIMEOUT`, and the payloads in send order.
  */
  lemma PollTestDrains(w: World<int>, p: PollId, c1: PairId, c2: PairId, k: Tag)
    requires Valid(w) && p < |w.signals| && IsReceiver(w, c1) && IsReceiver(w, c2) && c1 != c2
    requires w.pairs[c1].queue == [1000, 100] && w.pairs[c2].queue == [200]
    requires w.signals[p] == [k, k, k + 1]
    ensures
      var id1 := Poll(w, p);
      var n1 := TryRecv(id1.world, c1);
      var id2 := Poll(n1.world, p);
      var n2 := TryRecv(id2.world, c1);
      var id3 := Poll(n2.world, p);
      var n3 := TryRecv(id3.world, c2);
      var id4 := Poll(n3.world, p);
      && [id1.tag, id2.tag, id3.tag, id4.tag] == [k, k, k + 1, TIMEOUT]
      && [n1.item, n2.item, n3.item] == [Some(1000), Some(100), Some(200)]
  {
    var id1 := Poll(w, p);
    var n1 := TryRecv(id1.world, c1);
    PollThenReceive(w, p, c1, c2);
    var id2 := Poll(n1.world, p);
    var n2 := TryRecv(id2.world, c1);
    PollThenReceive(n1.world, p, c1, c2);
    var id3 := Poll(n2.world, p);
    var n3 := TryRecv(id3.world, c2);
    PollThenReceive(n2.world, p, c2, c1);
    PollPopsOldest(n3.world, p);
  }

  /**
    One round of the waiting loop: `poll` pops the oldest ready tag and the
    following `try_recv` on `c` pops `c`'s oldest payload; nothing else in the
    state changes (in particular pair `other` is left as it was).
  */
  lemma PollThenReceive<T>(w: World<T>, p: PollId, c: PairId, other: PairId)
    requires Valid(w) && p < |w.signals| && w.signals[p] != []
    requires IsReceiver(w, c) && w.pairs[c].queue != [] && other < |w.pairs| && other != c
    ensures var id := Poll(w, p); var n := TryRecv(id.world, c);
      && id.tag == w.signals[p][0] && n.item == Some(w.pairs[c].queue[0])
      && p < |n.world.signals| && n.world.signals[p] == w.signals[p][1..]
      && IsReceiver(n.world, c) && n.world.pairs[c].queue == w.pairs[c].queue[1..]
      && IsReceiver(n.world, other) == IsReceiver(w, other) && n.world.pairs[other] == w.pairs[other]
      && n.world == w.(signals := w.signals[p := w.signals[p][1..]],
                       pairs := w.pairs[c := w.pairs[c].(queue := w.pairs[c].queue[1..])])
  {
  }

  /**
    The set-up and sends of `poll_test`, on a running process: two channels
    bound to one new poll, a clone of the first sender sending 1000, then the
    first sender 100 and the second 200.
  */
  method PollTestSetUp(process: Process<int>) returns (poller: PollId, rx1: PairId, rx2: PairId)
    requires process.Valid() && process.counter + 2 <= I32_MAX
    modifies process
    ensures process.Valid() && poller < |process.signals| && rx1 != rx2
    ensures IsReceiver(process.State(), rx1) && IsReceiver(process.State(), rx2)
    ensures process.pairs[rx1].queue == [1000, 100] && process.pairs[rx2].queue == [200]
    ensures process.signals[poller] == [old(process.counter), old(process.counter), old(process.counter) + 1]
    ensures process.pairs[rx1].tag == old(process.counter) && process.pairs[rx2].tag == old(process.counter) + 1
  {
    ghost var k := process.counter;
    PollTestBinds(process.State());
    var tx1, tx2;
    tx1, rx1 := process.Channel();
    tx2, rx2 := process.Channel();
    poller := process.NewPoll();
    process.Append(poller, [rx1, rx2]);
    PollTestSends(process.State(), poller, tx1, tx2, k);

    var tx1Clone := process.Clone(tx1);
    var _ := process.Send(tx1Clone, 1000);
    var _ := process.Send(tx1, 100);
    var _ := process.Send(tx2, 200);
  }

  /**
    `poll_test`: the two receivers report tags 0 and 1; after the set-up the
    poll reports tag 0 twice, then tag 1, then the timeout sentinel, so each
    report names the receiver that is read next, and those reads yield 1000,
    100 and 200.
  */
  method PollTest() returns (ids: seq<Tag>, polled: seq<Tag>, received: seq<Option<int>>)
    ensures ids == [0, 1]
    ensures polled == [ids[0], ids[0], ids[1], TIMEOUT]
    ensures received == [Some(1000), Some(100), Some(200)]
  {
    var process := new Process<int>();
    var poller, rx1, rx2 := PollTestSetUp(process);
    var tag1 := process.Tag(rx1);
    var tag2 := process.Tag(rx2);
    assert tag1 == 0 && tag2 == 1;
    ids := [tag1, tag2];
    PollTestDrains(process.State(), poller, rx1, rx2, tag1);

    var id1 := process.Poll(poller);
    var n1 := process.TryRecv(rx1);
    var id2 := process.Poll(poller);
    var n2 := process.TryRecv(rx1);
    var id3 := process.Poll(poller);
    var n3 := process.TryRecv(rx2);
    var id4 := process.Poll(poller);

    polled := [id1, id2, id3, id4];
    received := [n1, n2, n3];
  }

  /** `test_fixed_id`: the first three channels of a process get tags 0, 1 and 2. */
  method FixedId() returns (ids: seq<Tag>)
    ensures ids == [0, 1, 2]
  {
    var process := new Process<int>();
    var _, rx1 := process.Channel();
    var id1 := process.Tag(rx1);
    var _, rx2 := process.Channel();
    var id2 := process.Tag(rx2);
    var _, rx3 := process.Channel();
    var id3 := process.Tag(rx3);
    ids := [id1, id2, id3];
  }
}
