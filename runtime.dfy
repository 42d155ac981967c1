/**
  The crate's operations as the step-by-step updates src/lib.rs performs, on
  one object holding the process's shared state: the global `TAG` counter, the
  channel pairs (payload queue, link cell, tag), the Sender instances' caches
  and the polls' readiness queues.  Each method is proved to have exactly the
  effect of the matching function of module Model, so the lemmas of modules
  Properties and Traces apply to it.
*/
module Runtime {
  import opened Wrappers
  import opened Model

  class Process<T> {
    var counter: int
    var pairs: seq<Pair<T>>
    var senders: seq<SenderState>
    var signals: seq<seq<Tag>>

    ghost function State(): World<T>
      reads this
    {
      World(counter, pairs, senders, signals)
    }

    ghost predicate Valid()
      reads this
    {
      Model.Valid(State())
    }

    /** A process that has created nothing yet: `TAG` is 0. */
    constructor ()
      ensures Valid() && State() == Init()
    {
      counter, pairs, senders, signals := 0, [], [], [];
    }

    /** `channel()`: returns the new Sender and the new Receiver (named by its pair). */
    method Channel() returns (s: SenderId, r: PairId)
      requires Valid() && counter < I32_MAX
      modifies this
      ensures Valid()
      ensures var ch := NewChannel(old(State())); State() == ch.world && s == ch.sender && r == ch.receiver
    {
      var next := counter;
      counter := counter + 1;
      r := |pairs|;
      pairs := pairs + [Pair(next, [], None, true)];
      s := |senders|;
      senders := senders + [SenderState(r, next, false, None)];
    }

    /** `Sender::clone`. */
    method Clone(s: SenderId) returns (c: SenderId)
      requires Valid() && s < |senders|
      modifies this
      ensures Valid()
      ensures var h := CloneSender(old(State()), s); State() == h.world && c == h.id
    {
      var st := senders[s];
      c := |senders|;
      senders := senders + [SenderState(st.pair, st.tag, false, None)];
    }

    /** `Sender::send`. */
    method Send(s: SenderId, v: T) returns (result: SendOutcome<T>)
      requires Valid() && s < |senders|
      modifies this
      ensures Valid()
      ensures var x := Model.Send(old(State()), s, v); State() == x.world && result == x.result
    {
      ghost var expected := Model.Send(State(), s, v);
      var st := senders[s];
      if !st.init {
        st := st.(init := true);
        var link := pairs[st.pair].link;
        if link.Some? {
          st := st.(producer := link);
        }
        senders := senders[s := st];
      }
      var pair := pairs[st.pair];
      if pair.receiverAlive {
        pairs := pairs[st.pair := pair.(queue := pair.queue + [v])];
        result := Sent;
      } else {
        result := SendFailed(v);
      }
      if st.producer.Some? {
        var p := st.producer.value;
        signals := signals[p := signals[p] + [st.tag]];
      }
      assert senders == expected.world.senders;
      assert pairs == expected.world.pairs;
      assert signals == expected.world.signals;
    }

    /** `Receiver::try_recv`. */
    method TryRecv(c: PairId) returns (item: Option<T>)
      requires Valid() && IsReceiver(State(), c)
      modifies this
      ensures Valid()
      ensures var x := Model.TryRecv(old(State()), c); State() == x.world && item == x.item
    {
      var pair := pairs[c];
      if pair.queue == [] {
        item := None;
      } else {
        item := Some(pair.queue[0]);
        pairs := pairs[c := pair.(queue := pair.queue[1..])];
      }
    }

    /** `Receiver::tag`: the pair's tag, which is never the `-1` sentinel. */
    method Tag(c: PairId) returns (t: Tag)
      requires Valid() && IsReceiver(State(), c)
      ensures t == TagOf(State(), c) && t != TIMEOUT
    {
      t := pairs[c].tag;
    }

    /** `Receiver::len`. */
    method Len(c: PairId) returns (n: nat)
      requires Valid() && IsReceiver(State(), c)
      ensures n == Model.Len(State(), c)
    {
      n := |pairs[c].queue|;
    }

    /** Dropping a Receiver. */
    method DropReceiver(c: PairId)
      requires Valid() && IsReceiver(State(), c)
      modifies this
      ensures Valid() && State() == Model.DropReceiver(old(State()), c)
    {
      pairs := pairs[c := pairs[c].(receiverAlive := false)];
    }

    /** `Poll::new`. */
    method NewPoll() returns (p: PollId)
      requires Valid()
      modifies this
      ensures Valid()
      ensures var h := Model.NewPoll(old(State())); State() == h.world && p == h.id
    {
      p := |signals|;
      signals := signals + [[]];
    }

    /** `Poll::add`. */
    method Add(p: PollId, c: PairId)
      requires Valid() && p < |signals| && IsReceiver(State(), c)
      modifies this
      ensures Valid() && State() == Model.Add(old(State()), p, c)
    {
      pairs := pairs[c := pairs[c].(link := Some(p))];
    }

    /** `Poll::append`: `add` on each receiver, in list order. */
    method Append(p: PollId, cs: seq<PairId>)
      requires Valid() && p < |signals| && AllReceivers(State(), cs)
      modifies this
      ensures Valid() && State() == AddAll(old(State()), p, cs)
    {
      for i := 0 to |cs|
        invariant Valid()
        invariant State() == AddAll(old(State()), p, cs[..i])
      {
        assert cs[..i + 1][..i] == cs[..i];
        Add(p, cs[i]);
      }
      assert cs[..|cs|] == cs;
    }

    /** `Poll::poll`: the oldest ready tag, or `TIMEOUT` when none is ready. */
    method Poll(p: PollId) returns (tag: Tag)
      requires Valid() && p < |signals|
      modifies this
      ensures Valid()
      ensures var x := Model.Poll(old(State()), p); State() == x.world && tag == x.tag
    {
      var ready := signals[p];
      if ready == [] {
        tag := TIMEOUT;
      } else {
        tag := ready[0];
        signals := signals[p := ready[1..]];
      }
    }
  }
}
