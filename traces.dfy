/**
  Runs of the process: any sequence of the operations of src/lib.rs, each
  applied to the state the previous one left.  Over runs we prove what the tag
  counter promises for the whole process lifetime: tags come out as 0, 1, 2, ...,
  never repeat and never equal the `-1` that `poll` uses for "nothing ready".
*/
module Traces {
  import opened Wrappers
  import opened Model

  /** One call into the crate (reading a tag or a length changes nothing and is not a step). */
  datatype Op<T> =
    | OpChannel
    | OpClone(sender: SenderId)
    | OpSend(sender: SenderId, value: T)
    | OpTryRecv(receiver: PairId)
    | OpDropReceiver(receiver: PairId)
    | OpNewPoll
    | OpAdd(poll: PollId, receiver: PairId)
    | OpAppend(poll: PollId, receivers: seq<PairId>)
    | OpPoll(poll: PollId)

  /** The handles an operation uses exist (a dropped Receiver can no longer be used). */
  ghost predicate Enabled<T>(w: World<T>, op: Op<T>) {
    match op
    case OpChannel => w.counter < I32_MAX
    case OpClone(s) => s < |w.senders|
    case OpSend(s, _) => s < |w.senders|
    case OpTryRecv(c) => IsReceiver(w, c)
    case OpDropReceiver(c) => IsReceiver(w, c)
    case OpNewPoll => true
    case OpAdd(p, c) => p < |w.signals| && IsReceiver(w, c)
    case OpAppend(p, cs) => p < |w.signals| && AllReceivers(w, cs)
    case OpPoll(p) => p < |w.signals|
  }

  /** The state after one operation; only `channel()` moves the tag counter, by exactly one. */
  function Step<T>(w: World<T>, op: Op<T>): (r: World<T>)
    requires Valid(w) && Enabled(w, op)
    ensures Valid(r)
    ensures r.counter == if op.OpChannel? then w.counter + 1 else w.counter
  {
    match op
    case OpChannel => NewChannel(w).world
    case OpClone(s) => CloneSender(w, s).world
    case OpSend(s, v) => Send(w, s, v).world
    case OpTryRecv(c) => TryRecv(w, c).world
    case OpDropReceiver(c) => DropReceiver(w, c)
    case OpNewPoll => NewPoll(w).world
    case OpAdd(p, c) => Add(w, p, c)
    case OpAppend(p, cs) => AddAll(w, p, cs)
    case OpPoll(p) => Poll(w, p).world
  }

  /** `ops` can be run, one after another, from the valid state `w`. */
  ghost predicate IsTrace<T>(w: World<T>, ops: seq<Op<T>>)
    decreases |ops|
  {
    Valid(w) && (ops != [] ==> Enabled(w, ops[0]) && IsTrace(Step(w, ops[0]), ops[1..]))
  }

  /** The state a run ends in: still valid, and the counter never went back. */
  function Final<T>(w: World<T>, ops: seq<Op<T>>): (r: World<T>)
    requires IsTrace(w, ops)
    ensures Valid(r) && r.counter >= w.counter
    decreases |ops|
  {
    if ops == [] then w else Final(Step(w, ops[0]), ops[1..])
  }

  /** The tags the receivers created during a run report, in creation order. */
  function IssuedTags<T>(w: World<T>, ops: seq<Op<T>>): seq<Tag>
    requires IsTrace(w, ops)
    decreases |ops|
  {
    if ops == [] then []
    else
      var rest := IssuedTags(Step(w, ops[0]), ops[1..]);
      if ops[0].OpChannel? then
        var ch := NewChannel(w);
        [TagOf(ch.world, ch.receiver)] + rest
      else rest
  }

  /** What each `poll` of a run returned, in order. */
  function PolledTags<T>(w: World<T>, ops: seq<Op<T>>): seq<Tag>
    requires IsTrace(w, ops)
    decreases |ops|
  {
    if ops == [] then []
    else
      var rest := PolledTags(Step(w, ops[0]), ops[1..]);
      if ops[0].OpPoll? then [Poll(w, ops[0].poll).tag] + rest else rest
  }

  /**
    Over any run, the channels created get consecutive tags starting at the
    counter's value, and the counter ends just past the last one.
  */
  lemma {:induction false} IssuedTagsConsecutive<T>(w: World<T>, ops: seq<Op<T>>)
    requires IsTrace(w, ops)
    ensures Final(w, ops).counter == w.counter + |IssuedTags(w, ops)|
    ensures forall i :: 0 <= i < |IssuedTags(w, ops)| ==> IssuedTags(w, ops)[i] == w.counter + i
    decreases |ops|
  {
    if ops != [] {
      IssuedTagsConsecutive(Step(w, ops[0]), ops[1..]);
    }
  }

  /**
    From process start, tags are 0, 1, 2, ...: strictly increasing, so never
    reused, and never the `-1` sentinel.
  */
  lemma TagsUniqueAndNeverTimeout<T>(ops: seq<Op<T>>)
    requires IsTrace(Init(), ops)
    ensures var tags := IssuedTags(Init(), ops);
      && (forall i :: 0 <= i < |tags| ==> tags[i] == i && tags[i] != TIMEOUT)
      && (forall i, j :: 0 <= i < j < |tags| ==> tags[i] < tags[j])
  {
    IssuedTagsConsecutive(Init(), ops);
  }

  /**
    Tags depend on everything created before in the same process: after a run
    `pre` from process start has created `k` channels, the channels of a
    following run `ops` get tags `k`, `k + 1`, ... rather than 0, 1, ...
  */
  lemma EarlierChannelsShiftTags<T>(pre: seq<Op<T>>, ops: seq<Op<T>>)
    requires IsTrace(Init(), pre) && IsTrace(Final(Init(), pre), ops)
    ensures var k := |IssuedTags(Init(), pre)|; var tags := IssuedTags(Final(Init(), pre), ops);
      forall i :: 0 <= i < |tags| ==> tags[i] == k + i
  {
    IssuedTagsConsecutive(Init(), pre);
    IssuedTagsConsecutive(Final(Init(), pre), ops);
  }

  /** Every `poll` of a run returns `TIMEOUT` or a tag below the counter at the end of the run. */
  lemma {:induction false} PolledTagsBelowCounter<T>(w: World<T>, ops: seq<Op<T>>)
    requires IsTrace(w, ops)
    ensures forall t :: t in PolledTags(w, ops) ==> t == TIMEOUT || 0 <= t < Final(w, ops).counter
    decreases |ops|
  {
    if ops != [] {
      PolledTagsBelowCounter(Step(w, ops[0]), ops[1..]);
      if ops[0].OpPoll? {
        var p := ops[0].poll;
        assert Poll(w, p).tag == TIMEOUT || 0 <= Poll(w, p).tag < w.counter;
      }
    }
  }

  /**
    From process start, whatever `poll` returns is either `TIMEOUT` or a tag
    that some channel of the run was given, and the two cases cannot be confused.
  */
  lemma PolledTagsWereIssued<T>(ops: seq<Op<T>>)
    requires IsTrace(Init(), ops)
    ensures forall t :: t in PolledTags(Init(), ops) ==>
              (t == TIMEOUT && t !in IssuedTags(Init(), ops)) || (t != TIMEOUT && t in IssuedTags(Init(), ops))
  {
    var tags := IssuedTags(Init(), ops);
    PolledTagsBelowCounter(Init(), ops);
    IssuedTagsConsecutive(Init(), ops);
    forall t | t in PolledTags(Init(), ops)
      ensures (t == TIMEOUT && t !in tags) || (t != TIMEOUT && t in tags)
    {
      if t != TIMEOUT {
        assert tags[t] == t;
      }
    }
  }
}
