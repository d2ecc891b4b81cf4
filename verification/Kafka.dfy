/** The my-topic side of Kafka and the consume loop of handlers/kafka.go.

    A partition is its log together with the history of what became of each offset below the
    committed one. A commit is cumulative: it covers every offset up to the committed message. */
module Kafka {
  datatype Message = Message(key: string, value: string)

  /** Handed to the reader of a node; committed because key or value is empty; passed over by a
      reader for another node; or committed while the reader was told that the commit failed. */
  datatype Fate = Returned(node: string) | Empty | PassedOver(node: string) | Lost(node: string)

  /** The member of the consumer group a partition is assigned to. */
  datatype Reader = Unassigned | Reading(node: string, position: nat)

  datatype Partition = Partition(log: seq<Message>, fates: seq<Fate>, returned: seq<nat>, reader: Reader) {
    function Committed(): nat { |fates| }
  }

  /** Acked and Refused as reported; AppliedUnacked is an error after the broker took the commit. */
  datatype Commit = Acked | Refused | AppliedUnacked

  datatype Outcome = Nothing | Got(message: Message) | CommitError

  predicate IsEmpty(m: Message) {
    m.key == "" || m.value == ""
  }

  function NewPartition(log: seq<Message>): Partition {
    Partition(log, [], [], Unassigned)
  }

  function Produce(p: Partition, m: Message): Partition {
    p.(log := p.log + [m])
  }

  /** A reader that joins, or a rebalance, starts again at the committed offset. */
  function Assign(p: Partition, node: string): Partition {
    p.(reader := Reading(node, p.Committed()))
  }

  function Release(p: Partition): Partition {
    p.(reader := Unassigned)
  }

  predicate CanFetch(p: Partition) {
    p.reader.Reading? && p.reader.position < |p.log|
  }

  /** What a cumulative commit at position does to the offsets before it. */
  function SkippedFates(log: seq<Message>, from: nat, position: nat, node: string): seq<Fate>
    requires from <= position <= |log|
  {
    seq(position - from, (i: nat) requires i < position - from =>
      if IsEmpty(log[from + i]) then Empty else PassedOver(node))
  }

  function CommitAt(p: Partition, fate: Fate): Partition
    requires CanFetch(p) && p.Committed() <= p.reader.position
  {
    p.(fates := p.fates + SkippedFates(p.log, p.Committed(), p.reader.position, p.reader.node) + [fate],
       returned := if fate.Returned? then p.returned + [p.reader.position] else p.returned)
  }

  function Advance(p: Partition): Partition
    requires CanFetch(p)
  {
    p.(reader := p.reader.(position := p.reader.position + 1))
  }

  /** One FetchMessage with the commit that the loop body makes, if it makes one. A failed commit of
      an own message ends the call, and with it the reader. */
  function Fetch(p: Partition, commit: Commit): (Partition, Outcome)
    requires CanFetch(p) && p.Committed() <= p.reader.position
  {
    var m, node := p.log[p.reader.position], p.reader.node;
    if IsEmpty(m) then
      (if commit == Refused then Advance(p) else Advance(CommitAt(p, Empty)), Nothing)
    else if m.key == node then
      match commit
      case Acked => (Advance(CommitAt(p, Returned(node))), Got(m))
      case Refused => (Release(p), CommitError)
      case AppliedUnacked => (Release(CommitAt(p, Lost(node))), CommitError)
    else (Advance(p), Nothing)
  }

  /** What a reader does with the next message, by its key and value. */
  lemma FetchTells(p: Partition, commit: Commit)
    requires CanFetch(p) && p.Committed() <= p.reader.position
    ensures var m, node := p.log[p.reader.position], p.reader.node;
            var own := m.key == node && m.key != "" && m.value != "";
            var (q, outcome) := Fetch(p, commit);
            && outcome == (if own then if commit == Acked then Got(m) else CommitError else Nothing)
            && q.reader == (if outcome == CommitError then Unassigned else Reading(node, p.reader.position + 1))
            && q.Committed() == (if commit != Refused && (own || m.key == "" || m.value == "")
                                 then p.reader.position + 1 else p.Committed())
            && q.returned == p.returned + (if own && commit == Acked then [p.reader.position] else [])
            && q.log == p.log && p.fates <= q.fates
  {
  }

  /** A reader that joins is given its partitions, and starts in each after the last committed offset. */
  lemma OpenTells(parts: seq<Partition>, node: string, mine: set<nat>, i: nat)
    requires i < |parts|
    ensures |Open(parts, node, mine)| == |parts|
    ensures Open(parts, node, mine)[i] ==
              if i in mine then parts[i].(reader := Reading(node, |parts[i].fates|)) else parts[i]
  {
  }

  /** Only the partitions that the closing reader was assigned lose it. */
  lemma CloseTells(parts: seq<Partition>, node: string, i: nat)
    requires i < |parts|
    ensures |Close(parts, node)| == |parts|
    ensures Close(parts, node)[i] ==
              if parts[i].reader.Reading? && parts[i].reader.node == node then parts[i].(reader := Unassigned)
              else parts[i]
  {
  }

  // ---------------------------------------------------------------- accounting for one partition

  predicate Fits(fate: Fate, m: Message) {
    match fate
    case Empty => IsEmpty(m)
    case PassedOver(node) => !IsEmpty(m) && m.key != node
    case _ => !IsEmpty(m) && m.key == fate.node
  }

  predicate Increasing(s: seq<nat>) {
    forall i, j :: 0 <= i < j < |s| ==> s[i] < s[j]
  }

  /** Every offset below the committed one has exactly one fate, which fits its message; the offsets
      returned are strictly increasing, so none is returned twice, and are exactly those whose fate
      is Returned; whatever was passed over has a later message that is empty or another node's. */
  ghost predicate Accounted(p: Partition) {
    && p.Committed() <= |p.log|
    && (forall o :: 0 <= o < p.Committed() ==> Fits(p.fates[o], p.log[o]))
    && Increasing(p.returned)
    && (forall o :: o in p.returned <==> 0 <= o < p.Committed() && p.fates[o].Returned?)
    && (forall o :: 0 <= o < p.Committed() && p.fates[o].PassedOver? ==> SkippableBelow(p.log, o, p.Committed()))
    && (p.reader.Reading? ==>
          && p.Committed() <= p.reader.position <= |p.log|
          && forall o :: p.Committed() <= o < p.reader.position ==>
               IsEmpty(p.log[o]) || p.log[o].key != p.reader.node)
  }

  /** Some later offset below the bound holds a message a reader for another node would commit. */
  ghost predicate SkippableBelow(log: seq<Message>, o: nat, bound: nat)
    requires o < |log| && bound <= |log|
  {
    exists j :: o < j < bound && Commits(log[j], log[o].key)
  }

  predicate Commits(m: Message, notKey: string) {
    IsEmpty(m) || m.key != notKey
  }

  datatype Op = Produced(message: Message) | Assigned(node: string) | Fetched(commit: Commit) | Released

  function Apply(p: Partition, op: Op): Partition {
    match op
    case Produced(m) => Produce(p, m)
    case Assigned(node) => Assign(p, node)
    case Fetched(commit) =>
      if CanFetch(p) && p.Committed() <= p.reader.position then Fetch(p, commit).0 else p
    case Released => Release(p)
  }

  function ApplyAll(p: Partition, ops: seq<Op>): Partition
    decreases ops
  {
    if ops == [] then p else ApplyAll(Apply(p, ops[0]), ops[1..])
  }

  lemma CommitAccounted(p: Partition, fate: Fate)
    requires Accounted(p) && CanFetch(p)
    requires Fits(fate, p.log[p.reader.position]) && !fate.PassedOver?
    requires fate == Empty || fate.node == p.reader.node
    ensures Accounted(Release(CommitAt(p, fate)))
    ensures CommitAt(p, fate).Committed() == p.reader.position + 1
  {
    var q := CommitAt(p, fate);
    var position, node := p.reader.position, p.reader.node;
    forall i | 0 <= i < |p.returned| ensures p.returned[i] < position {
      assert p.returned[i] in p.returned;
    }
    forall o | 0 <= o < q.Committed()
      ensures Fits(q.fates[o], q.log[o])
      ensures q.fates[o].PassedOver? ==> SkippableBelow(q.log, o, q.Committed())
      ensures o in q.returned <==> q.fates[o].Returned?
    {
      if o < p.Committed() {
        assert q.fates[o] == p.fates[o];
        if q.fates[o].PassedOver? {
          var j :| o < j < p.Committed() && Commits(p.log[j], p.log[o].key);
          assert Commits(q.log[j], q.log[o].key);
        }
      } else if o < position {
        assert q.fates[o] == if IsEmpty(p.log[o]) then Empty else PassedOver(node);
        assert Commits(q.log[position], q.log[o].key) || IsEmpty(p.log[o]);
      }
    }
  }

  lemma FetchAccounted(p: Partition, commit: Commit)
    requires Accounted(p) && CanFetch(p)
    ensures var q := Fetch(p, commit).0;
            Accounted(q) && p.fates <= q.fates && p.returned <= q.returned && p.log == q.log
  {
    var m, node := p.log[p.reader.position], p.reader.node;
    if IsEmpty(m) {
      CommitAccounted(p, Empty);
    } else if m.key == node {
      CommitAccounted(p, Returned(node));
      CommitAccounted(p, Lost(node));
    }
    hide CommitAt;
  }

  /** Kafka accounting: nothing a reader or a producer does breaks it. */
  lemma StepAccounted(p: Partition, op: Op)
    requires Accounted(p)
    ensures Accounted(Apply(p, op))
    ensures p.fates <= Apply(p, op).fates && p.returned <= Apply(p, op).returned && p.log <= Apply(p, op).log
  {
    match op
    case Produced(m) =>
      forall o | 0 <= o < p.Committed() && p.fates[o].PassedOver?
        ensures SkippableBelow(p.log + [m], o, p.Committed())
      {
        var j :| o < j < p.Committed() && Commits(p.log[j], p.log[o].key);
        assert Commits((p.log + [m])[j], (p.log + [m])[o].key);
      }
    case Assigned(node) =>
    case Released =>
    case Fetched(commit) =>
      if CanFetch(p) { FetchAccounted(p, commit); }
  }

  /** ... over any number of calls, readers, rebalances and productions. */
  lemma {:induction false} RunAccounted(p: Partition, ops: seq<Op>)
    requires Accounted(p)
    ensures Accounted(ApplyAll(p, ops))
    ensures p.fates <= ApplyAll(p, ops).fates && p.returned <= ApplyAll(p, ops).returned
    ensures p.log <= ApplyAll(p, ops).log
    decreases ops
  {
    if ops != [] {
      StepAccounted(p, ops[0]);
      RunAccounted(Apply(p, ops[0]), ops[1..]);
    }
  }

  /** If a partition only ever holds one node's messages, none of them empty, no reader of any node
      can make a commit pass over one of them. */
  lemma OneKeyNothingPassedOver(p: Partition, ops: seq<Op>, key: string)
    requires Accounted(p)
    requires var log := ApplyAll(p, ops).log; forall o :: 0 <= o < |log| ==> !Commits(log[o], key)
    ensures forall o :: 0 <= o < ApplyAll(p, ops).Committed() ==> !ApplyAll(p, ops).fates[o].PassedOver?
  {
    RunAccounted(p, ops);
    var q := ApplyAll(p, ops);
    assert forall j :: 0 <= j < |q.log| ==> !Commits(q.log[j], key) && q.log[j].key == key;
  }

  predicate IsConsumer(ops: seq<Op>) {
    forall i :: 0 <= i < |ops| ==> !ops[i].Produced?
  }

  /** Exactly which messages of a log readers can lose to a cumulative commit. */
  lemma PassedOverIff(log: seq<Message>, o: nat)
    requires o < |log|
    ensures (exists ops :: IsConsumer(ops) && o < ApplyAll(NewPartition(log), ops).Committed()
                           && ApplyAll(NewPartition(log), ops).fates[o].PassedOver?)
            <==> !IsEmpty(log[o]) && SkippableBelow(log, o, |log|)
  {
    hide ApplyAll, IsConsumer, SkippableBelow;
    if ops :| IsConsumer(ops) && o < ApplyAll(NewPartition(log), ops).Committed()
              && ApplyAll(NewPartition(log), ops).fates[o].PassedOver? {
      PassedOverIsSkippable(log, o, ops);
    }
    if !IsEmpty(log[o]) && SkippableBelow(log, o, |log|) {
      var ops := SkippableIsPassedOver(log, o);
    }
  }

  lemma PassedOverIsSkippable(log: seq<Message>, o: nat, ops: seq<Op>)
    requires IsConsumer(ops) && o < |log| && o < ApplyAll(NewPartition(log), ops).Committed()
    requires ApplyAll(NewPartition(log), ops).fates[o].PassedOver?
    ensures !IsEmpty(log[o]) && SkippableBelow(log, o, |log|)
  {
    hide ApplyAll, IsConsumer, IsEmpty, Increasing;
    var blank := NewPartition(log);
    RunAccounted(blank, ops);
    ConsumersKeepLog(blank, ops);
    var j :| o < j < ApplyAll(blank, ops).Committed() && Commits(log[j], log[o].key);
  }

  lemma SkippableIsPassedOver(log: seq<Message>, o: nat) returns (ops: seq<Op>)
    requires o < |log| && !IsEmpty(log[o]) && SkippableBelow(log, o, |log|)
    ensures IsConsumer(ops) && o < ApplyAll(NewPartition(log), ops).Committed()
    ensures ApplyAll(NewPartition(log), ops).fates[o].PassedOver?
  {
    hide Apply;
    var j :| o < j < |log| && Commits(log[j], log[o].key);
    var node := if IsEmpty(log[j]) then log[o].key + "x" else log[j].key;
    assert node != log[o].key by { assert |log[o].key + "x"| == |log[o].key| + 1; }
    var fetches := seq(j + 1, _ => Fetched(Acked));
    ops := [Assigned(node)] + fetches;
    SessionPassesOver(log, node, j + 1);
    AssignFirst(NewPartition(log), node, fetches);
    assert forall i :: 0 <= i < |fetches| ==> fetches[i] == Fetched(Acked);
  }

  lemma AssignFirst(p: Partition, node: string, ops: seq<Op>)
    ensures ApplyAll(p, [Assigned(node)] + ops) == ApplyAll(Assign(p, node), ops)
  {
    assert ([Assigned(node)] + ops)[1..] == ops;
  }

  lemma {:induction false} ConsumersKeepLog(p: Partition, ops: seq<Op>)
    requires IsConsumer(ops)
    ensures ApplyAll(p, ops).log == p.log
    decreases ops
  {
    if ops != [] { ConsumersKeepLog(Apply(p, ops[0]), ops[1..]); }
  }

  lemma {:induction false} ApplyAllSnoc(p: Partition, ops: seq<Op>, op: Op)
    ensures ApplyAll(p, ops + [op]) == Apply(ApplyAll(p, ops), op)
    decreases ops
  {
    if ops == [] {
      assert [op][1..] == [];
    } else {
      assert (ops + [op])[1..] == ops[1..] + [op];
      ApplyAllSnoc(Apply(p, ops[0]), ops[1..], op);
    }
  }

  /** One undisturbed reader for node: after n fetches everything up to the last message it commits
      is settled, its own returned, the empty ones committed, all others passed over. */
  lemma {:induction false} SessionPassesOver(log: seq<Message>, node: string, n: nat)
    requires n <= |log|
    ensures var p := ApplyAll(Assign(NewPartition(log), node), seq(n, _ => Fetched(Acked)));
            Settled(log, node, p) && p.reader.position == n
  {
    var start := Assign(NewPartition(log), node);
    if n > 0 {
      SessionPassesOver(log, node, n - 1);
      var before := seq(n - 1, _ => Fetched(Acked));
      assert seq(n, _ => Fetched(Acked)) == before + [Fetched(Acked)];
      ApplyAllSnoc(start, before, Fetched(Acked));
      SessionStep(log, node, ApplyAll(start, before));
      hide ApplyAll, Apply;
    }
  }

  /** What an undisturbed reader has done with the offsets it has fetched. */
  predicate Settled(log: seq<Message>, node: string, p: Partition) {
    && p.log == log && p.reader.Reading? && p.reader.node == node && p.Committed() <= p.reader.position <= |log|
    && (forall o :: 0 <= o < p.Committed() && !IsEmpty(log[o]) && log[o].key != node ==> p.fates[o] == PassedOver(node))
    && (forall o :: 0 <= o < p.reader.position && (IsEmpty(log[o]) || log[o].key == node) ==> o < p.Committed())
  }

  lemma SessionStep(log: seq<Message>, node: string, p: Partition)
    requires Settled(log, node, p) && p.reader.position < |log|
    ensures var q := Apply(p, Fetched(Acked)); Settled(log, node, q) && q.reader.position == p.reader.position + 1
  {
  }

  // ---------------------------------------------------------------- the consume loop

  /** One turn of the loop that does not end it: FetchMessage failed, or gave the next message of an
      assigned partition. */
  datatype Poll = FetchFailed | FetchedFrom(partition: nat, commit: Commit)

  /** One turn over all partitions; Nothing if the partition has no message for this reader. */
  function PollOne(parts: seq<Partition>, node: string, poll: Poll): (seq<Partition>, Outcome) {
    match poll
    case FetchFailed => (parts, Nothing)
    case FetchedFrom(i, commit) =>
      if i < |parts| && ReadyFor(parts[i], node) then
        var (p, outcome) := Fetch(parts[i], commit);
        (parts[i := p], outcome)
      else (parts, Nothing)
  }

  predicate ReadyFor(p: Partition, node: string) {
    CanFetch(p) && p.reader.node == node && p.Committed() <= p.reader.position
  }

  function PollAll(parts: seq<Partition>, node: string, polls: seq<Poll>): (seq<Partition>, seq<Message>, bool)
    decreases polls
  {
    if polls == [] then (parts, [], false)
    else
      var (next, outcome) := PollOne(parts, node, polls[0]);
      if outcome.CommitError? then (next, [], true)
      else
        var (last, rest, failed) := PollAll(next, node, polls[1..]);
        (last, (if outcome.Got? then [outcome.message] else []) + rest, failed)
  }

  /** The next message that poll i gets, after the polls before it, is one for this node, and its commit
      is not acknowledged. */
  predicate RefusedAt(parts: seq<Partition>, node: string, polls: seq<Poll>, i: nat)
    requires i < |polls|
  {
    && polls[i].FetchedFrom? && polls[i].commit != Acked
    && (var now := PollAll(parts, node, polls[..i]).0;
        var n := polls[i].partition;
        n < |now| && ReadyFor(now[n], node) && IsOwn(now[n].log[now[n].reader.position], node))
  }

  predicate IsOwn(m: Message, node: string) {
    !IsEmpty(m) && m.key == node
  }

  /** A call ends with a commit error exactly when one of its polls meets an own message whose commit is
      refused, or taken without an acknowledgement. Empty and foreign messages never end it. */
  lemma {:induction false} CommitFailsIff(parts: seq<Partition>, node: string, polls: seq<Poll>)
    ensures PollAll(parts, node, polls).2 <==> exists i: nat :: i < |polls| && RefusedAt(parts, node, polls, i)
    decreases polls
  {
    if polls != [] {
      var (next, outcome) := PollOne(parts, node, polls[0]);
      assert polls[..0] == [] && PollAll(parts, node, []) == (parts, [], false);
      assert RefusedAt(parts, node, polls, 0) <==> outcome.CommitError?;
      hide PollOne, ReadyFor, IsOwn;
      if !outcome.CommitError? {
        CommitFailsIff(next, node, polls[1..]);
        forall i: nat | i < |polls[1..]|
          ensures RefusedAt(next, node, polls[1..], i) <==> RefusedAt(parts, node, polls, i + 1)
        {
          assert polls[..i + 1][0] == polls[0] && polls[..i + 1][1..] == polls[1..][..i];
        }
        if i: nat :| 0 < i < |polls| && RefusedAt(parts, node, polls, i) {
          assert RefusedAt(next, node, polls[1..], i - 1);
        }
        if i: nat :| i < |polls[1..]| && RefusedAt(next, node, polls[1..], i) {
          assert RefusedAt(parts, node, polls, i + 1);
        }
      }
    }
  }

  function Open(parts: seq<Partition>, node: string, mine: set<nat>): seq<Partition> {
    seq(|parts|, (i: nat) requires i < |parts| => if i in mine then Assign(parts[i], node) else parts[i])
  }

  function Close(parts: seq<Partition>, node: string): seq<Partition> {
    seq(|parts|, (i: nat) requires i < |parts| =>
      if parts[i].reader.Reading? && parts[i].reader.node == node then Release(parts[i]) else parts[i])
  }

  class Topic {
    var partitions: seq<Partition>

    constructor (count: nat)
      ensures partitions == seq(count, _ => NewPartition([]))
    {
      partitions := seq(count, _ => NewPartition([]));
    }

    /** testwebhook/kafkaproducer: ProduceMessage; the balancer chooses the partition. */
    method ProduceMessage(key: string, value: string, i: nat)
      requires i < |partitions|
      modifies this
      ensures partitions == old(partitions)[i := Produce(old(partitions)[i], Message(key, value))]
    {
      partitions := partitions[i := Produce(partitions[i], Message(key, value))];
    }

    /** handlers/kafka.go: ConsumeMessage. polls are the turns until the ten seconds are over; the end
        is noticed by the select (an error) or inside FetchMessage (no error). */
    method ConsumeMessage(nodeName: string, mine: set<nat>, polls: seq<Poll>, endInSelect: bool)
      returns (messageList: seq<Message>, failed: bool)
      modifies this
      ensures var joined := Open(old(partitions), nodeName, mine);
              var (last, list, commitFailed) := PollAll(joined, nodeName, polls);
              && partitions == Close(last, nodeName)
              && messageList == list
              && failed == (commitFailed || endInSelect)
    {
      hide PollOne, Close;
      partitions := Open(partitions, nodeName, mine);
      ghost var joined := partitions;
      messageList := [];
      assert polls[0..] == polls;
      for i := 0 to |polls|
        invariant var (last, list, commitFailed) := PollAll(joined, nodeName, polls);
                  var (last', list', failed') := PollAll(partitions, nodeName, polls[i..]);
                  last == last' && list == messageList + list' && commitFailed == failed'
      {
        assert polls[i..][1..] == polls[i + 1..];
        var (next, outcome) := PollOne(partitions, nodeName, polls[i]);
        partitions := next;
        match outcome {
          case Nothing =>
          case Got(message) => messageList := messageList + [message];
          case CommitError =>
            partitions := Close(partitions, nodeName);
            return messageList, true;
        }
      }
      partitions := Close(partitions, nodeName);
      failed := endInSelect;
    }
  }

  // ---------------------------------------------------------------- accounting for whole calls

  ghost predicate AllAccounted(parts: seq<Partition>) {
    forall i :: 0 <= i < |parts| ==> Accounted(parts[i])
  }

  /** A kind of message that is being counted: one message, or all that name one pod. */
  type MessageKind = Message -> bool

  /** How many of the given offsets hold a message of the kind. */
  function CountAt(log: seq<Message>, offsets: seq<nat>, kind: MessageKind): nat {
    if offsets == [] then 0
    else
      var o := offsets[|offsets| - 1];
      CountAt(log, offsets[..|offsets| - 1], kind) + (if o < |log| && kind(log[o]) then 1 else 0)
  }

  /** How many messages of the kind stand at offsets ever returned from any partition. */
  function Delivered(parts: seq<Partition>, kind: MessageKind): nat {
    if parts == [] then 0
    else Delivered(parts[..|parts| - 1], kind) + CountAt(parts[|parts| - 1].log, parts[|parts| - 1].returned, kind)
  }

  function CountGot(outcome: Outcome, kind: MessageKind): nat {
    if outcome.Got? && kind(outcome.message) then 1 else 0
  }

  function CountIn(list: seq<Message>, kind: MessageKind): nat {
    if list == [] then 0 else (if kind(list[0]) then 1 else 0) + CountIn(list[1..], kind)
  }

  lemma {:induction false} DeliveredUpdate(parts: seq<Partition>, i: nat, p: Partition, kind: MessageKind)
    requires i < |parts|
    ensures Delivered(parts[i := p], kind) ==
              Delivered(parts, kind) + CountAt(p.log, p.returned, kind) - CountAt(parts[i].log, parts[i].returned, kind)
  {
    var n := |parts| - 1;
    if i < n {
      DeliveredUpdate(parts[..n], i, p, kind);
      assert parts[i := p][..n] == parts[..n][i := p];
    } else {
      assert parts[i := p][..n] == parts[..n];
    }
  }

  lemma FetchDelivers(p: Partition, commit: Commit, kind: MessageKind)
    requires CanFetch(p) && p.Committed() <= p.reader.position
    ensures var (q, outcome) := Fetch(p, commit);
            && (outcome.Got? ==> outcome.message.key == p.reader.node && outcome.message.value != "")
            && CountAt(q.log, q.returned, kind) == CountAt(p.log, p.returned, kind) + CountGot(outcome, kind)
  {
  }

  lemma PollAccounted(parts: seq<Partition>, node: string, poll: Poll)
    requires AllAccounted(parts)
    ensures var (next, outcome) := PollOne(parts, node, poll);
            AllAccounted(next) && |next| == |parts|
  {
    hide Fetch, Accounted;
    if poll.FetchedFrom? && poll.partition < |parts| && ReadyFor(parts[poll.partition], node) {
      FetchAccounted(parts[poll.partition], poll.commit);
    }
  }

  lemma PollDelivers(parts: seq<Partition>, node: string, poll: Poll, kind: MessageKind)
    ensures var (next, outcome) := PollOne(parts, node, poll);
            && (outcome.Got? ==> outcome.message.key == node && outcome.message.value != "")
            && Delivered(next, kind) == Delivered(parts, kind) + CountGot(outcome, kind)
  {
    hide Fetch, CountAt, Delivered;
    if poll.FetchedFrom? && poll.partition < |parts| && ReadyFor(parts[poll.partition], node) {
      var i := poll.partition;
      FetchDelivers(parts[i], poll.commit, kind);
      DeliveredUpdate(parts, i, Fetch(parts[i], poll.commit).0, kind);
    }
  }

  lemma {:induction false} PollAllDelivers(parts: seq<Partition>, node: string, polls: seq<Poll>, kind: MessageKind)
    requires AllAccounted(parts)
    ensures var (last, list, _) := PollAll(parts, node, polls);
            && AllAccounted(last) && |last| == |parts|
            && (forall m :: m in list ==> m.key == node && m.value != "")
            && Delivered(last, kind) == Delivered(parts, kind) + CountIn(list, kind)
    decreases polls
  {
    if polls != [] {
      PollAccounted(parts, node, polls[0]);
      PollDelivers(parts, node, polls[0], kind);
      var (next, outcome) := PollOne(parts, node, polls[0]);
      if !outcome.CommitError? {
        PollAllDelivers(next, node, polls[1..], kind);
        var rest := PollAll(next, node, polls[1..]).1;
        var list := (if outcome.Got? then [outcome.message] else []) + rest;
        assert outcome.Got? ==> list[1..] == rest;
        assert !outcome.Got? ==> list == rest;
        hide PollOne, Delivered, AllAccounted;
        assert CountIn(list, kind) == CountGot(outcome, kind) + CountIn(rest, kind);
      }
    }
  }

  /** The messages at the given offsets. */
  function AtOffsets(log: seq<Message>, offsets: seq<nat>): seq<Message>
    requires forall i :: 0 <= i < |offsets| ==> offsets[i] < |log|
  {
    seq(|offsets|, (i: nat) requires i < |offsets| => log[offsets[i]])
  }

  /** What a call gets from a partition that is the only one of its topic: the messages at the offsets
      newly recorded as returned, in the order of the log. */
  lemma {:induction false} ReturnedInOrder(p: Partition, node: string, polls: seq<Poll>) returns (offsets: seq<nat>)
    requires Accounted(p)
    ensures var (last, list, _) := PollAll([p], node, polls);
            && |last| == 1 && last[0].log == p.log && last[0].returned == p.returned + offsets
            && Increasing(last[0].returned)
            && (forall i :: 0 <= i < |offsets| ==> offsets[i] < |p.log|) && list == AtOffsets(p.log, offsets)
    decreases polls
  {
    hide Fetch, Accounted, AllAccounted;
    if polls == [] {
      offsets := [];
      AccountedIncreasing(p);
    } else {
      var (next, outcome) := PollOne([p], node, polls[0]);
      OnePoll(p, node, polls[0]);
      var head: seq<nat> := if outcome.Got? then [p.reader.position] else [];
      if outcome.CommitError? {
        offsets := [];
        AccountedIncreasing(next[0]);
      } else {
        assert next == [next[0]];
        var rest := ReturnedInOrder(next[0], node, polls[1..]);
        offsets := head + rest;
        assert p.returned + offsets == (p.returned + head) + rest;
      }
    }
  }

  lemma AccountedIncreasing(p: Partition)
    requires Accounted(p)
    ensures Increasing(p.returned)
  {
  }

  lemma OnePoll(p: Partition, node: string, poll: Poll)
    requires Accounted(p)
    ensures var (next, outcome) := PollOne([p], node, poll);
            && |next| == 1 && Accounted(next[0]) && next[0].log == p.log
            && (if outcome.Got?
                then p.reader.Reading? && p.reader.position < |p.log| && outcome.message == p.log[p.reader.position]
                     && next[0].returned == p.returned + [p.reader.position]
                else next[0].returned == p.returned)
  {
    hide Fetch, Accounted;
    if poll.FetchedFrom? && poll.partition == 0 && ReadyFor(p, node) {
      FetchTells(p, poll.commit);
      FetchAccounted(p, poll.commit);
    }
  }

  lemma {:induction false} DeliveredDepends(parts: seq<Partition>, others: seq<Partition>, kind: MessageKind)
    requires |parts| == |others|
    requires forall i :: 0 <= i < |parts| ==> parts[i].log == others[i].log && parts[i].returned == others[i].returned
    ensures Delivered(parts, kind) == Delivered(others, kind)
  {
    if parts != [] {
      var n := |parts| - 1;
      DeliveredDepends(parts[..n], others[..n], kind);
    }
  }

  lemma CloseAccounted(parts: seq<Partition>, node: string, kind: MessageKind)
    requires AllAccounted(parts)
    ensures AllAccounted(Close(parts, node)) && Delivered(Close(parts, node), kind) == Delivered(parts, kind)
  {
    forall i | 0 <= i < |parts| ensures Accounted(Close(parts, node)[i]) { StepAccounted(parts[i], Released); }
    DeliveredDepends(parts, Close(parts, node), kind);
  }

  /** A whole ConsumeMessage call keeps the books of every partition, hands out only messages of its
      own node, and hands out each message exactly as often as it is newly recorded as returned. */
  lemma ConsumeAccounted(parts: seq<Partition>, node: string, mine: set<nat>, polls: seq<Poll>, kind: MessageKind)
    requires AllAccounted(parts)
    ensures var (last, list, _) := PollAll(Open(parts, node, mine), node, polls);
            && AllAccounted(Close(last, node))
            && (forall m :: m in list ==> m.key == node && m.value != "")
            && Delivered(Close(last, node), kind) == Delivered(parts, kind) + CountIn(list, kind)
  {
    var joined := Open(parts, node, mine);
    forall i | 0 <= i < |parts| ensures Accounted(joined[i]) { StepAccounted(parts[i], Assigned(node)); }
    DeliveredDepends(parts, joined, kind);
    PollAllDelivers(joined, node, polls, kind);
    CloseAccounted(PollAll(joined, node, polls).0, node, kind);
  }
}
