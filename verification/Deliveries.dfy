/** my-topic inside the whole system: the books of every partition are in order in every run, and no
    message, however it is delivered, is used for more than one claim. */
module Deliveries {
  import opened Conservation
  import opened Handoff
  import opened Kafka
  import opened Migrations
  import opened Protocol
  import opened Registry

  /** Nothing that was recorded about a partition is ever taken back. */
  predicate Grows(p: Partition, q: Partition) {
    p.log <= q.log && p.fates <= q.fates && p.returned <= q.returned
  }

  predicate AllGrow(a: seq<Partition>, b: seq<Partition>) {
    |a| == |b| && forall i :: 0 <= i < |a| ==> Grows(a[i], b[i])
  }

  lemma OpGrows(parts: seq<Partition>, i: nat, op: Op)
    requires AllAccounted(parts) && i < |parts|
    ensures var next := parts[i := Apply(parts[i], op)]; AllAccounted(next) && AllGrow(parts, next)
  {
    hide Accounted, Apply;
    StepAccounted(parts[i], op);
  }

  lemma CloseGrows(parts: seq<Partition>, node: string)
    requires AllAccounted(parts)
    ensures AllAccounted(Close(parts, node)) && AllGrow(parts, Close(parts, node))
  {
  }

  lemma PollGrows(parts: seq<Partition>, node: string, poll: Poll)
    requires AllAccounted(parts)
    ensures var next := PollOne(parts, node, poll).0; AllAccounted(next) && AllGrow(parts, next)
  {
    hide Fetch, Accounted;
    if poll.FetchedFrom? && poll.partition < |parts| && ReadyFor(parts[poll.partition], node) {
      OpGrows(parts, poll.partition, Fetched(poll.commit));
    }
  }

  lemma GrowsTrans(a: seq<Partition>, b: seq<Partition>, c: seq<Partition>)
    requires AllGrow(a, b) && AllGrow(b, c)
    ensures AllGrow(a, c)
  {
  }

  lemma BuildTopic(s: State, b: BuildStep)
    requires AllAccounted(s.topic) && NextBuild(s, b).Some?
    ensures var t := NextBuild(s, b).value; AllAccounted(t.topic) && AllGrow(s.topic, t.topic)
  {
    hide Accounted, RegistryAt, NodeOfEvent;
    if b.Notify? && b.partition < |s.topic| {
      var e := s.events[b.event];
      OpGrows(s.topic, b.partition, Produced(Message(NodeOfEvent(s.registries, e), e.repository)));
    }
  }

  lemma DeployTopic(s: State, d: nat, a: DeployStep)
    requires d < |s.deployers| && d < |s.registries| && AllAccounted(s.topic) && NextDeploy(s, d, a).Some?
    ensures var t := NextDeploy(s, d, a).value; AllAccounted(t.topic) && AllGrow(s.topic, t.topic)
  {
    hide Accounted, KeyOf, CopyOf, CanCreate, CopyKey, EnsureNamespace, PollOne, Close, PollStep;
    match a
    case Rebalance(i) => OpGrows(s.topic, i, Assigned(s.registries[d].node));
    case CloseReader(_) => CloseGrows(s.topic, s.registries[d].node);
    case PollTopic(poll) => PollTopicGrows(s, d, poll);
    case _ =>
  }

  lemma PollTopicGrows(s: State, d: nat, poll: Poll)
    requires d < |s.deployers| && d < |s.registries| && AllAccounted(s.topic) && PollStep(s, d, poll).Some?
    ensures var t := PollStep(s, d, poll).value; AllAccounted(t.topic) && AllGrow(s.topic, t.topic)
  {
    hide PollOne, Close, AllAccounted, AllGrow;
    var node := s.registries[d].node;
    PollGrows(s.topic, node, poll);
    var next := PollOne(s.topic, node, poll).0;
    CloseGrows(next, node);
    GrowsTrans(s.topic, next, Close(next, node));
  }

  lemma StepTopic(s: State, step: Step)
    requires AllAccounted(s.topic) && Next(s, step).Some?
    ensures var t := Next(s, step).value; AllAccounted(t.topic) && AllGrow(s.topic, t.topic)
  {
    hide Accounted, NextBuild, NextDeploy;
    match step
    case Build(b) => BuildTopic(s, b);
    case Deploy(d, a) => DeployTopic(s, d, a);
    case Reconcile(r) => ReconcileFrame(s, r);
    case OfCluster(c) =>
  }

  lemma {:induction false} RunTopic(s: State, steps: seq<Step>)
    requires AllAccounted(s.topic) && Run(s, steps).Some?
    ensures var t := Run(s, steps).value; AllAccounted(t.topic) && AllGrow(s.topic, t.topic)
    decreases steps
  {
    hide AllAccounted, Next;
    if steps != [] {
      var next := Next(s, steps[0]).value;
      StepTopic(s, steps[0]);
      RunTopic(next, steps[1..]);
      GrowsTrans(s.topic, next.topic, Run(s, steps).value.topic);
    }
  }

  /** Kafka accounting for the system as a whole, in every run with any number of deployers, rebalances
      and failed commits: each partition keeps its books, so no offset is ever returned twice, and
      what happens later leaves the fates of earlier offsets as they are. */
  lemma EveryPartitionAccounted(s: State, before: seq<Step>, after: seq<Step>)
    requires Init(s) && Run(s, before).Some? && Run(Run(s, before).value, after).Some?
    ensures var t := Run(s, before).value; var u := Run(t, after).value;
            AllAccounted(t.topic) && AllAccounted(u.topic) && AllGrow(t.topic, u.topic)
  {
    RunTopic(s, before);
    RunTopic(Run(s, before).value, after);
  }

  // ---------------------------------------------------------------- messages and claims

  /** Messages about the pod that an entry of this key belongs to. */
  function About(key: string): MessageKind {
    (m: Message) => KeyOf(m) == key
  }

  /** Messages a deployer has been given and has not come to yet. */
  function Waiting(phase: Phase): seq<Message> {
    if phase.Resting? then [] else if phase.Consuming? then phase.list else phase.rest
  }

  function InHand(deployers: seq<Phase>, kind: MessageKind): nat {
    if deployers == [] then 0
    else InHand(deployers[..|deployers| - 1], kind) + CountIn(Waiting(deployers[|deployers| - 1]), kind)
  }

  /** Every claim has used up a message of its own that was delivered. */
  predicate Paid(s: State, key: string) {
    Tally(s.history, Claims, key) + InHand(s.deployers, About(key)) <= Delivered(s.topic, About(key))
  }

  lemma {:induction false} InHandUpdate(deployers: seq<Phase>, d: nat, phase: Phase, kind: MessageKind)
    requires d < |deployers|
    ensures InHand(deployers[d := phase], kind) ==
              InHand(deployers, kind) - CountIn(Waiting(deployers[d]), kind) + CountIn(Waiting(phase), kind)
  {
    var n := |deployers| - 1;
    if d < n {
      InHandUpdate(deployers[..n], d, phase, kind);
      assert deployers[d := phase][..n] == deployers[..n][d := phase];
    } else {
      assert deployers[d := phase][..n] == deployers[..n];
    }
  }

  lemma {:induction false} CountSnoc(list: seq<Message>, m: Message, kind: MessageKind)
    ensures CountIn(list + [m], kind) == CountIn(list, kind) + if kind(m) then 1 else 0
  {
    if list == [] {
      assert [m][1..] == [];
    } else {
      assert (list + [m])[1..] == list[1..] + [m];
      CountSnoc(list[1..], m, kind);
    }
  }

  lemma {:induction false} CountAtGrows(log: seq<Message>, more: seq<Message>, offsets: seq<nat>, kind: MessageKind)
    requires log <= more
    ensures CountAt(log, offsets, kind) <= CountAt(more, offsets, kind)
  {
    if offsets != [] { CountAtGrows(log, more, offsets[..|offsets| - 1], kind); }
  }

  lemma {:induction false} DeliveredGrows(a: seq<Partition>, b: seq<Partition>, kind: MessageKind)
    requires |a| == |b|
    requires forall i :: 0 <= i < |a| ==> a[i].log <= b[i].log && a[i].returned == b[i].returned
    ensures Delivered(a, kind) <= Delivered(b, kind)
  {
    if a != [] {
      var n := |a| - 1;
      DeliveredGrows(a[..n], b[..n], kind);
      CountAtGrows(a[n].log, b[n].log, a[n].returned, kind);
    }
  }

  /** Steps other than polls and claims: nothing is given out, nothing is claimed, and a deployer
      that moves keeps its messages or throws them away. */
  lemma QuietPaid(s: State, t: State, d: nat, key: string)
    requires Paid(s, key) && Tally(t.history, Claims, key) == Tally(s.history, Claims, key)
    requires t.deployers == s.deployers || (d < |s.deployers| == |t.deployers|
               && t.deployers == s.deployers[d := t.deployers[d]]
               && (Waiting(t.deployers[d]) == Waiting(s.deployers[d]) || Waiting(t.deployers[d]) == []))
    requires |t.topic| == |s.topic|
    requires forall i :: 0 <= i < |s.topic| ==>
               s.topic[i].log <= t.topic[i].log && s.topic[i].returned == t.topic[i].returned
    ensures Paid(t, key)
  {
    hide Delivered, InHand, Tally, About, Waiting;
    DeliveredGrows(s.topic, t.topic, About(key));
    if t.deployers != s.deployers { InHandUpdate(s.deployers, d, t.deployers[d], About(key)); }
  }

  lemma ReconcilePaid(s: State, r: ReconcileStep, key: string)
    requires Paid(s, key) && NextReconcile(s, r).Some?
    ensures Paid(NextReconcile(s, r).value, key)
  {
    var t := NextReconcile(s, r).value;
    ReconcileClaimsNothing(s, r, key);
    hide NextReconcile;
    QuietPaid(s, t, 0, key);
    hide Paid;
  }

  lemma ReconcileClaimsNothing(s: State, r: ReconcileStep, key: string)
    requires NextReconcile(s, r).Some?
    ensures var t := NextReconcile(s, r).value;
            && Tally(t.history, Claims, key) == Tally(s.history, Claims, key)
            && t.deployers == s.deployers && t.topic == s.topic
  {
    hide Tally, CheckpointStep, ListStep, Fill;
    ReconcileFrame(s, r);
    match r
    case FetchFails => FillClaimsNothing(s, "", InfoOf(ZERO_SPEC, ""), key);
    case StartReconcile(i) =>
      FillClaimsNothing(s, s.migrations[i].podName, InfoOf(s.migrations[i], s.migrations[i].deployment), key);
    case FillNext => FillClaimsNothing(s, s.work.fills[0], InfoOf(s.work.spec, ""), key);
    case _ =>
  }

  lemma FillClaimsNothing(s: State, filled: string, info: MigrationInfo, key: string)
    ensures var t := Fill(s, filled, info);
            && Tally(t.history, Claims, key) == Tally(s.history, Claims, key)
            && t.deployers == s.deployers && t.topic == s.topic
  {
    var over := if filled in s.processing then [Overwritten(filled)] else [];
    if over == [] {
      assert s.history + over == s.history;
    } else {
      TallySnoc(s.history, Overwritten(filled), Claims, key);
    }
    TallySnoc(s.history + over, Filled(filled, info), Claims, key);
  }

  lemma BuildPaid(s: State, b: BuildStep, key: string)
    requires Paid(s, key) && NextBuild(s, b).Some?
    ensures Paid(NextBuild(s, b).value, key)
  {
    hide Paid;
    var t := NextBuild(s, b).value;
    QuietPaid(s, t, 0, key);
  }

  lemma ClusterPaid(s: State, c: ClusterStep, key: string)
    requires Paid(s, key) && NextCluster(s, c).Some?
    ensures Paid(NextCluster(s, c).value, key)
  {
    hide NextCluster, Tally, Paid;
    ClusterFrame(s, c);
    var t := NextCluster(s, c).value;
    if t.history != s.history { TallySnoc(s.history, t.history[|s.history|], Claims, key); }
    QuietPaid(s, t, 0, key);
  }

  lemma DeployPaid(s: State, d: nat, a: DeployStep, key: string)
    requires d < |s.deployers| && d < |s.registries| && AllAccounted(s.topic) && Paid(s, key)
    requires NextDeploy(s, d, a).Some?
    ensures Paid(NextDeploy(s, d, a).value, key)
  {
    hide Paid, AllAccounted, ClaimStep, PollStep;
    match a
    case PollTopic(poll) => PollPaid(s, d, poll, key);
    case Claim => ClaimPaid(s, d, key);
    case _ => MovePaid(s, d, a, key);
  }

  lemma MovePaid(s: State, d: nat, a: DeployStep, key: string)
    requires d < |s.deployers| && d < |s.registries| && Paid(s, key) && NextDeploy(s, d, a).Some?
    requires !a.PollTopic? && !a.Claim?
    ensures Paid(NextDeploy(s, d, a).value, key)
  {
    hide Paid, KeyOf, CopyOf, CanCreate, CopyKey, EnsureNamespace, AppendTo, DeleteMessage, Tally;
    var t := NextDeploy(s, d, a).value;
    if t.history != s.history {
      assert t.history == s.history + [t.history[|s.history|]] && !t.history[|s.history|].Taken?;
      TallySnoc(s.history, t.history[|s.history|], Claims, key);
    }
    QuietPaid(s, t, d, key);
  }

  lemma PollPaid(s: State, d: nat, poll: Poll, key: string)
    requires d < |s.deployers| && d < |s.registries| && Paid(s, key) && PollStep(s, d, poll).Some?
    ensures Paid(PollStep(s, d, poll).value, key)
  {
    var t := PollStep(s, d, poll).value;
    var node := s.registries[d].node;
    var (topic, outcome) := PollOne(s.topic, node, poll);
    PollDelivers(s.topic, node, poll, About(key));
    DeliveredDepends(topic, Close(topic, node), About(key));
    if outcome.Got? { CountSnoc(s.deployers[d].list, outcome.message, About(key)); }
    if !outcome.Nothing? { InHandUpdate(s.deployers, d, t.deployers[d], About(key)); }
    hide PollOne, Close, Delivered, InHand, Tally, About;
  }

  lemma CountFirst(list: seq<Message>, key: string)
    requires list != []
    ensures CountIn(list, About(key)) == CountIn(list[1..], About(key)) + if KeyOf(list[0]) == key then 1 else 0
  {
  }

  /** The message leaves the deployer's hands, and if there is an entry for it, that is a claim. */
  lemma ClaimPaid(s: State, d: nat, key: string)
    requires d < |s.deployers| && Paid(s, key) && ClaimStep(s, d).Some?
    ensures Paid(ClaimStep(s, d).value, key)
  {
    hide KeyOf, Paid;
    var t := ClaimStep(s, d).value;
    var m, rest := s.deployers[d].rest[0], s.deployers[d].rest[1..];
    if KeyOf(m) in s.processing {
      ClaimedPaid(s, t, d, s.processing[KeyOf(m)], m, rest, key);
    } else {
      DroppedPaid(s, t, d, key);
    }
  }

  lemma ClaimedPaid(s: State, t: State, d: nat, info: MigrationInfo, m: Message, rest: seq<Message>, key: string)
    requires d < |s.deployers| && Paid(s, key) && s.deployers[d] == Deploying([m] + rest) && t.topic == s.topic
    requires t.deployers == s.deployers[d := Claimed(info, m, rest)]
    requires t.history == s.history + [Taken(KeyOf(m), info)]
    ensures Paid(t, key)
  {
    hide KeyOf, Delivered, InHand, Tally, About, CountIn;
    assert ([m] + rest)[1..] == rest;
    CountFirst([m] + rest, key);
    InHandUpdate(s.deployers, d, Claimed(info, m, rest), About(key));
    TallySnoc(s.history, Taken(KeyOf(m), info), Claims, key);
  }

  lemma DroppedPaid(s: State, t: State, d: nat, key: string)
    requires d < |s.deployers| && Paid(s, key) && t.topic == s.topic
    requires t.deployers == s.deployers[d := Resting] && t.history == s.history
    ensures Paid(t, key)
  {
    hide Delivered, InHand, Tally, About, CountIn;
    InHandUpdate(s.deployers, d, Resting, About(key));
    NothingWaits(key);
  }

  lemma NothingWaits(key: string)
    ensures CountIn([], About(key)) == 0
  {
  }

  lemma StepPaid(s: State, step: Step, key: string)
    requires AllAccounted(s.topic) && Paid(s, key) && Next(s, step).Some?
    ensures Paid(Next(s, step).value, key)
  {
    hide Paid, AllAccounted, NextReconcile, NextBuild, NextDeploy, NextCluster;
    match step
    case Reconcile(r) => ReconcilePaid(s, r, key);
    case Build(b) => BuildPaid(s, b, key);
    case Deploy(d, a) => DeployPaid(s, d, a, key);
    case OfCluster(c) => ClusterPaid(s, c, key);
  }

  lemma {:induction false} RunPaid(s: State, steps: seq<Step>, key: string)
    requires AllAccounted(s.topic) && Paid(s, key) && Run(s, steps).Some?
    ensures Paid(Run(s, steps).value, key)
    decreases steps
  {
    hide Paid, AllAccounted, Next;
    if steps != [] {
      StepTopic(s, steps[0]);
      StepPaid(s, steps[0], key);
      RunPaid(Next(s, steps[0]).value, steps[1..], key);
    }
  }

  lemma {:induction false} NothingInHand(deployers: seq<Phase>, kind: MessageKind)
    requires forall d :: 0 <= d < |deployers| ==> deployers[d] == Resting
    ensures InHand(deployers, kind) == 0
  {
    if deployers != [] { NothingInHand(deployers[..|deployers| - 1], kind); }
  }

  /** At most once per message: in every run, the copies made for a pod are at most as many as the
      offsets of my-topic that hold a message about it and have been returned, each returned once. */
  lemma EveryCopyHasItsMessage(s: State, steps: seq<Step>, key: string)
    requires Init(s) && Run(s, steps).Some?
    ensures var t := Run(s, steps).value;
            && AllAccounted(t.topic)
            && Tally(t.history, Copies, key) <= Tally(t.history, Claims, key) <= Delivered(t.topic, About(key))
  {
    RunTopic(s, steps);
    NothingInHand(s.deployers, About(key));
    RunPaid(s, steps, key);
    CopiesNeverExceedFills(s, steps, key);
  }
}
