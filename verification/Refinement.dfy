/** The state machine is the code: DeployPodOnNewNode, when nobody interferes, is a run of it, and so
    are its consume loop and a round of the restore daemon. */
module Refinement {
  import opened Handoff
  import opened Kafka
  import opened Migrations
  import opened Protocol
  import opened Reachability
  import opened Registry
  import opened Selection
  import opened Wrappers
  import Reconciler
  import RestoreDaemon

  function SharedBy(s: State): View {
    View(s.processing, s.pods, s.namespaces, s.deletions)
  }

  /** s with another view, another phase of deployer d and another history. */
  predicate DiffersBy(s: State, t: State, d: nat, view: View, phase: Phase)
    requires d < |s.deployers|
  {
    t == s.(processing := view.processing, pods := view.pods, namespaces := view.namespaces,
            deletions := view.deletions, deployers := s.deployers[d := phase], history := t.history)
  }

  lemma Fails(s: State, u: State, d: nat) returns (t: State)
    requires Reaches(s, u)
    requires d < |u.deployers| && d < |u.registries| && (u.deployers[d].Claimed? || u.deployers[d].Prepared?)
    ensures Reaches(s, t) && DiffersBy(u, t, d, SharedBy(u), Resting)
  {
    ReaderNext(u, d, Abandon);
    hide Next, Reaches, KeyOf;
    ReachesOn(s, u, Deploy(d, Abandon));
    t := NextDeploy(u, d, Abandon).value;
  }

  /** One loop body of DeployPodOnNewNode is a run. */
  lemma MessageIsRun(s: State, d: nat, m: Message, rest: seq<Message>, c: Calls) returns (t: State)
    requires d < |s.deployers| && d < |s.registries| && s.deployers[d] == Deploying([m] + rest)
    ensures Reaches(s, t)
    ensures var (view, ok) := DeployMessage(SharedBy(s), s.registries[d], d, s.images, m, c);
            DiffersBy(s, t, d, view, if ok then Deploying(rest) else Resting)
  {
    hide Next, Reaches, DeployClaimed;
    assert ([m] + rest)[1..] == rest;
    ReachesSelf(s);
    ReaderNext(s, d, Claim);
    ReachesOn(s, s, Deploy(d, Claim));
    t := ClaimStep(s, d).value;
    if KeyOf(m) in s.processing {
      var u := t;
      t := ClaimedIsRun(s, u, d, c);
    }
  }

  lemma ClaimedIsRun(s: State, u: State, d: nat, c: Calls) returns (t: State)
    requires Reaches(s, u) && d < |u.deployers| && d < |u.registries| && u.deployers[d].Claimed?
    ensures Reaches(s, t)
    ensures var Claimed(info, m, rest) := u.deployers[d];
            var (view, ok) := DeployClaimed(SharedBy(u), u.registries[d], d, u.images, info, m, c);
            DiffersBy(u, t, d, view, if ok then Deploying(rest) else Resting)
  {
    hide Next, Reaches, EnsureNamespace, DeployPrepared;
    var Claimed(info, m, rest) := u.deployers[d];
    if !c.metrics || EnsureNamespace(u.namespaces, info.destinationNamespace, c.get, c.create).None? {
      t := Fails(s, u, d);
    } else {
      ReaderNext(u, d, Prepare(c.get, c.create));
      ReachesOn(s, u, Deploy(d, Prepare(c.get, c.create)));
      var v := PrepareStep(u, d, c.get, c.create).value;
      t := PreparedIsRun(s, v, d, c);
    }
  }

  lemma PreparedIsRun(s: State, u: State, d: nat, c: Calls) returns (t: State)
    requires Reaches(s, u) && d < |u.deployers| && d < |u.registries| && u.deployers[d].Prepared?
    ensures Reaches(s, t)
    ensures var Prepared(info, m, rest) := u.deployers[d];
            var (view, ok) := DeployPrepared(SharedBy(u), u.registries[d], d, u.images, info, m, c);
            DiffersBy(u, t, d, view, if ok then Deploying(rest) else Resting)
  {
    hide Next, Reaches, KeyOf, CanCreate, CopyOf, CopyKey, DeleteMessage, AppendTo;
    var Prepared(info, m, rest) := u.deployers[d];
    if !c.pod || !CanCreate(u.pods, u.namespaces, CopyKey(info, m)) {
      t := Fails(s, u, d);
    } else {
      ReaderNext(u, d, CreateCopy);
      ReachesOn(s, u, Deploy(d, CreateCopy));
      var v := CopyStep(u, d).value;
      var to := if c.announce.None? || c.announce.value >= |u.deletions| then None else c.announce;
      ReaderNext(v, d, Announce(to));
      ReachesOn(s, v, Deploy(d, Announce(to)));
      t := AnnounceStep(v, d, to).value;
    }
  }

  /** The whole of DeployPodOnNewNode, after its ConsumeMessage: the method of Handoff, which is
      proved equal to DeployBatch, does what some run of the state machine does. */
  lemma {:induction false} BatchIsRun(s: State, d: nat, msgs: seq<Message>, calls: nat -> Calls, n: nat)
    returns (t: State)
    requires d < |s.deployers| && d < |s.registries| && s.deployers[d] == Deploying(msgs)
    ensures Reaches(s, t)
    ensures DiffersBy(s, t, d, DeployBatch(SharedBy(s), s.registries[d], d, s.images, msgs, calls, n).0, Resting)
    decreases msgs
  {
    hide Next, Reaches, DeployMessage;
    if msgs == [] {
      ReachesSelf(s);
      ReaderNext(s, d, EndBatch);
      ReachesOn(s, s, Deploy(d, EndBatch));
      t := NextDeploy(s, d, EndBatch).value;
    } else {
      assert msgs == [msgs[0]] + msgs[1..];
      t := MessageIsRun(s, d, msgs[0], msgs[1..], calls(n));
      var (view, ok) := DeployMessage(SharedBy(s), s.registries[d], d, s.images, msgs[0], calls(n));
      if ok {
        var u := t;
        assert SharedBy(u) == view;
        t := BatchIsRun(u, d, msgs[1..], calls, n + 1);
        ReachesTrans(s, u, t);
        assert t.deployers == s.deployers[d := Resting];
      }
    }
  }

  /** The consume loop of handlers/kafka.go is a run, too; its polls are those of ConsumeMessage. */
  lemma {:induction false} PollsAreRun(s: State, d: nat, polls: seq<Poll>) returns (t: State)
    requires d < |s.deployers| && d < |s.registries| && s.deployers[d].Consuming?
    ensures Reaches(s, t)
    ensures var (last, list, failed) := PollAll(s.topic, s.registries[d].node, polls);
            t == if failed then s.(topic := Close(last, s.registries[d].node), deployers := s.deployers[d := Resting])
                 else s.(topic := last, deployers := s.deployers[d := Consuming(s.deployers[d].list + list)])
    decreases polls
  {
    hide Next, Reaches, PollOne, Close;
    ReachesSelf(s);
    var list := s.deployers[d].list;
    if polls == [] {
      t := s;
      assert list + [] == list && s.deployers[d := s.deployers[d]] == s.deployers;
    } else {
      var outcome := PollOne(s.topic, s.registries[d].node, polls[0]).1;
      ReaderNext(s, d, PollTopic(polls[0]));
      ReachesOn(s, s, Deploy(d, PollTopic(polls[0])));
      t := PollStep(s, d, polls[0]).value;
      if !outcome.CommitError? {
        var u := t;
        var got := if outcome.Got? then [outcome.message] else [];
        assert u.deployers[d].list == list + got;
        t := PollsAreRun(u, d, polls[1..]);
        ReachesTrans(s, u, t);
        var rest := PollAll(u.topic, s.registries[d].node, polls[1..]).1;
        assert (list + got) + rest == list + (got + rest);
        assert t.deployers[d] == s.deployers[d] || t.deployers == s.deployers[d := t.deployers[d]];
      }
    }
  }

  function Reassigned(topic: seq<Partition>, node: string, mine: set<nat>, n: nat): seq<Partition> {
    seq(|topic|, (i: nat) requires i < |topic| => if i in mine && i < n then Assign(topic[i], node) else topic[i])
  }

  /** A reader joins the group: its partitions are assigned to it one by one. */
  lemma {:induction false} JoinIsRun(s: State, d: nat, mine: set<nat>, n: nat) returns (t: State)
    requires d < |s.deployers| && d < |s.registries| && s.deployers[d].Consuming? && n <= |s.topic|
    ensures Reaches(s, t)
    ensures t == s.(topic := Reassigned(s.topic, s.registries[d].node, mine, n))
  {
    hide Next, Reaches, Assign;
    var node := s.registries[d].node;
    if n == 0 {
      ReachesSelf(s);
      t := s;
      assert Reassigned(s.topic, node, mine, 0) == s.topic;
    } else {
      t := JoinIsRun(s, d, mine, n - 1);
      if n - 1 in mine {
        ReaderNext(t, d, Rebalance(n - 1));
        ReachesOn(s, t, Deploy(d, Rebalance(n - 1)));
        t := t.(topic := t.topic[n - 1 := Assign(t.topic[n - 1], node)]);
      }
      assert t.topic == Reassigned(s.topic, node, mine, n);
    }
  }

  /** All of ConsumeMessage is a run, seen from the deployer that calls it: it ends with the batch in
      hand, or, after an error, with nothing. */
  lemma ConsumeIsRun(s: State, d: nat, mine: set<nat>, polls: seq<Poll>, endInSelect: bool) returns (t: State)
    requires d < |s.deployers| && d < |s.registries| && s.deployers[d] == Resting
    ensures Reaches(s, t)
    ensures var node := s.registries[d].node;
            var (last, list, commitFailed) := PollAll(Open(s.topic, node, mine), node, polls);
            t == s.(topic := Close(last, node),
                    deployers := s.deployers[d := if commitFailed || endInSelect then Resting else Deploying(list)])
  {
    hide Next, Reaches, PollAll, Close, Assign;
    var node := s.registries[d].node;
    ReachesSelf(s);
    ReaderNext(s, d, OpenReader);
    ReachesOn(s, s, Deploy(d, OpenReader));
    var u := SetPhase(s, d, Consuming([]));
    var v := JoinIsRun(u, d, mine, |s.topic|);
    ReachesTrans(s, u, v);
    assert v.topic == Open(s.topic, node, mine);
    var w := PollsAreRun(v, d, polls);
    ReachesTrans(s, v, w);
    var (_, list, commitFailed) := PollAll(v.topic, node, polls);
    if commitFailed {
      t := w;
      assert u.deployers[d := Resting] == s.deployers[d := Resting];
    } else {
      assert [] + list == list;
      ReaderNext(w, d, CloseReader(endInSelect));
      ReachesOn(s, w, Deploy(d, CloseReader(endInSelect)));
      t := NextDeploy(w, d, CloseReader(endInSelect)).value;
      assert t.deployers == s.deployers[d := t.deployers[d]];
    }
  }

  /** The registry event handler is a run, too. */
  lemma {:induction false} HandlerIsRun(s: State, events: seq<Event>, sent: nat -> bool, choose: nat -> nat, n: nat)
    returns (t: State)
    requires forall i :: 0 <= i < |events| ==> events[i] in s.events
    ensures Reaches(s, t)
    ensures t == s.(topic := PublishAll(s.topic, s.registries, events, sent, choose, n))
    decreases events
  {
    hide Next, Reaches, NodeOfEvent;
    ReachesSelf(s);
    if events == [] {
      t := s;
    } else {
      var u := s.(topic := Publish(s.topic, s.registries, events[0], sent(n), choose(n)));
      if sent(n) {
        assert events[0] in s.events;
        var e: nat :| e < |s.events| && s.events[e] == events[0];
        BuildNext(s, Notify(e, choose(n)));
        ReachesOn(s, s, Build(Notify(e, choose(n))));
      }
      t := HandlerIsRun(u, events[1..], sent, choose, n + 1);
      ReachesTrans(s, u, t);
    }
  }

  /** A round of the restore daemon's main loop is a run: no step, or one. */
  lemma {:induction false} RoundIsRun(s: State, q: nat, turns: seq<RestoreDaemon.Turn>, api: RestoreDaemon.Api)
    returns (t: State)
    requires q < |s.deletions|
    ensures Reaches(s, t)
    ensures var (log, pods, _) := RestoreDaemon.Round(s.deletions[q], s.pods, turns, api);
            t == s.(deletions := s.deletions[q := log], pods := pods, history := t.history)
    decreases turns
  {
    hide Reaches, Next, RestoreDaemon.Decode, RestoreDaemon.Victim, RestoreDaemon.DeleteFrom;
    if turns != [] && turns[0].Fetches? && s.deletions[q].committed < |s.deletions[q].log| {
      var step := Restore(q, turns[0].commits, api);
      ClusterNext(s, step);
      ReachesSelf(s);
      ReachesOn(s, s, OfCluster(step));
      t := RestoreStep(s, q, turns[0].commits, api).value;
    } else if turns != [] {
      t := RoundIsRun(s, q, turns[1..], api);
    } else {
      NothingDeleted(s.pods, api);
      ReachesSelf(s);
      t := s;
      assert s.deletions[q := s.deletions[q]] == s.deletions;
    }
  }

  lemma NothingDeleted(pods: map<PodKey, Pod>, api: RestoreDaemon.Api)
    ensures RestoreDaemon.DeleteFrom(pods, RestoreDaemon.Victim(RestoreDaemon.NoneYet), api) == pods
  {
  }

  // ---------------------------------------------------------------- the reconciler

  type AnswersAt = nat -> Reconciler.Answers

  /** Every answer is one the world can give, if nobody else touches the pods meanwhile. */
  predicate CanAnswerAll(s: State, spec: MigrationSpec, targets: seq<Reconciler.Target>, answers: AnswersAt,
                         stamps: nat -> string, n: nat) {
    forall k :: 0 <= k < |targets| ==> CanAnswer(s, spec, targets[k], answers(n + k), stamps(n + k))
  }

  lemma {:induction false} JobsOfAppend(a: seq<Reconciler.Effect>, b: seq<Reconciler.Effect>, pods: map<PodKey, Pod>)
    ensures JobsOf(a + b, pods) == JobsOf(a, pods) + JobsOf(b, pods)
  {
    if a == [] {
      assert a + b == b;
    } else {
      assert (a + b)[1..] == a[1..] + b;
      JobsOfAppend(a[1..], b, pods);
    }
  }

  /** The loops of checkpointSinglePod. */
  lemma {:induction false} AttemptsAreRun(s: State, answers: AnswersAt, stamps: nat -> string, n: nat)
    returns (t: State)
    requires s.work.Working? && s.work.fills == []
    requires CanAnswerAll(s, s.work.spec, s.work.targets, answers, stamps, n)
    ensures Reaches(s, t)
    ensures var effects := Reconciler.CheckpointAll(s.work.targets, answers, n, s.work.spec.destinationNode).0;
            t == s.(work := Idle, jobs := s.jobs + JobsOf(effects, s.pods))
    decreases s.work.targets
  {
    hide Next, Reaches, CanAnswer, JobsOf, Reconciler.Attempt;
    ReachesSelf(s);
    var spec, targets := s.work.spec, s.work.targets;
    if targets == [] {
      ReconcileNext(s, EndReconcile);
      ReachesOn(s, s, Reconcile(EndReconcile));
      t := s.(work := Idle);
      NoEffectsNoJobs(s.pods);
    } else {
      var (effects, verdict) := Reconciler.Attempt(targets[0], answers(n), spec.destinationNode);
      assert CanAnswer(s, spec, targets[0], answers(n + 0), stamps(n + 0));
      ReconcileNext(s, Checkpoint(answers(n), stamps(n)));
      ReachesOn(s, s, Reconcile(Checkpoint(answers(n), stamps(n))));
      t := CheckpointStep(s, answers(n), stamps(n)).value;
      if verdict == Reconciler.Proceed {
        var u := t;
        LaterAnswers(s, u, targets, answers, stamps, n);
        t := AttemptsAreRun(u, answers, stamps, n + 1);
        ReachesTrans(s, u, t);
        JobsOfAppend(effects, Reconciler.CheckpointAll(targets[1..], answers, n + 1, spec.destinationNode).0, s.pods);
      }
    }
  }

  lemma NoEffectsNoJobs(pods: map<PodKey, Pod>)
    ensures JobsOf([], pods) == []
  {
  }

  lemma LaterAnswers(s: State, u: State, targets: seq<Reconciler.Target>, answers: AnswersAt, stamps: nat -> string,
      n: nat)
    requires targets != [] && s.work.Working? && CanAnswerAll(s, s.work.spec, targets, answers, stamps, n)
    requires u.pods == s.pods && u.registries == s.registries
    ensures CanAnswerAll(u, s.work.spec, targets[1..], answers, stamps, n + 1)
  {
  }

  /** The fills of deployment mode. */
  lemma {:induction false} FillsAreRun(s: State, items: seq<Listed>) returns (t: State)
    requires s.work.Working? && s.work.fills == NamesOf(items)
    ensures Reaches(s, t)
    ensures t == s.(work := s.work.(fills := []), processing := FillAll(s.processing, items, s.work.spec),
        history := t.history)
    decreases items
  {
    hide Next, Reaches;
    ReachesSelf(s);
    if items == [] {
      t := s;
    } else {
      assert NamesOf(items)[1..] == NamesOf(items[1..]);
      ReconcileNext(s, FillNext);
      ReachesOn(s, s, Reconcile(FillNext));
      var u := FillStep(s).value;
      t := FillsAreRun(u, items[1..]);
      ReachesTrans(s, u, t);
    }
  }

  /** Reconcile of the migration controller, once its spec has been fetched: the method of Reconciler,
      which is proved to make these entries and this trace, does what some run does. */
  lemma FetchedIsRun(s: State, i: nat, listing: Option<seq<Listed>>, answers: AnswersAt, stamps: nat -> string)
    returns (t: State)
    requires s.work.Idle? && i < |s.migrations|
    requires listing.Some? ==> IsListing(s, s.migrations[i], listing.value)
    requires var spec := s.migrations[i];
             listing.Some? && Select(spec, listing.value).Success? ==>
               CanAnswerAll(s, spec, Reconciler.Targets(Select(spec, listing.value).value), answers, stamps, 0)
    ensures Reaches(s, t)
    ensures var spec := s.migrations[i];
            t == s.(processing := Reconciler.Entries(Some(spec), listing, s.processing), history := t.history,
                    jobs := s.jobs + JobsOf(Reconciler.Outcome(spec, listing, answers).0, s.pods))
  {
    hide Next, Reaches, IsListing, CanAnswerAll, Select, FillAll, Reconciler.Targets, Reconciler.CheckpointAll;
    var spec := s.migrations[i];
    ReachesSelf(s);
    ReconcileNext(s, StartReconcile(i));
    ReachesOn(s, s, Reconcile(StartReconcile(i)));
    var u := Start(s, i).value;
    NoEffectsNoJobs(s.pods);
    if listing.None? {
      ReconcileNext(u, EndReconcile);
      ReachesOn(s, u, Reconcile(EndReconcile));
      t := u.(work := Idle);
    } else {
      SameListing(s, u, spec, listing.value, answers, stamps);
      t := ListedIsRun(u, listing.value, answers, stamps);
      ReachesTrans(s, u, t);
    }
  }

  lemma SameListing(s: State, u: State, spec: MigrationSpec, items: seq<Listed>, answers: AnswersAt,
      stamps: nat -> string)
    requires u.pods == s.pods && u.registries == s.registries && IsListing(s, spec, items)
    requires Select(spec, items).Success? ==>
        CanAnswerAll(s, spec, Reconciler.Targets(Select(spec, items).value), answers, stamps, 0)
    ensures IsListing(u, spec, items)
    ensures Select(spec, items).Success? ==> CanAnswerAll(u, spec, Reconciler.Targets(Select(spec, items).value),
        answers, stamps, 0)
  {
  }

  lemma ListedIsRun(s: State, items: seq<Listed>, answers: AnswersAt, stamps: nat -> string) returns (t: State)
    requires s.work.Listing? && IsListing(s, s.work.spec, items)
    requires var spec := s.work.spec;
             Select(spec, items).Success? ==>
                 CanAnswerAll(s, spec, Reconciler.Targets(Select(spec, items).value), answers, stamps, 0)
    ensures Reaches(s, t)
    ensures var spec := s.work.spec;
            t == s.(processing := if ModeOf(spec) == OfDeployment then FillAll(s.processing, items, spec)
                else s.processing,
                    work := Idle, history := t.history,
                    jobs := s.jobs + JobsOf(Reconciler.Outcome(spec, Some(items), answers).0, s.pods))
  {
    hide Next, Reaches, IsListing, FillAll, Reconciler.Targets, Reconciler.CheckpointAll, JobsOf, SelectSpecified,
        SelectByName, WithPrefix;
    var spec := s.work.spec;
    ReachesSelf(s);
    ReconcileNext(s, ListPods(items));
    ReachesOn(s, s, Reconcile(ListPods(items)));
    var u := ListStep(s, items).value;
    NoEffectsNoJobs(s.pods);
    if Select(spec, items).Failure? {
      t := u;
    } else {
      var v := u;
      if ModeOf(spec) == OfDeployment {
        v := FillsAreRun(u, items);
        ReachesTrans(s, u, v);
      }
      CanStillAnswer(s, v, spec, Reconciler.Targets(Select(spec, items).value), answers, stamps);
      t := AttemptsAreRun(v, answers, stamps, 0);
      ReachesTrans(s, v, t);
    }
  }

  lemma CanStillAnswer(s: State, u: State, spec: MigrationSpec, targets: seq<Reconciler.Target>, answers: AnswersAt,
      stamps: nat -> string)
    requires u.pods == s.pods && u.registries == s.registries && CanAnswerAll(s, spec, targets, answers, stamps, 0)
    ensures CanAnswerAll(u, spec, targets, answers, stamps, 0)
  {
  }

  /** ... and when the resource cannot be fetched. */
  lemma UnfetchedIsRun(s: State, listing: Option<seq<Listed>>) returns (t: State)
    requires s.work.Idle?
    ensures Reaches(s, t)
    ensures t == s.(processing := Reconciler.Entries(None, listing, s.processing), history := t.history)
  {
    hide Reaches;
    ReachesSelf(s);
    ReconcileNext(s, FetchFails);
    hide Next;
    ReachesOn(s, s, Reconcile(FetchFails));
    t := Fill(s, "", InfoOf(ZERO_SPEC, ""));
  }
}
