/** handlers/restore: the daemon that deletes the old pod once its copy has been announced. */
module RestoreDaemon {
  import opened Handoff
  import opened Kafka
  import opened Migrations
  import opened Names
  import opened Text
  import opened Wrappers

  /** What one call of the daemon's ConsumeMessage gives its main loop. */
  datatype Announcement = Announcement(newPodName: string, nameSpace: string, nodeName: string) | NoneYet | Panic

  /** One turn of the daemon's consume loop: the fetch fails, or gives a message whose commit, the
      result of which is ignored, does or does not take effect. */
  datatype Turn = FetchFails | Fetches(commits: bool)

  /** How the API server answers the Get and the Delete of one round. */
  datatype Api = Api(get: bool, delete: bool)

  function Decode(m: Message): Announcement {
    var v := DecodeValue(m.value);
    if v.None? then Panic else Announcement(m.key, v.value.0, v.value.1)
  }

  /** The loop leaves at the first message fetched. */
  function Consume(q: DeleteLog, turns: seq<Turn>): (DeleteLog, Announcement)
    decreases turns
  {
    if turns == [] then (q, NoneYet)
    else if turns[0].FetchFails? || q.committed >= |q.log| then Consume(q, turns[1..])
    else (if turns[0].commits then q.(committed := q.committed + 1) else q, Decode(q.log[q.committed]))
  }

  lemma ConsumesNext(q: DeleteLog, commits: bool)
    requires q.committed < |q.log|
    ensures Consume(q, [Fetches(commits)]) ==
              (if commits then q.(committed := q.committed + 1) else q, Decode(q.log[q.committed]))
  {
  }

  /** The pod that an announcement makes the main loop delete. */
  function Victim(a: Announcement): Option<PodKey> {
    if !a.Announcement? || a.newPodName == "" || a.nameSpace == "" || a.nodeName == "" then None
    else Some(PodKey(a.nameSpace, DaemonOldName(a.newPodName)))
  }

  /** The daemon's reading of a message: nothing is deleted unless pod, namespace and node are all given;
      then it is the pod of that namespace whose name is what follows the key's first hyphen. */
  lemma VictimTells(key: string, namespace: string, node: string)
    requires '/' !in namespace
    ensures Victim(Decode(Message(key, namespace + "/" + node))) ==
              if key == "" || namespace == "" || node == "" then None
              else Some(PodKey(namespace, key[Index(key, '-') + 1..]))
    ensures namespace != "" && node != "" ==>
              forall name :: Victim(Decode(Message("checkpoint-" + name, namespace + "/" + node))) ==
                               Some(PodKey(namespace, name))
  {
    ValueRoundTrip(namespace, node);
    hide DecodeValue;
    forall name | namespace != "" && node != ""
      ensures Victim(Decode(Message("checkpoint-" + name, namespace + "/" + node))) == Some(PodKey(namespace, name))
    {
      DecodePrefixed(name);
    }
  }

  function DeleteFrom(pods: map<PodKey, Pod>, victim: Option<PodKey>, api: Api): map<PodKey, Pod> {
    if victim.Some? && api.get && api.delete then pods - {victim.value} else pods
  }

  /** One round of the main loop. */
  function Round(q: DeleteLog, pods: map<PodKey, Pod>, turns: seq<Turn>, api: Api): (DeleteLog, map<PodKey, Pod>,
                 bool) {
    var (next, a) := Consume(q, turns);
    (next, DeleteFrom(pods, Victim(a), api), a.Panic?)
  }

  function Rounds(q: DeleteLog, pods: map<PodKey, Pod>, rounds: seq<(seq<Turn>, Api)>)
    : (DeleteLog, map<PodKey, Pod>, bool)
    decreases rounds
  {
    if rounds == [] then (q, pods, false)
    else
      var (next, left, panicked) := Round(q, pods, rounds[0].0, rounds[0].1);
      if panicked then (next, left, true) else Rounds(next, left, rounds[1..])
  }

  // ---------------------------------------------------------------- how often an announcement is acted upon

  predicate GetsMessage(turns: seq<Turn>) {
    exists t :: 0 <= t < |turns| && turns[t].Fetches?
  }

  /** The commit of the message that these turns get takes effect. */
  predicate TakesEffect(turns: seq<Turn>) {
    exists t :: 0 <= t < |turns| && turns[t] == Fetches(true) && forall u :: 0 <= u < t ==> turns[u].FetchFails?
  }

  lemma LaterTurns(turns: seq<Turn>)
    requires turns != [] && turns[0].FetchFails?
    ensures GetsMessage(turns) <==> GetsMessage(turns[1..])
    ensures TakesEffect(turns) <==> TakesEffect(turns[1..])
  {
    var rest := turns[1..];
    assert forall u :: 0 < u < |turns| ==> turns[u] == rest[u - 1];
    if t :| 0 <= t < |turns| && turns[t].Fetches? { assert rest[t - 1].Fetches?; }
    if t :| 0 <= t < |rest| && rest[t].Fetches? { assert turns[t + 1].Fetches?; }
    if t :| 0 <= t < |turns| && turns[t] == Fetches(true) && forall u :: 0 <= u < t ==> turns[u].FetchFails? {
      assert rest[t - 1] == turns[t] && forall u :: 0 <= u < t - 1 ==> rest[u] == turns[u + 1];
    }
    if t :| 0 <= t < |rest| && rest[t] == Fetches(true) && forall u :: 0 <= u < t ==> rest[u].FetchFails? {
      assert turns[t + 1] == rest[t];
    }
  }

  lemma FirstTurn(turns: seq<Turn>)
    requires turns != [] && turns[0].Fetches?
    ensures GetsMessage(turns) && (TakesEffect(turns) <==> turns[0].commits)
  {
  }

  lemma {:induction false} ConsumeIs(q: DeleteLog, turns: seq<Turn>)
    requires q.committed < |q.log|
    ensures Consume(q, turns).0 == if TakesEffect(turns) then q.(committed := q.committed + 1) else q
    ensures Consume(q, turns).1 == if GetsMessage(turns) then Decode(q.log[q.committed]) else NoneYet
    decreases turns
  {
    if turns == [] {
      assert !TakesEffect(turns) && !GetsMessage(turns);
    } else {
      hide Decode, TakesEffect, GetsMessage;
      if turns[0].FetchFails? {
        LaterTurns(turns);
        ConsumeIs(q, turns[1..]);
      } else {
        FirstTurn(turns);
      }
    }
  }

  lemma {:induction false} RoundsAppend(q: DeleteLog, pods: map<PodKey, Pod>, a: seq<(seq<Turn>, Api)>,
                                        b: seq<(seq<Turn>, Api)>)
    ensures var r := Rounds(q, pods, a); Rounds(q, pods, a + b) == if r.2 then r else Rounds(r.0, r.1, b)
    decreases a
  {
    hide Round;
    if a == [] {
      assert a + b == b;
    } else {
      assert (a + b)[1..] == a[1..] + b;
      var (next, left, _) := Round(q, pods, a[0].0, a[0].1);
      RoundsAppend(next, left, a[1..], b);
    }
  }

  /** Where the daemon stands after some rounds, as long as there is something left to fetch. */
  lemma {:induction false} StaysIff(q: DeleteLog, pods: map<PodKey, Pod>, rounds: seq<(seq<Turn>, Api)>)
    requires !Rounds(q, pods, rounds).2
    ensures var last := Rounds(q, pods, rounds).0;
            && last.log == q.log && q.committed <= last.committed
            && (last.committed < |q.log| ==>
                  (last.committed == q.committed <==> forall x :: 0 <= x < |rounds| ==> !TakesEffect(rounds[x].0)))
    decreases rounds
  {
    hide TakesEffect, Victim, Decode, DeleteFrom;
    if rounds != [] {
      var (next, left, _) := Round(q, pods, rounds[0].0, rounds[0].1);
      if q.committed < |q.log| { ConsumeIs(q, rounds[0].0); } else { NothingLeft(q, rounds[0].0); }
      StaysIff(next, left, rounds[1..]);
      assert forall x :: 0 < x < |rounds| ==> rounds[x] == rounds[1..][x - 1];
      assert forall x :: 0 <= x < |rounds[1..]| ==> rounds[1..][x] == rounds[x + 1];
    }
  }

  /** Round k is reached, and gets the message at offset o. */
  predicate ActsOn(q: DeleteLog, pods: map<PodKey, Pod>, rounds: seq<(seq<Turn>, Api)>, k: nat, o: nat)
    requires k < |rounds|
  {
    var (log, _, panicked) := Rounds(q, pods, rounds[..k]);
    !panicked && log.committed == o < |q.log| && GetsMessage(rounds[k].0)
  }

  /** What such a round does: it deletes the pod that this announcement names. */
  lemma ActsAsAnnounced(q: DeleteLog, pods: map<PodKey, Pod>, rounds: seq<(seq<Turn>, Api)>, k: nat, o: nat)
    requires k < |rounds| && ActsOn(q, pods, rounds, k, o)
    ensures Rounds(q, pods, rounds[..k + 1]).1 ==
              DeleteFrom(Rounds(q, pods, rounds[..k]).1, Victim(Decode(q.log[o])), rounds[k].1)
  {
    hide Victim, Decode, DeleteFrom;
    var (log, left, _) := Rounds(q, pods, rounds[..k]);
    StaysIff(q, pods, rounds[..k]);
    ConsumeIs(log, rounds[k].0);
    RoundsAppend(q, pods, rounds[..k], [rounds[k]]);
    assert rounds[..k + 1] == rounds[..k] + [rounds[k]];
    assert [rounds[k]][1..] == [];
  }

  /** A message without a '/' ends the daemon for good: whatever rounds were to follow, nothing more is
      read or deleted. */
  lemma PanicStops(q: DeleteLog, pods: map<PodKey, Pod>, rounds: seq<(seq<Turn>, Api)>, k: nat, o: nat)
    requires k < |rounds| && ActsOn(q, pods, rounds, k, o) && '/' !in q.log[o].value
    ensures Rounds(q, pods, rounds).2 && Rounds(q, pods, rounds).1 == Rounds(q, pods, rounds[..k]).1
    ensures Rounds(q, pods, rounds).0.committed <= o + 1
  {
    var (log, left, _) := Rounds(q, pods, rounds[..k]);
    StaysIff(q, pods, rounds[..k]);
    ConsumeIs(log, rounds[k].0);
    var rest := [rounds[k]] + rounds[k + 1..];
    assert rounds == rounds[..k] + rest;
    RoundsAppend(q, pods, rounds[..k], rest);
    assert Round(log, left, rounds[k].0, rounds[k].1).2;
  }

  /** ... and nothing else does. */
  lemma {:induction false} PanicsIff(q: DeleteLog, pods: map<PodKey, Pod>, rounds: seq<(seq<Turn>, Api)>, n: nat)
    requires n <= |rounds|
    ensures Rounds(q, pods, rounds[..n]).2 <==>
              exists k: nat, o: nat :: k < n && ActsOn(q, pods, rounds, k, o) && '/' !in q.log[o].value
  {
    hide DeleteFrom, Rounds, ActsOn;
    if n > 0 {
      var k := n - 1;
      PanicsIff(q, pods, rounds, k);
      assert rounds[..n] == rounds[..k] + [rounds[k]];
      RoundsAppend(q, pods, rounds[..k], [rounds[k]]);
      if !Rounds(q, pods, rounds[..k]).2 { LastRoundPanicsIff(q, pods, rounds, k); }
    } else {
      NoRounds(q, pods, rounds);
    }
  }

  lemma NoRounds(q: DeleteLog, pods: map<PodKey, Pod>, rounds: seq<(seq<Turn>, Api)>)
    ensures !Rounds(q, pods, rounds[..0]).2
  {
  }

  lemma LastRoundPanicsIff(q: DeleteLog, pods: map<PodKey, Pod>, rounds: seq<(seq<Turn>, Api)>, k: nat)
    requires k < |rounds| && !Rounds(q, pods, rounds[..k]).2
    ensures var (log, left, _) := Rounds(q, pods, rounds[..k]);
            Rounds(log, left, [rounds[k]]).2 <==>
              exists o: nat :: ActsOn(q, pods, rounds, k, o) && '/' !in q.log[o].value
  {
    hide DeleteFrom;
    var (log, left, _) := Rounds(q, pods, rounds[..k]);
    StaysIff(q, pods, rounds[..k]);
    assert [rounds[k]][1..] == [];
    if log.committed < |log.log| {
      ConsumeIs(log, rounds[k].0);
      assert GetsMessage(rounds[k].0) ==> ActsOn(q, pods, rounds, k, log.committed);
    } else {
      NothingLeft(log, rounds[k].0);
    }
  }

  /** The daemon ignores the result of its commits: in any sequence of rounds, it comes back to the
      announcement at an offset exactly as long as no commit in between takes effect. */
  lemma FetchedAgainIff(q: DeleteLog, pods: map<PodKey, Pod>, rounds: seq<(seq<Turn>, Api)>, i: nat, j: nat, o: nat,
                        later: nat)
    requires i < j < |rounds| && ActsOn(q, pods, rounds, i, o) && ActsOn(q, pods, rounds, j, later)
    ensures o <= later
    ensures o == later <==> forall x :: i <= x < j ==> !TakesEffect(rounds[x].0)
  {
    hide Rounds, TakesEffect, GetsMessage;
    var between := rounds[i..j];
    assert rounds[..j] == rounds[..i] + between;
    RoundsAppend(q, pods, rounds[..i], between);
    var (log, left, _) := Rounds(q, pods, rounds[..i]);
    StaysIff(q, pods, rounds[..i]);
    StaysIff(log, left, between);
    assert forall x :: i <= x < j ==> rounds[x] == between[x - i];
    assert forall x :: 0 <= x < |between| ==> between[x] == rounds[i + x];
  }

  /** If a pod of the deleted one's name is created again, the next round deletes that one, too, exactly
      if the commit did not take effect, or the next announcement names the same pod. */
  lemma DeletesAgainIff(q: DeleteLog, commits: bool, later: bool, pods: map<PodKey, Pod>)
    requires q.committed < |q.log| && Victim(Decode(q.log[q.committed])).Some?
    requires Victim(Decode(q.log[q.committed])).value in pods
    ensures var victim := Victim(Decode(q.log[q.committed]));
            var first := Consume(q, [Fetches(commits)]).0;
            victim.value !in Round(first, pods, [Fetches(later)], Api(true, true)).1 <==>
              !commits || (q.committed + 1 < |q.log| && Victim(Decode(q.log[q.committed + 1])) == victim)
  {
    hide Victim, Decode;
    ConsumesNext(q, commits);
    var first := Consume(q, [Fetches(commits)]).0;
    if first.committed < |first.log| {
      ConsumesNext(first, later);
    } else {
      NothingLeft(first, [Fetches(later)]);
      NoVictim();
    }
  }

  lemma NoVictim()
    ensures Victim(NoneYet).None?
  {
  }

  lemma {:induction false} NothingLeft(q: DeleteLog, turns: seq<Turn>)
    requires q.committed >= |q.log|
    ensures Consume(q, turns) == (q, NoneYet)
    decreases turns
  {
    if turns != [] { NothingLeft(q, turns[1..]); }
  }

  class Queue {
    var q: DeleteLog

    constructor (q: DeleteLog)
      ensures this.q == q
    {
      this.q := q;
    }

    /** handlers/restore/kafka/consumer.go */
    method ConsumeMessage(turns: seq<Turn>) returns (a: Announcement)
      modifies this
      ensures (q, a) == Consume(old(q), turns)
    {
      assert turns[0..] == turns;
      for i := 0 to |turns|
        invariant q == old(q) && Consume(old(q), turns) == Consume(q, turns[i..])
      {
        assert turns[i..][1..] == turns[i + 1..];
        if turns[i].FetchFails? || q.committed >= |q.log| {
          continue;
        }
        var msg := q.log[q.committed];
        if turns[i].commits {
          q := q.(committed := q.committed + 1);
        }
        return Decode(msg);
      }
      a := NoneYet;
    }
  }

  /** handlers/restore/handler/oldpod_deletion.go: a pod that is gone already counts as deleted, and
      so does one whose Delete failed. */
  method DeleteOldPod(cluster: Cluster, nameSpace: string, oldPodName: string, api: Api) returns (clear: bool)
    modifies cluster`pods
    ensures cluster.pods == DeleteFrom(old(cluster.pods), Some(PodKey(nameSpace, oldPodName)), api)
    ensures clear == api.get
  {
    if !api.get {
      return false;
    }
    var key := PodKey(nameSpace, oldPodName);
    if key !in cluster.pods {
      return true;
    }
    if api.delete {
      cluster.pods := cluster.pods - {key};
    }
    clear := true;
  }

  /** handlers/restore/cmd/main.go: the endless loop, for any number of rounds. */
  method Serve(queue: Queue, cluster: Cluster, rounds: seq<(seq<Turn>, Api)>) returns (panicked: bool)
    modifies queue, cluster`pods
    ensures (queue.q, cluster.pods, panicked) == Rounds(old(queue.q), old(cluster.pods), rounds)
  {
    assert rounds[0..] == rounds;
    for i := 0 to |rounds|
      invariant Rounds(old(queue.q), old(cluster.pods), rounds) == Rounds(queue.q, cluster.pods, rounds[i..])
    {
      assert rounds[i..][1..] == rounds[i + 1..];
      var a := queue.ConsumeMessage(rounds[i].0);
      if a.Panic? {
        return true;
      }
      if a.NoneYet? || a.newPodName == "" || a.nameSpace == "" || a.nodeName == "" {
        continue;
      }
      var oldPodName := DaemonOldName(a.newPodName);
      var clear := DeleteOldPod(cluster, a.nameSpace, oldPodName, rounds[i].1);
    }
    panicked := false;
  }
}
