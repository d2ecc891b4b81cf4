/** util/check_origin_image.go: the job that pulls a pod's original images on the destination node, and
    the loop that waits for it. */
module JobPolling {
  import opened Wrappers

  /** One answer to Get: how many of the job's pods have succeeded, or an error. */
  datatype JobPoll = JobNotFound | PollError | Seen(succeeded: int)

  datatype Waited = Succeeded | TimeExceeded | GaveUp | NoClient

  /** The loop goes on after this answer, if there is time. */
  predicate GoesOn(p: JobPoll) {
    p != PollError && p != Seen(1)
  }

  /** The first answer within the time that ends the loop is the k-th. */
  ghost predicate EndsAt(polls: nat -> JobPoll, k: nat) {
    k < 32 && !GoesOn(polls(k)) && forall j: nat :: j < k ==> GoesOn(polls(j))
  }

  /** CheckJobStatus: at most 32 polls; success exactly when one of them shows one success and no
      earlier one an error other than not found; time is up exactly when none of them decides. */
  method CheckJobStatus(client: bool, polls: nat -> JobPoll) returns (r: Waited, made: nat)
    ensures r == NoClient <==> !client
    ensures made <= 32
    ensures client ==> (r == Succeeded <==> exists k: nat :: EndsAt(polls, k) && polls(k) == Seen(1))
    ensures client ==> (r == GaveUp <==> exists k: nat :: EndsAt(polls, k) && polls(k) == PollError)
    ensures client ==> (r == TimeExceeded <==> forall k: nat :: k < 32 ==> GoesOn(polls(k)))
    ensures r == Succeeded || r == GaveUp ==> made > 0 && EndsAt(polls, made - 1)
    ensures r == TimeExceeded ==> made == 32
  {
    if !client {
      return NoClient, 0;
    }
    var times := 0;
    while true
      invariant 0 <= times <= 30 + 1
      invariant forall j: nat :: j < times ==> GoesOn(polls(j))
      decreases 32 - times
    {
      var job := polls(times);
      if job == PollError {
        assert EndsAt(polls, times);
        return GaveUp, times + 1;
      }
      if job == Seen(1) {
        assert EndsAt(polls, times);
        return Succeeded, times + 1;
      }
      if times > 30 {
        return TimeExceeded, times + 1;
      }
      times := times + 1;
    }
  }

  // ---------------------------------------------------------------- the command

  const SEPARATOR := " && "

  function Pull(imageID: string): string {
    "buildah pull " + imageID
  }

  /** A shell conjunction: it succeeds if every one of the commands does. */
  function Conjunction(commands: seq<string>): string
    requires commands != []
  {
    if |commands| == 1 then commands[0] else commands[0] + SEPARATOR + Conjunction(commands[1..])
  }

  function Pulls(imageIDs: seq<string>): seq<string> {
    seq(|imageIDs|, (i: nat) requires i < |imageIDs| => Pull(imageIDs[i]))
  }

  /** The command of CheckImageIDExistOnNode pulls every image; None stands for the panic of cutting
      four characters off an empty string, which happens exactly when no image is known. */
  method PullCommand(imageIDs: seq<string>) returns (command: Option<string>)
    ensures command.None? <==> imageIDs == []
    ensures imageIDs != [] ==> command == Some(Conjunction(Pulls(imageIDs)))
    ensures |imageIDs| == 1 ==> command == Some("buildah pull " + imageIDs[0])
    ensures |imageIDs| == 2 ==>
              command == Some("buildah pull " + imageIDs[0] + " && " + ("buildah pull " + imageIDs[1]))
  {
    var commandString := "";
    for i := 0 to |imageIDs|
      invariant commandString == Terminated(Pulls(imageIDs)[..i])
    {
      ghost var all := Pulls(imageIDs);
      assert all[..i + 1] == all[..i] + [all[i]];
      TerminatedSnoc(all[..i], all[i]);
      commandString := commandString + ("buildah pull " + imageIDs[i] + " && ");
      assert "buildah pull " + imageIDs[i] + " && " == all[i] + SEPARATOR;
    }
    assert Pulls(imageIDs)[..|imageIDs|] == Pulls(imageIDs);
    TerminatedIs(Pulls(imageIDs));
    if |commandString| < 4 {
      return None;
    }
    command := Some(commandString[..|commandString| - 4]);
  }

  /** Every command followed by the separator. */
  function Terminated(commands: seq<string>): string {
    if commands == [] then "" else commands[0] + SEPARATOR + Terminated(commands[1..])
  }

  lemma {:induction false} TerminatedSnoc(commands: seq<string>, last: string)
    ensures Terminated(commands + [last]) == Terminated(commands) + (last + SEPARATOR)
  {
    if commands == [] {
      assert [last][1..] == [];
      assert Terminated([last]) == last + SEPARATOR + "";
    } else {
      assert (commands + [last])[1..] == commands[1..] + [last];
      TerminatedSnoc(commands[1..], last);
      assert commands[0] + SEPARATOR + (Terminated(commands[1..]) + (last + SEPARATOR))
          == (commands[0] + SEPARATOR + Terminated(commands[1..])) + (last + SEPARATOR);
    }
  }

  lemma {:induction false} TerminatedIs(commands: seq<string>)
    ensures commands != [] ==> Terminated(commands) == Conjunction(commands) + SEPARATOR
  {
    if |commands| > 1 {
      TerminatedIs(commands[1..]);
      assert commands[0] + SEPARATOR + (Conjunction(commands[1..]) + SEPARATOR)
          == (commands[0] + SEPARATOR + Conjunction(commands[1..])) + SEPARATOR;
    } else if commands != [] {
      assert commands[1..] == [];
      assert commands[0] + SEPARATOR + "" == commands[0] + SEPARATOR;
    }
  }
}
