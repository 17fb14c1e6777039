/** The cluster side of a migration: stopping and restoring the workloads
    of every member, waiting for the operator to start the tool on the other
    servers, and polling until the migrated cluster has settled
    (main.go:319-339, 504-557, 568-588). */
module Cluster {
  import opened Common
  import opened Trace

  // Acting on every member (main.go:319-339, 568-588)

  /** The two cluster-wide state changes: stopping all workloads before the
      move, and bringing them back afterwards. */
  datatype Action = Evacuation | Restoration

  function ActionStep(a: Action, member: string): Step {
    match a
    case Evacuation => EvacuateMember(member)
    case Restoration => RestoreMember(member)
  }

  function ActionFailure(a: Action, member: string): Failure {
    match a
    case Evacuation => StopWorkloads(member)
    case Restoration => Restore(member)
  }

  /** The action is attempted on each member in listing order; `accepted`
      says whether both the state change request and the wait on its
      operation succeeded. The first refusal ends the phase. */
  function MemberActions(members: seq<string>, accepted: string -> bool, a: Action): Progress
  {
    if members == [] then Progress([], None)
    else Then(Progress([ActionStep(a, members[0])], if accepted(members[0]) then None else Some(ActionFailure(a, members[0]))),
              MemberActions(members[1..], accepted, a))
  }

  /** Members are acted on in listing order, each one once. */
  lemma {:induction false} MemberActionsSteps(members: seq<string>, accepted: string -> bool, a: Action)
    ensures var r := MemberActions(members, accepted, a);
      |r.steps| <= |members| && forall k :: 0 <= k < |r.steps| ==> r.steps[k] == ActionStep(a, members[k])
    decreases |members|
  {
    if members != [] {
      var rest := members[1..];
      MemberActionsSteps(rest, accepted, a);
      var r := MemberActions(members, accepted, a);
      if accepted(members[0]) {
        assert r.steps == [ActionStep(a, members[0])] + MemberActions(rest, accepted, a).steps;
        forall k | 0 < k < |r.steps| ensures r.steps[k] == ActionStep(a, members[k]) {
          assert members[k] == rest[k - 1];
        }
      }
    }
  }

  /** The phase succeeds exactly when every member accepts, having then
      acted on all of them; a failure names the last member attempted,
      which refused while all before it accepted. */
  lemma {:induction false} MemberActionsOutcome(members: seq<string>, accepted: string -> bool, a: Action)
    ensures var r := MemberActions(members, accepted, a);
      (r.failure.None? <==> forall k :: 0 <= k < |members| ==> accepted(members[k]))
      && (r.failure.None? ==> |r.steps| == |members|)
      && (r.failure.Some? ==> (0 < |r.steps| <= |members|
            && r.failure.value == ActionFailure(a, members[|r.steps| - 1])
            && !accepted(members[|r.steps| - 1])
            && forall k :: 0 <= k < |r.steps| - 1 ==> accepted(members[k])))
    decreases |members|
  {
    if members != [] {
      var rest := members[1..];
      MemberActionsOutcome(rest, accepted, a);
      if accepted(members[0]) {
        forall k | 0 < k < |members| ensures members[k] == rest[k - 1] { }
      }
    }
  }

  /** The phase is a block of its one kind of step. */
  lemma ActionsOrdered(members: seq<string>, accepted: string -> bool, a: Action)
    ensures var r := MemberActions(members, accepted, a);
      Ordered(r.steps) && Within(r.steps, ActionRank(a), ActionRank(a))
  {
    MemberActionsSteps(members, accepted, a);
    var r := MemberActions(members, accepted, a);
    forall k | 0 <= k < |r.steps| ensures Rank(r.steps[k]) == ActionRank(a) {
      assert r.steps[k] == ActionStep(a, members[k]);
    }
  }

  /** A phase that succeeds has acted on every member. */
  lemma EveryMemberActed(members: seq<string>, accepted: string -> bool, a: Action)
    ensures var r := MemberActions(members, accepted, a);
      r.failure.None? ==> forall m :: m in members ==> ActionStep(a, m) in r.steps
  {
    MemberActionsSteps(members, accepted, a);
    MemberActionsOutcome(members, accepted, a);
    var r := MemberActions(members, accepted, a);
    if r.failure.None? {
      forall m | m in members ensures ActionStep(a, m) in r.steps {
        var k :| 0 <= k < |members| && members[k] == m;
        assert r.steps[k] == ActionStep(a, m);
      }
    }
  }

  /** The member loops of main.go:328-338 and main.go:577-587. */
  method ActOnMembers(members: seq<string>, accepted: string -> bool, a: Action)
    returns (p: Progress)
    ensures p == MemberActions(members, accepted, a)
  {
    p := Progress([], None);
    for i := 0 to |members|
      invariant p.failure.None?
      invariant MemberActions(members, accepted, a)
        == Then(p, MemberActions(members[i..], accepted, a))
    {
      var member := members[i];
      assert members[i..][1..] == members[i + 1..];
      var here := Progress([ActionStep(a, member)], if accepted(member) then None else Some(ActionFailure(a, member)));
      ThenAssoc(p, here, MemberActions(members[i + 1..], accepted, a));
      p := Then(p, Progress([ActionStep(a, member)], None));
      if !accepted(member) {
        return Progress(p.steps, Some(ActionFailure(a, member)));
      }
    }
    ThenDone(p);
  }

  /** The rank of the steps of an action. */
  function ActionRank(a: Action): nat {
    if a == Evacuation then 7 else 21
  }

  /** The errors a cluster-wide loop ends the run with: the member list
      could not be fetched, or a member refused the action. */
  predicate ActionFailed(a: Action, f: Failure) {
    f.MemberList? || (a == Evacuation && f.StopWorkloads?) || (a == Restoration && f.Restore?)
  }

  /** main.go:321-338 and main.go:570-587: list the members, then act on
      each in turn. */
  function ClusterActions(listed: Option<seq<string>>, accepted: string -> bool, a: Action): Progress {
    if listed.None? then Progress([], Some(MemberList)) else MemberActions(listed.value, accepted, a)
  }

  /** A member list was returned and every member on it accepts. */
  predicate AllAccept(listed: Option<seq<string>>, accepted: string -> bool) {
    listed.Some? && forall k :: 0 <= k < |listed.value| ==> accepted(listed.value[k])
  }

  /** Every listed member has its step in `steps`. */
  ghost predicate ActedOnAll(listed: Option<seq<string>>, steps: seq<Step>, a: Action) {
    listed.Some? && forall m :: m in listed.value ==> ActionStep(a, m) in steps
  }

  /** Steps once taken stay taken as the run goes on. */
  lemma ActedOnAllExtend(listed: Option<seq<string>>, before: seq<Step>, steps: seq<Step>, after: seq<Step>, a: Action)
    requires ActedOnAll(listed, steps, a)
    ensures ActedOnAll(listed, before + steps + after, a)
  {
    forall m | m in listed.value ensures ActionStep(a, m) in before + steps + after {
      var k :| 0 <= k < |steps| && steps[k] == ActionStep(a, m);
      assert (before + steps + after)[|before| + k] == steps[k];
    }
  }

  /** The cluster-wide loop is a block of its own kind of step; it goes
      through exactly when the members could be listed and all of them
      accept, and every member has then been acted on. */
  lemma ClusterActionsFacts(listed: Option<seq<string>>, accepted: string -> bool, a: Action)
    ensures var r := ClusterActions(listed, accepted, a);
      Ordered(r.steps) && Within(r.steps, ActionRank(a), ActionRank(a))
      && (r.failure.None? <==> AllAccept(listed, accepted))
      && (r.failure.Some? ==> ActionFailed(a, r.failure.value))
      && (r.failure.None? ==> ActedOnAll(listed, r.steps, a))
  {
    if listed.Some? {
      ActionsOrdered(listed.value, accepted, a);
      EveryMemberActed(listed.value, accepted, a);
      MemberActionsSteps(listed.value, accepted, a);
      MemberActionsOutcome(listed.value, accepted, a);
    }
  }

  /** The ordering part of `ClusterActionsFacts` on its own. */
  lemma ClusterActionsOrdered(listed: Option<seq<string>>, accepted: string -> bool, a: Action)
    ensures var r := ClusterActions(listed, accepted, a);
      Ordered(r.steps) && Within(r.steps, ActionRank(a), ActionRank(a))
  {
    if listed.Some? {
      ActionsOrdered(listed.value, accepted, a);
    }
  }

  method ActOnCluster(listed: Option<seq<string>>, accepted: string -> bool, a: Action) returns (p: Progress)
    ensures p == ClusterActions(listed, accepted, a)
  {
    if listed.None? {
      return Progress([], Some(MemberList));
    }
    p := ActOnMembers(listed.value, accepted, a);
  }

  // The convergence poll (main.go:519-557)

  /** A target cluster member as one polling round sees it: its listed
      status and message, and what its own GetServer reports as the server
      name (None when that call fails). */
  datatype Member = Member(name: string, status: string, message: string, server: Option<string>)

  /** One polling round: the member list could not be fetched, or it was. */
  datatype Round = ListFailed | Listed(members: seq<Member>)

  /** main.go:533-546: the member answers as Incus and is either evacuated
      for maintenance or fully operational. */
  predicate Healthy(m: Member) {
    m.server == Some("incus")
    && ((m.status == "Evacuated" && m.message == "Unavailable due to maintenance")
        || (m.status == "Online" && m.message == "Fully operational"))
  }

  /** A round that ends the poll. */
  predicate Converged(r: Round) {
    r.Listed? && forall k :: 0 <= k < |r.members| ==> Healthy(r.members[k])
  }

  /** main.go:531-549: the `ready` flag of one round. */
  method RoundReady(members: seq<Member>) returns (ready: bool)
    ensures ready <==> forall k :: 0 <= k < |members| ==> Healthy(members[k])
  {
    ready := true;
    for i := 0 to |members|
      invariant forall k :: 0 <= k < i ==> Healthy(members[k])
    {
      var member := members[i];
      if member.server.None? || member.server.value != "incus" {
        ready := false;
        break;
      }
      if member.status == "Evacuated" && member.message == "Unavailable due to maintenance" {
        continue;
      }
      if member.status == "Online" && member.message == "Fully operational" {
        continue;
      }
      ready := false;
      break;
    }
  }

  /** `step`, then `rest`. */
  function Prepend(step: Step, rest: Stage): Stage {
    Stage([step] + rest.steps, rest.stop)
  }

  /** main.go:524-557 as a stage: one poll per round until a round
      converges. The loop has no bound; here it runs over the rounds the
      cluster would show, and the run is still waiting when they all pass
      without one that settles. */
  function Polling(rounds: seq<Round>): Stage
    decreases |rounds|
  {
    if rounds == [] then Stage([], Some(StillWaiting))
    else if Converged(rounds[0]) then Stage([PollCluster], None)
    else Prepend(PollCluster, Polling(rounds[1..]))
  }

  /** The poll only polls, once per round at most, and gives up only
      after polling every round. */
  lemma {:induction false} PollingShape(rounds: seq<Round>)
    ensures var r := Polling(rounds);
      r.steps == Repeat(PollCluster, |r.steps|) && |r.steps| <= |rounds|
      && (r.stop.Some? ==> r.stop.value == StillWaiting && |r.steps| == |rounds|)
    decreases |rounds|
  {
    if rounds != [] && !Converged(rounds[0]) {
      PollingShape(rounds[1..]);
      var n := |Polling(rounds[1..]).steps|;
      RepeatCons(PollCluster, n);
    }
  }

  /** The poll settles exactly when some round converges, after one poll per
      round up to the first such round. */
  lemma {:induction false} PollingSettles(rounds: seq<Round>)
    ensures var r := Polling(rounds);
      (r.stop.None? <==> exists k :: 0 <= k < |rounds| && Converged(rounds[k]))
      && (r.stop.None? ==> (0 < |r.steps| <= |rounds| && Converged(rounds[|r.steps| - 1])
            && forall k :: 0 <= k < |r.steps| - 1 ==> !Converged(rounds[k])))
    decreases |rounds|
  {
    if rounds != [] && !Converged(rounds[0]) {
      var rest := rounds[1..];
      PollingSettles(rest);
      assert forall k :: 0 < k < |rounds| ==> rounds[k] == rest[k - 1];
      if Polling(rounds).stop.None? {
        assert exists k :: 0 <= k < |rest| && Converged(rest[k]);
      }
    }
  }

  lemma PollingOrdered(rounds: seq<Round>)
    ensures Ordered(Polling(rounds).steps) && Within(Polling(rounds).steps, 19, 19)
  {
    PollingShape(rounds);
    SameRankOrdered(Polling(rounds).steps, 19);
  }

  /** main.go:524-557: the polling loop. */
  method AwaitConvergence(rounds: seq<Round>) returns (polled: nat, converged: bool)
    ensures Stage(Repeat(PollCluster, polled), if converged then None else Some(StillWaiting)) == Polling(rounds)
  {
    polled := 0;
    while polled < |rounds|
      invariant polled <= |rounds|
      invariant Polling(rounds) == After(Stage(Repeat(PollCluster, polled), None), Polling(rounds[polled..]))
      decreases |rounds| - polled
    {
      var round := rounds[polled];
      var rest := rounds[polled..];
      assert rest[0] == round && rest[1..] == rounds[polled + 1..];
      var ready := false;
      if round.Listed? {
        ready := RoundReady(round.members);
      }
      if ready {
        return polled + 1, true;
      }
      assert Repeat(PollCluster, polled) + ([PollCluster] + Polling(rounds[polled + 1..]).steps)
          == Repeat(PollCluster, polled + 1) + Polling(rounds[polled + 1..]).steps;
      polled := polled + 1;
    }
    assert rounds[polled..] == [];
    assert Repeat(PollCluster, polled) + [] == Repeat(PollCluster, polled);
    return polled, false;
  }

  // Waiting for the operator (main.go:508-515)

  /** One AskBool answer: None when reading it failed. */
  type Answer = Option<bool>

  /** main.go:508-515 as a stage: ask until the operator answers yes; a no
      and a failed read both ask again. */
  function Asking(answers: seq<Answer>): Stage
    decreases |answers|
  {
    if answers == [] then Stage([], Some(StillWaiting))
    else if answers[0] == Some(true) then Stage([AskOthersStarted], None)
    else Prepend(AskOthersStarted, Asking(answers[1..]))
  }

  /** The wait only asks, once per answer at most, and gives up only after
      every answer. */
  lemma {:induction false} AskingShape(answers: seq<Answer>)
    ensures var r := Asking(answers);
      r.steps == Repeat(AskOthersStarted, |r.steps|) && |r.steps| <= |answers|
      && (r.stop.Some? ==> r.stop.value == StillWaiting && |r.steps| == |answers|)
    decreases |answers|
  {
    if answers != [] && answers[0] != Some(true) {
      AskingShape(answers[1..]);
      var n := |Asking(answers[1..]).steps|;
      RepeatCons(AskOthersStarted, n);
    }
  }

  /** The wait ends exactly when some answer is yes, after one question per
      answer up to the first yes. */
  lemma {:induction false} AskingSettles(answers: seq<Answer>)
    ensures var r := Asking(answers);
      (r.stop.None? <==> Some(true) in answers)
      && (r.stop.None? ==> (0 < |r.steps| <= |answers| && answers[|r.steps| - 1] == Some(true)
            && forall k :: 0 <= k < |r.steps| - 1 ==> answers[k] != Some(true)))
    decreases |answers|
  {
    if answers != [] && answers[0] != Some(true) {
      var rest := answers[1..];
      AskingSettles(rest);
      assert forall k :: 0 < k < |answers| ==> answers[k] == rest[k - 1];
      assert Some(true) in answers <==> Some(true) in rest;
    }
  }

  lemma AskingOrdered(answers: seq<Answer>)
    ensures Ordered(Asking(answers).steps) && Within(Asking(answers).steps, 18, 18)
  {
    AskingShape(answers);
    SameRankOrdered(Asking(answers).steps, 18);
  }

  /** main.go:508-515: the confirmation loop. */
  method AwaitOperator(answers: seq<Answer>) returns (asked: nat, confirmed: bool)
    ensures Stage(Repeat(AskOthersStarted, asked), if confirmed then None else Some(StillWaiting)) == Asking(answers)
  {
    asked := 0;
    while asked < |answers|
      invariant asked <= |answers|
      invariant Asking(answers) == After(Stage(Repeat(AskOthersStarted, asked), None), Asking(answers[asked..]))
      decreases |answers| - asked
    {
      var answer := answers[asked];
      var rest := answers[asked..];
      assert rest[0] == answer && rest[1..] == answers[asked + 1..];
      if answer.Some? && answer.value {
        assert Asking(rest) == Stage([AskOthersStarted], None);
        return asked + 1, true;
      }
      assert Asking(rest) == Prepend(AskOthersStarted, Asking(answers[asked + 1..]));
      assert Repeat(AskOthersStarted, asked) + ([AskOthersStarted] + Asking(answers[asked + 1..]).steps)
          == Repeat(AskOthersStarted, asked + 1) + Asking(answers[asked + 1..]).steps;
      asked := asked + 1;
    }
    assert answers[asked..] == [];
    assert Repeat(AskOthersStarted, asked) + [] == Repeat(AskOthersStarted, asked);
    return asked, false;
  }
}
