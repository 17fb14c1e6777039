/** The externally visible actions of a migration run, in the order the
    phase table of `cmdMigrate.Run` performs them. */
module Trace {
  import opened Common

  datatype Step =
    | ConnectSource                         // main.go:129
    | ConnectTarget                         // main.go:143
    | Validate                              // main.go:150
    | ListPools                             // main.go:172-199
    | QueryOvnRemote                        // main.go:249
    | AskProceed                            // main.go:281, 307
    | EvacuateMember(member: string)        // main.go:330
    | StopSource(ok: bool)                  // main.go:344
    | StopTarget(ok: bool)                  // main.go:351
    | Unmount(path: string)                 // main.go:357-359
    | Wipe(path: string)                    // main.go:364-377
    | MoveDir(from: string, to: string)     // main.go:382, 387, 414
    | MakeDir(path: string)                 // main.go:393
    | BindMount(from: string, to: string)   // main.go:398
    | Detach(path: string)                  // main.go:403
    | MigrateDb(path: string)               // main.go:422
    | WritePatch(path: string, contents: string) // main.go:430
    | RunCommand(argv: seq<string>)         // main.go:439
    | RemoveLink(path: string)              // main.go:451, 484
    | RemoveTree(path: string)              // main.go:455
    | CreateLink(target: string, path: string) // main.go:489
    | StartTarget                           // main.go:498
    | AskOthersStarted                      // main.go:509
    | PollCluster                           // main.go:525
    | CheckTarget                           // main.go:562
    | RestoreMember(member: string)         // main.go:579
    | AskUninstall                          // main.go:593
    | Purge                                 // main.go:605

  /** The position of a step's kind in the phase table; a run performs its
      steps in increasing rank. */
  function Rank(s: Step): nat {
    match s
    case ConnectSource => 1
    case ConnectTarget => 2
    case Validate => 3
    case ListPools => 4
    case QueryOvnRemote => 5
    case AskProceed => 6
    case EvacuateMember(_) => 7
    case StopSource(_) => 8
    case StopTarget(_) => 9
    case Unmount(_) => 10
    case Wipe(_) => 11
    case MoveDir(_, _) | MakeDir(_) | BindMount(_, _) | Detach(_) => 12
    case MigrateDb(_) => 13
    case WritePatch(_, _) => 14
    case RunCommand(_) => 15
    case RemoveLink(_) | RemoveTree(_) | CreateLink(_, _) => 16
    case StartTarget => 17
    case AskOthersStarted => 18
    case PollCluster => 19
    case CheckTarget => 20
    case RestoreMember(_) => 21
    case AskUninstall => 22
    case Purge => 23
  }

  /** Every phase is a barrier: no step of a later phase comes before a step
      of an earlier one. */
  ghost predicate Ordered(t: seq<Step>) {
    forall i, j :: 0 <= i < j < |t| ==> Rank(t[i]) <= Rank(t[j])
  }

  ghost predicate Within(t: seq<Step>, lo: nat, hi: nat) {
    forall i :: 0 <= i < |t| ==> lo <= Rank(t[i]) <= hi
  }

  lemma OrderedAppend(a: seq<Step>, b: seq<Step>, lo: nat, mid: nat, hi: nat)
    requires lo <= mid <= hi
    requires Ordered(a) && Within(a, lo, mid)
    requires Ordered(b) && Within(b, mid, hi)
    ensures Ordered(a + b) && Within(a + b, lo, hi)
  {
    forall i | 0 <= i < |a + b| ensures lo <= Rank((a + b)[i]) <= hi {
      if i >= |a| { assert (a + b)[i] == b[i - |a|]; }
    }
    forall i, j | 0 <= i < j < |a + b| ensures Rank((a + b)[i]) <= Rank((a + b)[j]) {
      if j < |a| {
      } else if i < |a| {
        assert Rank((a + b)[i]) <= mid <= Rank((a + b)[j]);
      }
    }
  }

  /** The argv of every command a trace runs, in order. */
  function Ran(t: seq<Step>): seq<seq<string>> {
    if t == [] then []
    else Ran(t[..|t| - 1]) + (if t[|t| - 1].RunCommand? then [t[|t| - 1].argv] else [])
  }

  lemma {:induction false} RanAppend(a: seq<Step>, b: seq<Step>)
    ensures Ran(a + b) == Ran(a) + Ran(b)
    decreases |b|
  {
    if b == [] {
      assert a + b == a;
    } else {
      var c := b[..|b| - 1];
      assert (a + b)[..|a + b| - 1] == a + c;
      RanAppend(a, c);
    }
  }

  /** A part of the run outside the command phase runs no command. */
  lemma {:induction false} RanOutside(t: seq<Step>, lo: nat, hi: nat)
    requires Within(t, lo, hi)
    requires hi < 15 || 15 < lo
    ensures Ran(t) == []
    decreases |t|
  {
    if t != [] {
      RanOutside(t[..|t| - 1], lo, hi);
    }
  }

  /** One RunCommand step per command, in order. */
  function Runs(commands: seq<seq<string>>): (r: seq<Step>)
    ensures |r| == |commands|
    ensures forall k :: 0 <= k < |r| ==> r[k] == RunCommand(commands[k])
  {
    if commands == [] then [] else Runs(commands[..|commands| - 1]) + [RunCommand(commands[|commands| - 1])]
  }

  lemma {:induction false} RanRuns(commands: seq<seq<string>>)
    ensures Ran(Runs(commands)) == commands
    decreases |commands|
  {
    if commands != [] {
      var r := Runs(commands);
      assert r[..|r| - 1] == Runs(commands[..|commands| - 1]);
      RanRuns(commands[..|commands| - 1]);
    }
  }

  /** The same step `n` times, as a retry loop performs it. */
  function Repeat(step: Step, n: nat): (r: seq<Step>)
    ensures |r| == n
    ensures forall k :: 0 <= k < n ==> r[k] == step
  {
    if n == 0 then [] else Repeat(step, n - 1) + [step]
  }

  /** One more repetition in front is one more at the end. */
  lemma RepeatCons(step: Step, n: nat)
    ensures [step] + Repeat(step, n) == Repeat(step, n + 1)
  {
  }

  /** A single step and whether it succeeded. */
  function Attempt(step: Step, ok: bool, failure: Failure): Progress {
    Progress([step], if ok then None else Some(failure))
  }

  /** The steps a part of the run performed, and the failure that ended it. */
  datatype Progress = Progress(steps: seq<Step>, failure: Option<Failure>)

  /** `p` then, unless `p` failed, `q`. */
  function Then(p: Progress, q: Progress): Progress {
    if p.failure.Some? then p else Progress(p.steps + q.steps, q.failure)
  }

  /** Two parts of a run, each in phase order, one after the other. */
  lemma ThenOrdered(p: Progress, q: Progress, lo: nat, mid: nat, hi: nat)
    requires lo <= mid <= hi
    requires Ordered(p.steps) && Within(p.steps, lo, mid)
    requires Ordered(q.steps) && Within(q.steps, mid, hi)
    ensures Ordered(Then(p, q).steps) && Within(Then(p, q).steps, lo, hi)
  {
    OrderedAppend(p.steps, q.steps, lo, mid, hi);
    if p.failure.Some? {
      assert Within(p.steps, lo, hi);
    }
  }

  /** Whatever follows, the steps already taken stay at the front. */
  lemma ThenKeeps(p: Progress, q: Progress)
    ensures p.steps <= Then(p, q).steps
  {
  }

  /** Steps that all share one rank are in phase order. */
  lemma SameRankOrdered(t: seq<Step>, r: nat)
    requires Within(t, r, r)
    ensures Ordered(t)
  {
  }

  lemma ThenWithin(p: Progress, q: Progress, lo: nat, hi: nat)
    requires Within(p.steps, lo, hi) && Within(q.steps, lo, hi)
    ensures Within(Then(p, q).steps, lo, hi)
  {
    if p.failure.None? {
      forall k | 0 <= k < |p.steps + q.steps| ensures lo <= Rank((p.steps + q.steps)[k]) <= hi {
        if k >= |p.steps| { assert (p.steps + q.steps)[k] == q.steps[k - |p.steps|]; }
      }
    }
  }

  lemma ThenAssoc(a: Progress, b: Progress, c: Progress)
    ensures Then(Then(a, b), c) == Then(a, Then(b, c))
  {
    if a.failure.None? && b.failure.None? {
      assert (a.steps + b.steps) + c.steps == a.steps + (b.steps + c.steps);
    }
  }

  lemma ThenDone(a: Progress)
    ensures Then(a, Progress([], None)) == Progress(a.steps, a.failure)
  {
    if a.failure.None? { assert a.steps + [] == a.steps; }
  }

  /** A phase of the whole run: its steps, and the outcome it ended the run
      with, if any. */
  datatype Stage = Stage(steps: seq<Step>, stop: Option<Outcome>)

  /** `p` then, unless `p` ended the run, `q`. */
  function After(p: Stage, q: Stage): Stage {
    if p.stop.Some? then p else Stage(p.steps + q.steps, q.stop)
  }

  /** A part of the run whose failure is returned as the run's error. */
  function Lift(p: Progress): Stage {
    Stage(p.steps, if p.failure.Some? then Some(Failed(p.failure.value)) else None)
  }

  lemma AfterOrdered(p: Stage, q: Stage, lo: nat, mid: nat, hi: nat)
    requires lo <= mid <= hi
    requires Ordered(p.steps) && Within(p.steps, lo, mid)
    requires Ordered(q.steps) && Within(q.steps, mid, hi)
    ensures Ordered(After(p, q).steps) && Within(After(p, q).steps, lo, hi)
  {
    OrderedAppend(p.steps, q.steps, lo, mid, hi);
    if p.stop.Some? {
      assert Within(p.steps, lo, hi);
    }
  }

  /** A step of a composed stage comes from one of its parts, and the second
      part runs only when the first one let the run go on. */
  lemma AfterHas(p: Stage, q: Stage, s: Step)
    ensures s in After(p, q).steps <==> s in p.steps || (p.stop.None? && s in q.steps)
  {
  }

  /** A stage of one step keeps to that step's rank. */
  lemma OneStep(p: Stage, rank: nat)
    requires |p.steps| == 1 && Rank(p.steps[0]) == rank
    ensures Ordered(p.steps) && Within(p.steps, rank, rank)
  {
  }

  /** A single attempted step keeps the phase order at its own rank. */
  lemma AttemptOrdered(step: Step, ok: bool, failure: Failure)
    ensures Ordered(Attempt(step, ok, failure).steps)
    ensures Within(Attempt(step, ok, failure).steps, Rank(step), Rank(step))
  {
  }

  /** A composed stage that let the run go on is both parts, one after the
      other. */
  lemma AfterNone(p: Stage, q: Stage)
    requires After(p, q).stop.None?
    ensures p.stop.None? && q.stop.None? && After(p, q).steps == p.steps + q.steps
  {
  }

  /** A composed stage starts with the steps of its first part. */
  lemma PrefixAfter(p: Stage, q: Stage)
    ensures p.steps <= After(p, q).steps
  {
    if p.stop.None? {
      assert (p.steps + q.steps)[..|p.steps|] == p.steps;
    }
  }

  /** A step whose rank lies outside a trace's range is not in it. */
  lemma NotWithin(t: seq<Step>, lo: nat, hi: nat, s: Step)
    requires Within(t, lo, hi) && !(lo <= Rank(s) <= hi)
    ensures s !in t
  {
  }

  lemma AfterRan(p: Stage, q: Stage)
    ensures Ran(After(p, q).steps) == Ran(p.steps) + (if p.stop.None? then Ran(q.steps) else [])
  {
    if p.stop.None? {
      RanAppend(p.steps, q.steps);
    }
  }
}
