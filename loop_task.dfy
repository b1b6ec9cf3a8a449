/**
 * `LoopTask`: an execute, wait and verify loop. `Exec` runs once, then the
 * fragment waits, runs `Verify` and branches on the status the verify
 * step reported: `SUCCEEDED` ends in the `Succeeded` pass state, `FAILED`
 * in the `Failed` fail state, anything else waits and verifies again.
 *
 * The defaults, the status path and the graph defined here are shared
 * with `LoopDockerImageTask`, whose constructor repeats them.
 */
module LoopTask {
  import opened Wrappers
  import Sfn

  const DefaultWaitSeconds: nat := 10
  const DefaultVerifyPath: string := "$.VerifyResult"
  const DefaultVerifyStatusField: string := "Status"

  const StatusSucceeded: string := "SUCCEEDED"
  const StatusFailed: string := "FAILED"

  /** The loop-related props; absent fields take the destructuring defaults. */
  datatype Props = Props(
    waitSeconds: Option<nat>,
    verifyPath: Option<string>,
    verifyStatusField: Option<string>)

  /** The props after defaults are applied. */
  datatype Config = Config(waitSeconds: nat, verifyPath: string, verifyStatusField: string)

  /** Applies the defaults: 10 seconds, `$.VerifyResult`, `Status`. */
  function Resolve(p: Props): (c: Config)
    ensures p.waitSeconds.Some? ==> c.waitSeconds == p.waitSeconds.value
    ensures p.waitSeconds.None? ==> c.waitSeconds == DefaultWaitSeconds
    ensures p.verifyPath.Some? ==> c.verifyPath == p.verifyPath.value
    ensures p.verifyPath.None? ==> c.verifyPath == DefaultVerifyPath
    ensures p.verifyStatusField.Some? ==> c.verifyStatusField == p.verifyStatusField.value
    ensures p.verifyStatusField.None? ==> c.verifyStatusField == DefaultVerifyStatusField
  {
    Config(
      p.waitSeconds.GetOr(DefaultWaitSeconds),
      p.verifyPath.GetOr(DefaultVerifyPath),
      p.verifyStatusField.GetOr(DefaultVerifyStatusField))
  }

  /** The path the choice reads: the status field inside the verify result. */
  function StatusPath(c: Config): (s: string)
    ensures |s| == |c.verifyPath| + 1 + |c.verifyStatusField|
    ensures s[..|c.verifyPath|] == c.verifyPath
    ensures s[|c.verifyPath|] == '.'
    ensures s[|c.verifyPath| + 1..] == c.verifyStatusField
  {
    c.verifyPath + "." + c.verifyStatusField
  }

  /** With no props given, the choice reads `$.VerifyResult.Status`. */
  lemma DefaultStatusPath()
    ensures StatusPath(Resolve(Props(None, None, None))) == "$.VerifyResult.Status"
  {
  }

  // ---------------------------------------------------------------------
  // The graph

  /** The states of the loop. */
  datatype LoopNode = Exec | Wait | Verify | Choice | Succeeded | Failed

  /** The start state, and the end states the fragment exports. */
  const StartState: LoopNode := Exec
  const EndStates: seq<LoopNode> := [Succeeded]

  /** The edges the chain and the choice declare. */
  function Successors(n: LoopNode): (r: set<LoopNode>)
    ensures Exec !in r
    ensures r == {} <==> n == Succeeded || n == Failed
  {
    match n
    case Exec => {Wait}
    case Wait => {Verify}
    case Verify => {Choice}
    case Choice => {Succeeded, Failed, Wait}
    case Succeeded => {}
    case Failed => {}
  }

  /** A measure that every edge except the verify step lowers. */
  function Rank(n: LoopNode): nat {
    match n
    case Exec => 3
    case Choice => 2
    case Wait => 1
    case _ => 0
  }

  /**
   * The transition from `n`; at `Choice`, `status` is the value found at the
   * status path. The pass and fail states have no successor.
   */
  function Next(n: LoopNode, status: string): (r: Option<LoopNode>)
    ensures r.None? <==> n == Succeeded || n == Failed
    ensures r.Some? ==> r.value in Successors(n)
  {
    match n
    case Exec => Some(Wait)
    case Wait => Some(Verify)
    case Verify => Some(Choice)
    case Choice =>
      if status == StatusSucceeded then Some(Succeeded)
      else if status == StatusFailed then Some(Failed)
      else Some(Wait)
    case Succeeded => None
    case Failed => None
  }

  /** The choice is a three-way switch on the status. */
  lemma ChoiceRoutes(status: string)
    ensures Next(Choice, status) == Some(Succeeded) <==> status == StatusSucceeded
    ensures Next(Choice, status) == Some(Failed) <==> status == StatusFailed
    ensures Next(Choice, status) == Some(Wait) <==> status != StatusSucceeded && status != StatusFailed
  {
  }

  /** Every declared edge is taken for some status. */
  lemma SuccessorsAreReachable(n: LoopNode, m: LoopNode)
    requires m in Successors(n)
    ensures exists status :: Next(n, status) == Some(m)
  {
    if n == Choice {
      if m == Succeeded {
        assert Next(n, StatusSucceeded) == Some(m);
      } else if m == Failed {
        assert Next(n, StatusFailed) == Some(m);
      } else {
        assert Next(n, "") == Some(m);
      }
    } else {
      assert Next(n, "") == Some(m);
    }
  }

  /** The states of the Wait, Verify, Choice cycle. */
  predicate InCycle(n: LoopNode) {
    n == Wait || n == Verify || n == Choice
  }

  /**
   * The only cycle is Wait, Verify, Choice: nothing leads back to `Exec`,
   * the pass and fail states lead nowhere, and each cycle state leads to
   * the next one.
   */
  lemma OnlyCycleIsWaitVerifyChoice(n: LoopNode)
    ensures Exec !in Successors(n)
    ensures !InCycle(n) ==> forall m :: m in Successors(n) ==> !InCycle(m) || n == Exec
    ensures n == Succeeded || n == Failed ==> Successors(n) == {}
    ensures Verify in Successors(Wait) && Choice in Successors(Verify) && Wait in Successors(Choice)
  {
  }

  // ---------------------------------------------------------------------
  // Running the loop

  /**
   * Runs the graph from `n`; `status` is the last status reported and
   * `results` the statuses that later runs of `Verify` report, in order.
   * When they run out at `Verify`, the trace ends there: the loop is
   * still going.
   */
  function Execute(n: LoopNode, status: string, results: seq<string>): (t: seq<LoopNode>)
    decreases |results|, Rank(n)
    ensures |t| > 0 && t[0] == n
  {
    match Next(n, status)
    case None => [n]
    case Some(m) =>
      if n == Verify then
        if results == [] then [n] else [n] + Execute(m, results[0], results[1..])
      else
        assert Rank(m) < Rank(n);
        [n] + Execute(m, status, results)
  }

  /** Whether a status ends the loop. */
  predicate IsTerminal(status: string) {
    status == StatusSucceeded || status == StatusFailed
  }

  /**
   * The trace from `Wait`, written directly: one Wait, Verify, Choice round
   * per reported status up to the first terminal one, then the pass or fail
   * state it selects.
   */
  function Rounds(results: seq<string>): seq<LoopNode> {
    if results == [] then [Wait, Verify]
    else if results[0] == StatusSucceeded then [Wait, Verify, Choice, Succeeded]
    else if results[0] == StatusFailed then [Wait, Verify, Choice, Failed]
    else [Wait, Verify, Choice] + Rounds(results[1..])
  }

  /** Running the transition function from `Wait` follows `Rounds`. */
  lemma {:induction false} ExecuteFromWait(status: string, results: seq<string>)
    decreases |results|
    ensures Execute(Wait, status, results) == Rounds(results)
  {
    assert Execute(Wait, status, results) == [Wait] + Execute(Verify, status, results);
    if results != [] {
      var s, rest := results[0], results[1..];
      assert Execute(Verify, status, results) == [Verify] + Execute(Choice, s, rest);
      if s == StatusSucceeded {
        assert Execute(Choice, s, rest) == [Choice] + Execute(Succeeded, s, rest) == [Choice, Succeeded];
      } else if s == StatusFailed {
        assert Execute(Choice, s, rest) == [Choice] + Execute(Failed, s, rest) == [Choice, Failed];
      } else {
        assert Execute(Choice, s, rest) == [Choice] + Execute(Wait, s, rest);
        ExecuteFromWait(s, rest);
      }
    }
  }

  /** The whole fragment: `Exec` once, then the rounds. */
  lemma ExecuteFromStart(results: seq<string>)
    ensures Execute(StartState, "", results) == [Exec] + Rounds(results)
  {
    ExecuteFromWait("", results);
  }

  /** Status `status` is the first terminal status reported, at round `k`. */
  ghost predicate FirstTerminalAt(results: seq<string>, k: nat, status: string) {
    && k < |results|
    && results[k] == status
    && forall j :: 0 <= j < k ==> !IsTerminal(results[j])
  }

  /** Dropping a non-terminal first status keeps the first terminal one, one round earlier. */
  lemma FirstTerminalShift(results: seq<string>, status: string)
    requires results != [] && !IsTerminal(results[0]) && IsTerminal(status)
    ensures (exists k: nat :: FirstTerminalAt(results, k, status))
        <==> (exists k: nat :: FirstTerminalAt(results[1..], k, status))
  {
    var rest := results[1..];
    if k: nat :| FirstTerminalAt(results, k, status) {
      assert k > 0;
      assert FirstTerminalAt(rest, k - 1, status);
    }
    if k: nat :| FirstTerminalAt(rest, k, status) {
      assert FirstTerminalAt(results, k + 1, status);
    }
  }

  /** The last state of the rounds. */
  function Outcome(results: seq<string>): LoopNode {
    var t := Rounds(results);
    t[|t| - 1]
  }

  /**
   * The loop ends in `Succeeded` exactly when the first terminal status is
   * `SUCCEEDED`, in `Failed` exactly when it is `FAILED`, and is still at
   * `Verify` exactly when no reported status is terminal.
   */
  lemma {:induction false} RoundsOutcome(results: seq<string>)
    ensures Outcome(results) == Succeeded <==> exists k: nat :: FirstTerminalAt(results, k, StatusSucceeded)
    ensures Outcome(results) == Failed <==> exists k: nat :: FirstTerminalAt(results, k, StatusFailed)
    ensures Outcome(results) == Verify <==> forall j :: 0 <= j < |results| ==> !IsTerminal(results[j])
  {
    if results == [] {
    } else if IsTerminal(results[0]) {
      assert FirstTerminalAt(results, 0, results[0]);
      forall k: nat, st | FirstTerminalAt(results, k, st) ensures k == 0 && st == results[0] {
      }
    } else {
      var rest := results[1..];
      RoundsOutcome(rest);
      assert Rounds(results) == [Wait, Verify, Choice] + Rounds(rest);
      assert Outcome(results) == Outcome(rest);
      FirstTerminalShift(results, StatusSucceeded);
      FirstTerminalShift(results, StatusFailed);
      assert (forall j :: 0 <= j < |results| ==> !IsTerminal(results[j]))
         <==> (forall j :: 0 <= j < |rest| ==> !IsTerminal(rest[j])) by {
        assert forall j :: 0 <= j < |rest| ==> rest[j] == results[j + 1];
      }
    }
  }

  /** Every state of the rounds but the last is in the Wait, Verify, Choice cycle. */
  lemma {:induction false} RoundsStayInCycle(results: seq<string>)
    ensures Exec !in Rounds(results)
    ensures forall i :: 0 <= i < |Rounds(results)| - 1 ==> InCycle(Rounds(results)[i])
  {
    if results != [] && !IsTerminal(results[0]) {
      var r := Rounds(results[1..]);
      RoundsStayInCycle(results[1..]);
      assert Rounds(results) == [Wait, Verify, Choice] + r;
    }
  }

  /** One `Wait` per reported status, plus the pending one while none was terminal. */
  lemma {:induction false} RoundsWaitCount(results: seq<string>)
    ensures multiset(Rounds(results))[Wait] <= |results| + 1
  {
    if results != [] && !IsTerminal(results[0]) {
      var r := Rounds(results[1..]);
      RoundsWaitCount(results[1..]);
      assert Rounds(results) == [Wait, Verify, Choice] + r;
      assert multiset(Rounds(results)) == multiset([Wait, Verify, Choice]) + multiset(r);
    }
  }

  /** The construct: two code tasks, `Exec` and `Verify`, wired into the loop. */
  class LoopTask {
    const startState: LoopNode
    const endStates: seq<LoopNode>
    const waitSeconds: nat
    const statusPath: string
    const deploy: Sfn.TaskState
    const verify: Sfn.TaskState

    ghost predicate Valid()
      reads this
    {
      deploy != verify
    }

    /**
     * `Exec` discards its result, `Verify` writes its result at the verify
     * path, which the status path reads; the wait lasts `waitSeconds`.
     */
    constructor (props: Props)
      ensures Valid()
      ensures startState == StartState && endStates == EndStates
      ensures waitSeconds == Resolve(props).waitSeconds
      ensures statusPath == StatusPath(Resolve(props))
      ensures fresh(deploy) && fresh(verify)
      ensures deploy.resultPath == Sfn.Discard
      ensures verify.resultPath == Sfn.ResultPathOf(Resolve(props).verifyPath)
      ensures deploy.catchers == [] && verify.catchers == []
    {
      var c := Resolve(props);
      deploy := new Sfn.TaskState(Sfn.Discard);
      verify := new Sfn.TaskState(Sfn.ResultPathOf(c.verifyPath));
      waitSeconds := c.waitSeconds;
      statusPath := StatusPath(c);
      startState := StartState;
      endStates := EndStates;
    }

    /** `addCatch`: the same catcher on `Exec` and `Verify`, and nowhere else; returns `this`. */
    method AddCatch(handler: Sfn.Handler, props: Option<Sfn.CatchProps>) returns (self: LoopTask)
      requires Valid()
      modifies deploy, verify
      ensures self == this
      ensures deploy.catchers == old(deploy.catchers) + [Sfn.Catcher(handler, props)]
      ensures verify.catchers == old(verify.catchers) + [Sfn.Catcher(handler, props)]
      ensures deploy.retriers == old(deploy.retriers) && verify.retriers == old(verify.retriers)
    {
      deploy.AddCatch(handler, props);
      verify.AddCatch(handler, props);
      self := this;
    }
  }
}
