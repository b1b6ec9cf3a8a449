/**
 * `RetryWithJitterTask`: a Parallel state with one branch that, on a retried
 * run, waits for a jittered delay before running the wrapped chain
 * `tryProcess`, and one retrier with a zero interval so that the jittered
 * wait is the only delay between attempts.
 *
 * The branch is a fixed graph. The engine passes in the wrapper
 * `{RetryCount, Input}`; `CheckRetryCount` routes a retried run through
 * `CalculateJitter` and `WaitBetweenRetries`, and every run through
 * `Unwrap Input`, which hands the original input to `tryProcess`.
 */
module RetryWithJitterTask {
  import opened Wrappers
  import Sfn
  import Utils

  /** The construct's props; `tryProcess` is supplied where the branch is run. */
  datatype Props = Props(
    comment: Option<string>,
    inputPath: Option<string>,
    resultPath: Option<string>,
    retryProps: Sfn.RetryProps,
    stateNamePrefix: Option<string>)

  /** The backoff base sent to the jitter calculator. */
  const Backoff: nat := 2

  /** The Parallel state's output path: the first branch's result. */
  const OutputPath: string := "$[0]"

  /** The Parallel state's parameters: the engine's retry count and the whole input. */
  const ParameterTemplate: seq<(string, string)> :=
    [("RetryCount.$", "$$.State.RetryCount"), ("Input.$", "$")]

  // ---------------------------------------------------------------------
  // State names

  /** The names of the four generated states. */
  datatype BranchNames = BranchNames(
    checkRetryCount: string,
    calculateJitter: string,
    waitBetweenRetries: string,
    unwrapInput: string)

  /** Whether `s` is the error string, or a valid state name ending in `base`. */
  predicate NamedAfter(s: string, base: string) {
    s == Utils.NameLengthError || (|base| <= |s| <= Utils.MaxStateNameLength && s[|s| - |base|..] == base)
  }

  /** No two of the four names are equal. */
  predicate PairwiseDistinct(b: BranchNames) {
    && b.checkRetryCount != b.calculateJitter
    && b.checkRetryCount != b.waitBetweenRetries
    && b.checkRetryCount != b.unwrapInput
    && b.calculateJitter != b.waitBetweenRetries
    && b.calculateJitter != b.unwrapInput
    && b.waitBetweenRetries != b.unwrapInput
  }

  /**
   * Every generated name goes through `createStateName` with the same
   * prefix: each is the error string or a valid name ending in its base name.
   */
  function Names(prefix: Option<string>): (b: BranchNames)
    ensures NamedAfter(b.checkRetryCount, "CheckRetryCount")
    ensures NamedAfter(b.calculateJitter, "CalculateJitter")
    ensures NamedAfter(b.waitBetweenRetries, "WaitBetweenRetries")
    ensures NamedAfter(b.unwrapInput, "Unwrap Input")
  {
    BranchNames(
      Utils.CreateStateName(prefix, "CheckRetryCount"),
      Utils.CreateStateName(prefix, "CalculateJitter"),
      Utils.CreateStateName(prefix, "WaitBetweenRetries"),
      Utils.CreateStateName(prefix, "Unwrap Input"))
  }

  /**
   * An undefined prefix, or one too long for even the shortest name
   * (`Unwrap Input`, 12 characters), turns all four names into the same
   * error string.
   */
  lemma NamesCollapse(prefix: Option<string>)
    requires prefix.None? || |prefix.value| + 1 + 12 > Utils.MaxStateNameLength
    ensures Names(prefix) == BranchNames(Utils.NameLengthError, Utils.NameLengthError,
                                         Utils.NameLengthError, Utils.NameLengthError)
  {
  }

  /** Joining the same prefix to two different names gives two different names. */
  lemma JoinInjective(prefix: string, a: string, b: string)
    requires a != b
    ensures Utils.Join(prefix, a) != Utils.Join(prefix, b)
  {
    if |prefix| > 0 {
      assert Utils.Join(prefix, a)[|prefix| + 1..] == a;
      assert Utils.Join(prefix, b)[|prefix| + 1..] == b;
    }
  }

  /**
   * A defined prefix short enough for the longest name
   * (`WaitBetweenRetries`, 18 characters) gives four names that are the
   * prefix joined to their base names.
   */
  lemma NamesJoined(prefix: string)
    requires |prefix| + 1 + 18 <= Utils.MaxStateNameLength
    ensures var b := Names(Some(prefix));
      && b.checkRetryCount == Utils.Join(prefix, "CheckRetryCount")
      && b.calculateJitter == Utils.Join(prefix, "CalculateJitter")
      && b.waitBetweenRetries == Utils.Join(prefix, "WaitBetweenRetries")
      && b.unwrapInput == Utils.Join(prefix, "Unwrap Input")
  {
  }

  /**
   * The four names, which are construct ids under the same Parallel state,
   * are pairwise distinct exactly when the prefix is defined and at most 64
   * characters long. From 62 characters on `WaitBetweenRetries` alone turns
   * into the error string; from 65 on `CheckRetryCount` and `CalculateJitter`
   * do as well, and two ids clash.
   */
  lemma NamesDistinctIff(prefix: Option<string>)
    ensures PairwiseDistinct(Names(prefix)) <==> prefix.Some? && |prefix.value| <= 64
  {
    var b := Names(prefix);
    Utils.ErrorStringExceedsLimit();
    if prefix.Some? {
      var p := prefix.value;
      Utils.LimitAppliesToJoinedName(p, "CheckRetryCount");
      Utils.LimitAppliesToJoinedName(p, "CalculateJitter");
      Utils.LimitAppliesToJoinedName(p, "WaitBetweenRetries");
      Utils.LimitAppliesToJoinedName(p, "Unwrap Input");
      if |p| <= 64 {
        JoinInjective(p, "CheckRetryCount", "CalculateJitter");
        JoinInjective(p, "CheckRetryCount", "WaitBetweenRetries");
        JoinInjective(p, "CheckRetryCount", "Unwrap Input");
        JoinInjective(p, "CalculateJitter", "WaitBetweenRetries");
        JoinInjective(p, "CalculateJitter", "Unwrap Input");
        JoinInjective(p, "WaitBetweenRetries", "Unwrap Input");
      }
    }
  }

  // ---------------------------------------------------------------------
  // The branch graph

  /** The states of the branch; `TryProcess` stands for the wrapped chain. */
  datatype Node = CheckRetryCount | CalculateJitter | WaitBetweenRetries | UnwrapInput | TryProcess

  /** A topological order of the graph. */
  function Order(n: Node): (r: nat)
    ensures r <= 4
  {
    match n
    case CheckRetryCount => 0
    case CalculateJitter => 1
    case WaitBetweenRetries => 2
    case UnwrapInput => 3
    case TryProcess => 4
  }

  /**
   * The edges the constructor declares. Every edge goes forward in `Order`,
   * so the branch has no cycle, and nothing leads back to the entry state.
   */
  function Edges(n: Node): (r: set<Node>)
    ensures forall m :: m in r ==> Order(n) < Order(m)
    ensures CheckRetryCount !in r
  {
    match n
    case CheckRetryCount => {CalculateJitter, UnwrapInput}
    case CalculateJitter => {WaitBetweenRetries}
    case WaitBetweenRetries => {UnwrapInput}
    case UnwrapInput => {TryProcess}
    case TryProcess => {}
  }

  /** A walk along declared edges from `CheckRetryCount` to `tryProcess`. */
  ghost predicate IsRoute(p: seq<Node>) {
    && |p| > 0
    && p[0] == CheckRetryCount
    && p[|p| - 1] == TryProcess
    && forall i :: 0 <= i < |p| - 1 ==> p[i + 1] in Edges(p[i])
  }

  /** Along a route the order grows by at least one per step. */
  lemma {:induction false} RouteOrder(p: seq<Node>, j: nat, i: nat)
    requires IsRoute(p) && j <= i < |p|
    ensures Order(p[i]) >= Order(p[j]) + (i - j)
  {
    if i > j {
      RouteOrder(p, j, i - 1);
    }
  }

  /**
   * There are exactly two routes, the retry route and the first-attempt
   * route; each visits `Unwrap Input` once, right before `tryProcess`.
   */
  lemma EveryRouteUnwrapsOnce(p: seq<Node>)
    requires IsRoute(p)
    ensures p == [CheckRetryCount, CalculateJitter, WaitBetweenRetries, UnwrapInput, TryProcess]
         || p == [CheckRetryCount, UnwrapInput, TryProcess]
    ensures |p| >= 2 && p[|p| - 2] == UnwrapInput && multiset(p)[UnwrapInput] == 1
  {
    RouteOrder(p, 0, |p| - 1);
    assert |p| <= 5;
    assert p[1] in Edges(p[0]);
    if p[1] == UnwrapInput {
      RouteOrder(p, 1, |p| - 1);
      assert p[2] in Edges(p[1]);
      assert p == [CheckRetryCount, UnwrapInput, TryProcess];
    } else {
      assert p[2] in Edges(p[1]);
      assert p[3] in Edges(p[2]);
      assert p[4] in Edges(p[3]);
      assert p == [CheckRetryCount, CalculateJitter, WaitBetweenRetries, UnwrapInput, TryProcess];
    }
  }

  // ---------------------------------------------------------------------
  // Running the branch

  /** The payload of the jitter calculator. */
  datatype JitterRequest = JitterRequest(retryCount: nat, backoff: nat)

  /**
   * The document flowing through the branch: the wrapper built by the
   * parameters, with `WaitSeconds` once the jitter result is stored, or the
   * unwrapped input.
   */
  datatype Doc<T> = Wrapped(retryCount: nat, input: T, waitSeconds: Option<nat>) | Unwrapped(value: T)

  /** `Unwrap Input`'s output path `$.Input`; an unwrapped document has no such field. */
  function Unwrap<T>(d: Doc<T>): Option<T> {
    match d
    case Wrapped(_, input, _) => Some(input)
    case Unwrapped(_) => None
  }

  /**
   * The Parallel state's parameters applied to the engine's retry count and
   * the input: `$.Input` gives the input back, `$.RetryCount` holds the count,
   * and there is no `WaitSeconds` yet.
   */
  function Parameters<T>(retryCount: nat, input: T): (d: Doc<T>)
    ensures Unwrap(d) == Some(input)
    ensures d.Wrapped? && d.retryCount == retryCount && d.waitSeconds.None?
  {
    Wrapped(retryCount, input, None)
  }

  /**
   * One state of the branch. `jitter` is the external calculator (seconds).
   * A document without the field a state reads is a run-time error of the
   * engine, and the step yields `None`; `TryProcess` leaves the branch graph.
   */
  function Step<T>(jitter: JitterRequest -> nat, n: Node, d: Doc<T>): (r: Option<(Node, Doc<T>)>)
    ensures r.Some? ==> r.value.0 in Edges(n)
  {
    match (n, d)
    case (CheckRetryCount, Wrapped(rc, _, _)) =>
      if rc > 0 then Some((CalculateJitter, d)) else Some((UnwrapInput, d))
    case (CalculateJitter, Wrapped(rc, input, _)) =>
      Some((WaitBetweenRetries, Wrapped(rc, input, Some(jitter(JitterRequest(rc, Backoff))))))
    case (WaitBetweenRetries, Wrapped(_, _, Some(_))) => Some((UnwrapInput, d))
    case (UnwrapInput, Wrapped(_, _, _)) => Some((TryProcess, Unwrapped(Unwrap(d).value)))
    case _ => None
  }

  /** The states visited, the seconds waited and the document that leaves the branch graph. */
  datatype Trace<T> = Trace(visited: seq<Node>, waits: seq<nat>, last: Doc<T>)

  /** Runs the branch graph from `n` until no step applies. */
  function Run<T>(jitter: JitterRequest -> nat, n: Node, d: Doc<T>): (t: Trace<T>)
    decreases 4 - Order(n)
    ensures |t.visited| > 0 && t.visited[0] == n
  {
    match Step(jitter, n, d)
    case None => Trace([n], [], d)
    case Some((m, e)) =>
      var rest := Run(jitter, m, e);
      var waited := if n == WaitBetweenRetries && d.Wrapped? && d.waitSeconds.Some? then [d.waitSeconds.value] else [];
      Trace([n] + rest.visited, waited + rest.waits, rest.last)
  }

  /**
   * A retried run goes through the jitter calculator, called with the retry
   * count and backoff 2, and waits the seconds it returns; a first attempt
   * (retry count 0) waits for nothing. Both hand the original input to
   * `tryProcess`.
   */
  lemma BranchRoutes<T>(jitter: JitterRequest -> nat, retryCount: nat, input: T)
    ensures var t := Run(jitter, CheckRetryCount, Parameters(retryCount, input));
      && t.last == Unwrapped(input)
      && IsRoute(t.visited)
      && (retryCount > 0 ==>
            t.visited == [CheckRetryCount, CalculateJitter, WaitBetweenRetries, UnwrapInput, TryProcess]
            && t.waits == [jitter(JitterRequest(retryCount, 2))])
      && (retryCount == 0 ==>
            t.visited == [CheckRetryCount, UnwrapInput, TryProcess] && t.waits == [])
  {
  }

  // ---------------------------------------------------------------------
  // The Parallel state

  /** The output path `$[0]` applied to the Parallel state's array of branch results. */
  function FirstBranchResult<U>(results: seq<U>): (r: Option<U>)
    ensures r.Some? <==> |results| > 0
    ensures r.Some? ==> r.value == results[0]
  {
    if |results| > 0 then Some(results[0]) else None
  }

  /** The props leave the Parallel state's input and result paths at `$`. */
  predicate DefaultPaths(props: Props) {
    && (props.inputPath.None? || props.inputPath == Some("$"))
    && (props.resultPath.None? || props.resultPath == Some("$"))
  }

  /**
   * One attempt of the construct that does not fail: the parameters wrap
   * the input, the single branch runs and ends in `tryProcess`, and the
   * output path selects that branch's result. With paths other than `$`
   * the output depends on JSONPath selection, which is not modelled, and
   * the result is `None`. With the default paths, wrapping and unwrapping
   * are transparent: the construct outputs what `tryProcess` outputs on
   * the original input.
   */
  function Execute<T, U>(jitter: JitterRequest -> nat, tryProcess: T -> U, props: Props, retryCount: nat, input: T): (r: Option<U>)
    ensures DefaultPaths(props) ==> r == Some(tryProcess(input))
  {
    if !DefaultPaths(props) then None
    else
      BranchRoutes(jitter, retryCount, input);
      var t := Run(jitter, CheckRetryCount, Parameters(retryCount, input));
      match t.last
      case Unwrapped(v) => FirstBranchResult([tryProcess(v)])
      case Wrapped(_, _, _) => None
  }

  /** The retrier added to the Parallel state: no interval, attempts and errors from the props. */
  function JitterRetry(p: Sfn.RetryProps): (r: Sfn.RetryProps)
    ensures r.interval == Some(0)
    ensures r.maxAttempts == p.maxAttempts && r.errors == p.errors
    ensures r.backoffRate.None?
  {
    Sfn.RetryProps(p.errors, Some(0), p.maxAttempts, None)
  }

  /** The props' backoff rate and interval have no effect on the retrier. */
  lemma RetryUsesOnlyAttemptsAndErrors(p: Sfn.RetryProps, q: Sfn.RetryProps)
    requires p.maxAttempts == q.maxAttempts && p.errors == q.errors
    ensures JitterRetry(p) == JitterRetry(q)
  {
  }

  /** The Parallel state the construct is; its branch and retrier lists are appended to. */
  class RetryWithJitterTask {
    const comment: Option<string>
    const inputPath: Option<string>
    const resultPath: Option<string>
    const outputPath: string
    const parameters: seq<(string, string)>
    var branches: seq<BranchNames>
    var retriers: seq<Sfn.RetryProps>

    constructor (props: Props)
      ensures comment == props.comment && inputPath == props.inputPath && resultPath == props.resultPath
      ensures outputPath == OutputPath && parameters == ParameterTemplate
      ensures branches == [Names(props.stateNamePrefix)]
      ensures retriers == [JitterRetry(props.retryProps)]
    {
      comment := props.comment;
      inputPath := props.inputPath;
      resultPath := props.resultPath;
      outputPath := OutputPath;
      parameters := ParameterTemplate;
      branches := [];
      retriers := [];
      new;
      Branch(Names(props.stateNamePrefix));
      AddRetry(JitterRetry(props.retryProps));
    }

    /** `branch`: appends one branch. */
    method Branch(b: BranchNames)
      modifies this
      ensures branches == old(branches) + [b]
      ensures retriers == old(retriers)
    {
      branches := branches + [b];
    }

    /** `addRetry`: appends one retrier. */
    method AddRetry(r: Sfn.RetryProps)
      modifies this
      ensures retriers == old(retriers) + [r]
      ensures branches == old(branches)
    {
      retriers := retriers + [r];
    }
  }
}
