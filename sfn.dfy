/**
 * The part of the Step Functions construct library that the constructs
 * configure: result paths, retriers, catchers and task states whose
 * retrier and catcher lists grow in place.
 */
module Sfn {
  import opened Wrappers

  /** The special `resultPath` value that keeps a state's input as its output. */
  const DiscardLiteral: string := "DISCARD"

  /** Where a task writes its result: the whole document (`$`), nowhere, or a path. */
  datatype ResultPath = Default | Discard | At(path: string)

  /** A `resultPath` given as a string; the string `DISCARD` is the sentinel. */
  function ResultPathOf(s: string): (r: ResultPath)
    ensures r == Discard <==> s == DiscardLiteral
    ensures r != Discard ==> r == At(s)
  {
    if s == DiscardLiteral then Discard else At(s)
  }

  /** Retry settings; a duration is a number of seconds, absent fields are engine defaults. */
  datatype RetryProps = RetryProps(
    errors: Option<seq<string>>,
    interval: Option<nat>,
    maxAttempts: Option<nat>,
    backoffRate: Option<real>)

  /** Catch settings passed through `addCatch`. */
  datatype CatchProps = CatchProps(errors: Option<seq<string>>, resultPath: Option<string>)

  /** The chainable a catcher routes to, identified by its start state. */
  datatype Handler = Handler(startState: string)

  /** One registered catcher. */
  datatype Catcher = Catcher(handler: Handler, props: Option<CatchProps>)

  /**
   * The retrier every Lambda invoke task of the construct library starts
   * with, for the service's own transient errors.
   */
  const LambdaServiceRetry: RetryProps :=
    RetryProps(
      Some(["Lambda.ServiceException", "Lambda.AWSLambdaException", "Lambda.SdkClientException"]),
      Some(2), Some(6), Some(2.0))

  /** A task state: its result path is fixed, its retriers and catchers are appended to. */
  class TaskState {
    const resultPath: ResultPath
    var retriers: seq<RetryProps>
    var catchers: seq<Catcher>

    constructor (resultPath: ResultPath)
      ensures this.resultPath == resultPath
      ensures retriers == [] && catchers == []
    {
      this.resultPath := resultPath;
      retriers := [];
      catchers := [];
    }

    /** `addRetry`: appends one retrier, catchers are untouched. */
    method AddRetry(r: RetryProps)
      modifies this
      ensures retriers == old(retriers) + [r]
      ensures catchers == old(catchers)
    {
      retriers := retriers + [r];
    }

    /** `addCatch`: appends one catcher, retriers are untouched. */
    method AddCatch(handler: Handler, props: Option<CatchProps>)
      modifies this
      ensures catchers == old(catchers) + [Catcher(handler, props)]
      ensures retriers == old(retriers)
    {
      catchers := catchers + [Catcher(handler, props)];
    }
  }

  /** A Lambda invoke task: a fresh task state carrying the built-in service retrier. */
  method NewLambdaInvoke(resultPath: ResultPath) returns (task: TaskState)
    ensures fresh(task)
    ensures task.resultPath == resultPath
    ensures task.retriers == [LambdaServiceRetry] && task.catchers == []
  {
    task := new TaskState(resultPath);
    task.AddRetry(LambdaServiceRetry);
  }
}
