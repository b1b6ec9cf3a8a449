/**
 * `ResilientLambdaTask`: a Lambda invoke task that always carries one
 * retrier for transient Lambda errors.
 */
module ResilientLambdaTask {
  import opened Wrappers
  import Sfn

  /** The transient errors retried on top of the library's own defaults. */
  const TransientErrors: seq<string> := ["Lambda.TooManyRequestsException"]

  /** The retrier every resilient task gets: 6 attempts, 2 s apart, doubling. */
  const DefaultRetry: Sfn.RetryProps :=
    Sfn.RetryProps(Some(TransientErrors), Some(2), Some(6), Some(2.0))

  /** `addDefaultRetry`: appends the default retrier to a task. */
  method AddDefaultRetry(task: Sfn.TaskState)
    modifies task
    ensures task.retriers == old(task.retriers) + [DefaultRetry]
    ensures task.catchers == old(task.catchers)
  {
    task.AddRetry(DefaultRetry);
  }

  /**
   * The constructor: a fresh invoke task with the library's built-in
   * service retrier followed by the default one.
   */
  method New(resultPath: Sfn.ResultPath) returns (task: Sfn.TaskState)
    ensures fresh(task)
    ensures task.resultPath == resultPath
    ensures task.retriers == [Sfn.LambdaServiceRetry, DefaultRetry] && task.catchers == []
  {
    task := Sfn.NewLambdaInvoke(resultPath);
    AddDefaultRetry(task);
  }
}
