/**
 * `DockerImageTask`: a fragment around one resilient invoke task of a
 * container-image function. Only the task state is modelled: its result
 * path and its retriers.
 */
module DockerImageTask {
  import opened Wrappers
  import Sfn
  import ResilientLambdaTask

  /** The extra retrier the fragment adds to its task. */
  const ServiceUnavailableRetry: Sfn.RetryProps :=
    Sfn.RetryProps(Some(["ServiceUnavailableException"]), None, None, None)

  /**
   * The fragment's task: the props' `resultPath` is spread into it, and it
   * has the resilient default retrier followed by the service-unavailable one.
   */
  method NewTask(resultPath: Sfn.ResultPath) returns (task: Sfn.TaskState)
    ensures fresh(task)
    ensures task.resultPath == resultPath
    ensures task.retriers == [Sfn.LambdaServiceRetry, ResilientLambdaTask.DefaultRetry, ServiceUnavailableRetry]
    ensures task.catchers == []
  {
    task := ResilientLambdaTask.New(resultPath);
    task.AddRetry(ServiceUnavailableRetry);
  }
}
