/**
 * `LoopDockerImageTask`: the same execute, wait and verify loop as
 * `LoopTask`, with container-image functions. Each function has a
 * `DockerImageTask` fragment, but the states chained into the loop are two
 * separate resilient invoke tasks built on the same functions.
 */
module LoopDockerImageTask {
  import opened Wrappers
  import Sfn
  import ResilientLambdaTask
  import DockerImageTask
  import LoopTask

  /** The construct and the four task states it creates. */
  class LoopDockerImageTask {
    const startState: LoopTask.LoopNode
    const endStates: seq<LoopTask.LoopNode>
    const waitSeconds: nat
    const statusPath: string
    /** The task of the execution function's `DockerImageTask` fragment (not chained). */
    const executionLambda: Sfn.TaskState
    /** The chained `Exec` state. */
    const executionTask: Sfn.TaskState
    /** The task of the verification function's `DockerImageTask` fragment (not chained). */
    const verificationLambda: Sfn.TaskState
    /** The chained `Verify` state. */
    const verifyTask: Sfn.TaskState

    ghost predicate Valid()
      reads this
    {
      && executionTask != verifyTask
      && executionLambda != executionTask && executionLambda != verifyTask
      && verificationLambda != executionTask && verificationLambda != verifyTask
    }

    /**
     * The loop's defaults, status path, start and end states are those of
     * `LoopTask`. The verify path goes only to the unchained verification
     * fragment; the chained tasks are built from the function alone, so
     * they keep the default result path and carry the built-in service retrier
     * and the resilient one.
     */
    constructor (props: LoopTask.Props)
      ensures Valid()
      ensures startState == LoopTask.StartState && endStates == LoopTask.EndStates
      ensures waitSeconds == LoopTask.Resolve(props).waitSeconds
      ensures statusPath == LoopTask.StatusPath(LoopTask.Resolve(props))
      ensures fresh(executionLambda) && fresh(executionTask) && fresh(verificationLambda) && fresh(verifyTask)
      ensures executionLambda.resultPath == Sfn.Discard
      ensures verificationLambda.resultPath == Sfn.ResultPathOf(LoopTask.Resolve(props).verifyPath)
      ensures executionTask.resultPath == Sfn.Default && verifyTask.resultPath == Sfn.Default
      ensures executionTask.retriers == [Sfn.LambdaServiceRetry, ResilientLambdaTask.DefaultRetry]
      ensures verifyTask.retriers == [Sfn.LambdaServiceRetry, ResilientLambdaTask.DefaultRetry]
      ensures executionTask.catchers == [] && verifyTask.catchers == []
    {
      var c := LoopTask.Resolve(props);
      var execLambda := DockerImageTask.NewTask(Sfn.Discard);
      var execTask := ResilientLambdaTask.New(Sfn.Default);
      var verLambda := DockerImageTask.NewTask(Sfn.ResultPathOf(c.verifyPath));
      var verTask := ResilientLambdaTask.New(Sfn.Default);
      executionLambda, executionTask := execLambda, execTask;
      verificationLambda, verifyTask := verLambda, verTask;
      waitSeconds := c.waitSeconds;
      statusPath := LoopTask.StatusPath(c);
      startState := LoopTask.StartState;
      endStates := LoopTask.EndStates;
    }

    /**
     * `addCatch`: the same catcher on the two chained tasks; the two
     * `DockerImageTask` fragments are left as they were. Returns `this`.
     */
    method AddCatch(handler: Sfn.Handler, props: Option<Sfn.CatchProps>) returns (self: LoopDockerImageTask)
      requires Valid()
      modifies executionTask, verifyTask
      ensures self == this
      ensures executionTask.catchers == old(executionTask.catchers) + [Sfn.Catcher(handler, props)]
      ensures verifyTask.catchers == old(verifyTask.catchers) + [Sfn.Catcher(handler, props)]
      ensures executionTask.retriers == old(executionTask.retriers)
      ensures verifyTask.retriers == old(verifyTask.retriers)
      ensures unchanged(executionLambda, verificationLambda)
    {
      executionTask.AddCatch(handler, props);
      verifyTask.AddCatch(handler, props);
      self := this;
    }
  }
}
