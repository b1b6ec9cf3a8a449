# Step Functions patterns: a Dafny model

This project models the logic of a small library of AWS Step Functions
constructs. The library builds state-machine fragments; the model covers
three of them:

- **`Utils.createStateName`** (`utils.dfy`) joins an optional prefix to a state name with `-`
  and enforces the 80-character limit on state names. It never throws. When
  the name is too long, or when the prefix is `undefined` (reading `.length` of it throws
  inside the same `try`), it returns a fixed error string. That string is
  longer than 80 characters. The `try` block is modelled as a function returning a
  `Result` (`TryCreateStateName`), and the catch-all as `CreateStateName`.
- **`RetryWithJitterTask`** (`retry_with_jitter_task.dfy`) is a Parallel state with one branch.
  The engine's retry count and the input are wrapped as `{RetryCount, Input}`.
  `CheckRetryCount` sends a retried run through `CalculateJitter` (payload
  `{RetryCount, Backoff: 2}`, result at `$.WaitSeconds`) and
  `WaitBetweenRetries`. A first attempt goes straight to `Unwrap Input`.
  `Unwrap Input` hands `$.Input` to the wrapped chain `tryProcess`. The output is
  `$[0]`, and there is one retrier with a zero interval. The branch is a node
  datatype with a step function, and the class records the branch and retrier
  lists that the constructor appends to. The jitter calculator and `tryProcess`
  are function parameters.
- **`LoopTask`** and **`LoopDockerImageTask`** (`loop_task.dfy`,
  `loop_docker_image_task.dfy`) are execute, wait, verify loops. They
  default to 10 seconds, `$.VerifyResult` and `Status`, and the status path
  is `verifyPath + "." + verifyStatusField`. A three-way choice sends
  `SUCCEEDED` to the pass state and `FAILED` to the fail state. Any other status
  goes back to the wait. The two source files repeat the same defaults and
  wiring. The model defines them once, in `LoopTask`, and the Docker construct's
  constructor is proved to use them. `addCatch` is a method that appends one catcher to
  each of the two chained task states, whose catcher lists are mutable.

Three points of the code are worth knowing, and the model states each of them:

- `createStateName` does not throw when a name is too long. Its catch returns the
  error string, and that string is then used as the state name (lib/construct/utils.ts:17-19).
- The doc comments of both loop constructs give `$.verify` and `status` as the defaults
  (src/construct/LoopTask.ts:37,43; src/construct/LoopDockerImageTask.ts:38,44).
  The code uses `$.VerifyResult` and `Status`, and so does the model.
- In `LoopDockerImageTask` the verify path is given only to the verification
  `DockerImageTask` fragment, which is not chained. The chained verify task
  keeps the default result path (`verifyTask.resultPath == Default` in the
  constructor's contract), while the choice still reads the status path.

The shared library vocabulary is in `sfn.dfy`: result paths, retry and catch props,
a task state whose retrier and catcher lists grow in place, and the Lambda invoke
task, which starts with the library's retrier for `Lambda.ServiceException`,
`Lambda.AWSLambdaException` and `Lambda.SdkClientException`. `ResilientLambdaTask`'s constants
(`Lambda.TooManyRequestsException`, 6 attempts, 2 s, backoff 2) are in
`resilient_lambda_task.dfy`. The one task of a `DockerImageTask` fragment is in
`docker_image_task.dfy`.

## Model

| member | source | states |
|---|---|---|
| `Utils.Join` | lib/construct/utils.ts:7-10 | an empty prefix leaves the name as it is; a non-empty prefix gives `prefix`, `-`, `name`, of length `|prefix| + 1 + |name|` |
| `Utils.TryCreateStateName` | lib/construct/utils.ts:6-15 | the try block throws the TypeError exactly for an undefined prefix; otherwise it succeeds exactly when the joined name has at most 80 characters, and then returns that name |
| `Utils.CreateStateName` | lib/construct/utils.ts:4-21 | total, never throws; the result is either the error string or a name of at most 80 characters |
| `Utils.ErrorStringExceedsLimit` | lib/construct/utils.ts:5 | the error string is longer than 80 characters |
| `Utils.EmptyPrefixKeepsName` | lib/construct/utils.ts:7-15 | an empty prefix and a name of at most 80 characters give the name unchanged |
| `Utils.PrefixIsJoined` | lib/construct/utils.ts:8-15 | a non-empty prefix whose joined name fits gives exactly `prefix + "-" + name` |
| `Utils.LimitAppliesToJoinedName` | lib/construct/utils.ts:9-19 | a joined name of exactly 80 characters is accepted; from 81 on the error string is returned, even for a short name with a long prefix |
| `Utils.UndefinedPrefixYieldsError` | lib/construct/utils.ts:6-19 | an undefined prefix yields the error string, so the result is not bounded by 80 |
| `Utils.ErrorIffThrown` | lib/construct/utils.ts:11-19 | the error string comes back if and only if the prefix is undefined or the joined name is over 80; any other result is at most 80 characters |
| `Sfn.ResultPathOf` | src/construct/LoopTask.ts:73-82 | a result path given as a string is the DISCARD sentinel exactly when it is `DISCARD`, and a path otherwise |
| `Sfn.NewLambdaInvoke` | src/construct/ResilientLambdaTask.ts:10-13 | a fresh invoke task starts with the library's retrier for the three Lambda service errors, and no catchers |
| `ResilientLambdaTask.AddDefaultRetry` | src/construct/ResilientLambdaTask.ts:27-35 | appends one retrier (TooManyRequests, backoff 2, 6 attempts, 2 s) and touches nothing else |
| `ResilientLambdaTask.New` | src/construct/ResilientLambdaTask.ts:9-21 | a fresh invoke task carrying the library's built-in service retrier followed by the default one, and no catchers |
| `DockerImageTask.NewTask` | src/construct/DockerImageTask.ts:61-72 | the fragment's task takes the props' result path and has the built-in service retrier, the default retrier and the ServiceUnavailableException retrier, in that order |
| `RetryWithJitterTask.Names` | lib/construct/RetryWithJitterTask.ts:76-98 | each of the four state names is either the error string or a valid name ending in its base name |
| `RetryWithJitterTask.NamesCollapse` | lib/construct/RetryWithJitterTask.ts:76-98 | with an undefined prefix, or one too long for the shortest name, all four generated names are the same error string |
| `RetryWithJitterTask.NamesJoined` | lib/construct/RetryWithJitterTask.ts:76-98 | with a prefix short enough for the longest name, each of the four names is the prefix joined to its base name |
| `RetryWithJitterTask.NamesDistinctIff` | lib/construct/RetryWithJitterTask.ts:76-98 | the four construct ids are pairwise distinct if and only if the prefix is defined and at most 64 characters long; otherwise two ids clash |
| `RetryWithJitterTask.JoinInjective` | lib/construct/utils.ts:9 | joining one prefix to two different names gives two different names |
| `RetryWithJitterTask.Edges` | lib/construct/RetryWithJitterTask.ts:96-102 | every declared edge goes forward in a topological order, so the branch is acyclic, and no edge leads back to CheckRetryCount |
| `RetryWithJitterTask.RouteOrder` | lib/construct/RetryWithJitterTask.ts:96-102 | along any route the order grows by at least one per step |
| `RetryWithJitterTask.EveryRouteUnwrapsOnce` | lib/construct/RetryWithJitterTask.ts:96-102 | the only routes from CheckRetryCount to tryProcess are the retry route and the direct route; each visits Unwrap Input exactly once, right before tryProcess |
| `RetryWithJitterTask.Parameters` | lib/construct/RetryWithJitterTask.ts:62-65 | the wrapper holds the engine's retry count, no WaitSeconds yet, and `$.Input` gives back the original input |
| `RetryWithJitterTask.Step` | lib/construct/RetryWithJitterTask.ts:79-101 | each step of the branch follows a declared edge |
| `RetryWithJitterTask.Run` | lib/construct/RetryWithJitterTask.ts:96-102 | the trace of a run starts at the state it was started from |
| `RetryWithJitterTask.BranchRoutes` | lib/construct/RetryWithJitterTask.ts:62-101 | from `{RetryCount, Input}`: for a count above 0 the route is CalculateJitter, WaitBetweenRetries, Unwrap Input, and the wait lasts what the calculator returns for `{RetryCount, Backoff: 2}`; for 0 it goes straight to Unwrap Input with no wait; both deliver the original input to tryProcess |
| `RetryWithJitterTask.FirstBranchResult` | lib/construct/RetryWithJitterTask.ts:60 | `$[0]` selects the first branch result, when there is one |
| `RetryWithJitterTask.Execute` | lib/construct/RetryWithJitterTask.ts:57-104 | with input and result paths left at `$`, wrapping, routing, unwrapping and `$[0]` are transparent: the construct outputs what tryProcess outputs on the original input |
| `RetryWithJitterTask.JitterRetry` | lib/construct/RetryWithJitterTask.ts:106-110 | the retrier has interval 0, copies maxAttempts and errors, and sets no backoff rate |
| `RetryWithJitterTask.RetryUsesOnlyAttemptsAndErrors` | lib/construct/RetryWithJitterTask.ts:106-110 | retry props that agree on maxAttempts and errors give the same retrier: backoffRate and interval are not forwarded |
| `RetryWithJitterTask.RetryWithJitterTask.constructor` | lib/construct/RetryWithJitterTask.ts:56-111 | output path `$[0]`, the `{RetryCount, Input}` parameters, comment and paths from the props, exactly one branch (named through createStateName with the props' prefix) and exactly one retrier |
| `RetryWithJitterTask.RetryWithJitterTask.Branch` | lib/construct/RetryWithJitterTask.ts:104 | appends one branch and leaves the retriers alone |
| `RetryWithJitterTask.RetryWithJitterTask.AddRetry` | lib/construct/RetryWithJitterTask.ts:106-110 | appends one retrier and leaves the branches alone |
| `LoopTask.Resolve` | src/construct/LoopTask.ts:60-68 | absent props take 10, `$.VerifyResult` and `Status`; given props override them |
| `LoopTask.StatusPath` | src/construct/LoopTask.ts:70 | the status path is the verify path, a dot, then the status field |
| `LoopTask.DefaultStatusPath` | src/construct/LoopTask.ts:63-70 | with no props the choice reads `$.VerifyResult.Status` |
| `LoopTask.Successors` | src/construct/LoopTask.ts:98-107 | no edge leads back to Exec, and exactly the pass and fail states have no outgoing edge |
| `LoopTask.Next` | src/construct/LoopTask.ts:98-107 | each transition follows a declared edge; exactly the pass and fail states have no successor |
| `LoopTask.ChoiceRoutes` | src/construct/LoopTask.ts:102-106 | the choice goes to Succeeded if and only if the status is SUCCEEDED, to Failed if and only if it is FAILED, and back to Wait for any other value |
| `LoopTask.SuccessorsAreReachable` | src/construct/LoopTask.ts:98-107 | every declared edge is taken for some status |
| `LoopTask.OnlyCycleIsWaitVerifyChoice` | src/construct/LoopTask.ts:98-107 | nothing leads back to Exec, Succeeded and Failed lead nowhere, and Wait, Verify, Choice form the one cycle |
| `LoopTask.Execute` | src/construct/LoopTask.ts:98-111 | a run's trace starts at the state it was started from |
| `LoopTask.ExecuteFromWait` | src/construct/LoopTask.ts:99-106 | running the transition function from Wait gives one Wait, Verify, Choice round per reported status, up to the first terminal one, then its pass or fail state |
| `LoopTask.ExecuteFromStart` | src/construct/LoopTask.ts:98-110 | from the start state Exec runs once, followed by those rounds |
| `LoopTask.RoundsOutcome` | src/construct/LoopTask.ts:102-106 | the loop ends in Succeeded if and only if the first terminal status is SUCCEEDED, and in Failed if and only if it is FAILED; it is still looping if and only if no status reported so far is terminal |
| `LoopTask.RoundsStayInCycle` | src/construct/LoopTask.ts:98-106 | Exec is never revisited, and every state before the last is Wait, Verify or Choice |
| `LoopTask.RoundsWaitCount` | src/construct/LoopTask.ts:90-106 | at most one Wait per reported status, plus the pending one |
| `LoopTask.LoopTask.constructor` | src/construct/LoopTask.ts:58-112 | start state Exec, end states exactly `[Succeeded]`, wait of the resolved seconds, the derived status path, Exec's result discarded, Verify's result at the verify path, and no catchers yet |
| `LoopTask.LoopTask.AddCatch` | src/construct/LoopTask.ts:114-118 | appends the same handler and props to Exec and Verify only, keeps their retriers, and returns this |
| `LoopDockerImageTask.LoopDockerImageTask.constructor` | src/construct/LoopDockerImageTask.ts:63-126 | the same defaults, status path, wait, start state and end states `[Succeeded]` as LoopTask; the execution fragment discards its result, and only the unchained verification fragment gets the verify path; the chained tasks keep the default result path and carry the built-in service retrier followed by the resilient one |
| `LoopDockerImageTask.LoopDockerImageTask.AddCatch` | src/construct/LoopDockerImageTask.ts:128-132 | appends the same catcher to executionTask and verifyTask, leaves both DockerImageTask fragments unchanged, and returns this |

## Left out

- Function creation: the Lambda and container-image functions, their aliases, versions, asset paths, payloads and `functionProps`. This is deployment plumbing, and none of it affects the routing.
- The jitter calculator's algorithm is external code. It is a function parameter from `{RetryCount, Backoff}` to seconds.
- The shape of a Lambda invoke response is not modelled. The jitter calculator returns the seconds directly, and the choice of a loop is given the status string found at the status path. It is assumed present; a missing field, which is a run-time error of the engine, is not modelled.
- The engine's run-time semantics are not modelled: retry counting, re-entering the Parallel state on a failure, timers, and general JSONPath evaluation. The Parallel state's `comment` and the catch props are recorded but not applied; its `inputPath` and `resultPath` are applied only when they are `$` (see `Execute` below).
- RetryWithJitterTask.Execute: models one attempt that does not fail. Retries driven by the retrier are not modelled. With an `inputPath` or `resultPath` other than `$` it returns `None`. Then `tryProcess` would see only the selected part of the input, and `$[0]` would read the state's input merged with the branch results; general JSONPath selection is not modelled.
- RetryWithJitterTask.RetryWithJitterTask.constructor: builds the Parallel state for every prefix. The source throws instead when two of the four construct ids are equal: for an undefined or omitted prefix, or a prefix of 65 or more characters. `NamesDistinctIff` states exactly when that happens.
- Sfn.NewLambdaInvoke: the built-in retrier's error list is the one the source's comment names. Its interval, attempts and backoff (2 s, 6, 2) are the construct library's, and later library versions may add errors to the list.
- `CodeTask` is not part of this model. The `Exec` and `Verify` states of `LoopTask` are task states with their result paths and catchers; any retriers `CodeTask` adds are not modelled.
- The `ResilientLambdaTask` that `RetryWithJitterTask` imports from its own directory is not part of this model. The retrier of the `CalculateJitter` task is not recorded.
- `DockerImageTask`'s function defaults and their override by the props spread are not modelled, nor is its own `addCatch`, which no modelled code calls.
- `console.log` in the catch of `createStateName` is I/O.
- String lengths are counted in characters, whereas JavaScript's `.length` counts UTF-16 code units. The two differ only outside the Basic Multilingual Plane.
- `waitSeconds` and durations are natural numbers of seconds. Negative or fractional values are not modelled.
- `src/index.ts` only re-exports.
