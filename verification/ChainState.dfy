/** The recorded progress of one run and the transitions that rewrite it. Each transition is one
    critical section of the snapshot mutex; a transition whose guard fails leaves by an exception. */
module ChainState {
  import opened Domain

  type Time = int

  datatype Context = Context(exchanger: Exchanger, asset: string, quantity: real)

  datatype Operation =
    | BuyCrypto(outAsset: string)
    | SellCrypto(outAsset: string)
    | PlaceOrder(outAsset: string, side: Side)
    | PlaceOco(outAsset: string, side: Side)
    | SendTo(destination: Exchanger)

  datatype AcceptedIds = AcceptedIds(orderId: Option<string>, ocoGroupId: Option<string>,
                                     takeProfitOrderId: Option<string>, stopLossOrderId: Option<string>)

  const NO_IDS := AcceptedIds(None, None, None, None)

  datatype StepStatus = StepPending | StepRunning | StepAwaiting | StepSucceeded | StepFailed | StepCancelled

  datatype Step = Step(
    operation: Operation,
    status: StepStatus,
    input: Option<Context>,
    output: Option<Context>,
    ids: AcceptedIds,
    startedAt: Option<Time>,
    finishedAt: Option<Time>,
    error: string)
  {
    predicate IsActive() {
      status in {StepRunning, StepAwaiting}
    }
  }

  datatype ChainStatus = ChainPending | ChainRunning | ChainCompleted | ChainFailed | ChainCancelled

  datatype Chain = Chain(
    status: ChainStatus,
    initial: Context,
    current: Context,
    currentStep: Option<nat>,
    createdAt: Time,
    startedAt: Option<Time>,
    updatedAt: Time,
    finishedAt: Option<Time>,
    error: string,
    revision: nat,
    steps: seq<Step>)
  {
    function Touch(now: Time): Chain {
      this.(updatedAt := now, revision := revision + 1)
    }

    function StartExecution(now: Time): Result<Chain> {
      if status != ChainPending then Err("Operation chain can only be executed once")
      else Ok(this.(status := ChainRunning, startedAt := Some(now)).Touch(now))
    }

    function StartStep(index: nat, context: Context, now: Time): Result<Chain> {
      if status != ChainRunning then Err("Operation chain is not running")
      else if index >= |steps| then Err("Operation-chain step index is out of range")
      else if steps[index].status != StepPending then Err("Operation-chain step is not pending")
      else
        var step := steps[index].(status := StepRunning, input := Some(context), startedAt := Some(now));
        Ok(this.(currentStep := Some(index), steps := steps[index := step]).Touch(now))
    }

    function MarkStepAwaiting(index: nat, ids: AcceptedIds, now: Time): Result<Chain> {
      if status != ChainRunning then Err("Operation chain is not running")
      else if currentStep != Some(index) then Err("Operation-chain progress does not match the current step")
      else if index >= |steps| then Err("Operation-chain step index is out of range")
      else if steps[index].status != StepRunning then Err("Operation-chain step is not running")
      else
        var step := steps[index].(status := StepAwaiting, ids := ids);
        Ok(this.(steps := steps[index := step]).Touch(now))
    }

    function FinishStep(index: nat, context: Context, now: Time): Result<Chain> {
      if status != ChainRunning then Err("Operation chain is not running")
      else if currentStep != Some(index) then Err("Operation-chain completion does not match the current step")
      else if index >= |steps| then Err("Operation-chain step index is out of range")
      else if !steps[index].IsActive() then Err("Operation-chain step is not active")
      else
        var step := steps[index].(status := StepSucceeded, output := Some(context), finishedAt := Some(now));
        Ok(this.(current := context, steps := steps[index := step]).Touch(now))
    }

    function FinishExecution(now: Time): Result<Chain> {
      if status != ChainRunning then Err("Operation chain is not running")
      else Ok(this.(status := ChainCompleted, currentStep := None, finishedAt := Some(now)).Touch(now))
    }

    function CancelPendingExecution(now: Time): Result<Chain> {
      if status != ChainPending then Err("Pending operation chain is not cancellable")
      else Ok(this.(status := ChainCancelled, currentStep := None, finishedAt := Some(now)).Touch(now))
    }

    function CancelExecutionBetweenSteps(now: Time): Result<Chain> {
      if status != ChainRunning then Err("Running operation chain is not cancellable")
      else Ok(this.(status := ChainCancelled, currentStep := None, finishedAt := Some(now)).Touch(now))
    }

    function CancelStepAndExecution(index: nat, context: Context, now: Time): Result<Chain> {
      if status != ChainRunning then Err("Running operation chain is not cancellable")
      else if index >= |steps| then Err("Operation-chain step index is out of range")
      else if !steps[index].IsActive() then Err("Operation-chain step is not cancellable")
      else
        var step := steps[index].(status := StepCancelled, finishedAt := Some(now));
        Ok(this.(status := ChainCancelled, current := context, currentStep := None, finishedAt := Some(now),
                 steps := steps[index := step]).Touch(now))
    }

    function FailExecution(index: nat, message: string, context: Context, now: Time): Result<Chain> {
      if index >= |steps| then Err("Operation-chain step index is out of range")
      else
        var step := steps[index].(status := StepFailed, finishedAt := Some(now), error := message);
        Ok(this.(status := ChainFailed, current := context, currentStep := None, error := message,
                 finishedAt := Some(now), steps := steps[index := step]).Touch(now))
    }
  }

  function FreshStep(operation: Operation): Step {
    Step(operation, StepPending, None, None, NO_IDS, None, None, "")
  }

  function FreshChain(operations: seq<Operation>, initial: Context, now: Time): Chain {
    Chain(ChainPending, initial, initial, None, now, None, now, None, "", 0,
          seq(|operations|, i requires 0 <= i < |operations| => FreshStep(operations[i])))
  }

  // ---- The shape every recorded snapshot has ----

  /** Revisions that a succeeded step adds: started, awaiting (orders only), finished. */
  function StepRevisions(operation: Operation): nat {
    if operation.SendTo? then 2 else 3
  }

  function RevisionsOf(operations: seq<Operation>): nat {
    if operations == [] then 0
    else RevisionsOf(operations[..|operations| - 1]) + StepRevisions(operations[|operations| - 1])
  }

  function CountSends(operations: seq<Operation>): nat {
    if operations == [] then 0
    else CountSends(operations[1..]) + if operations[0].SendTo? then 1 else 0
  }

  predicate PendingStep(step: Step) {
    step == FreshStep(step.operation)
  }

  predicate SucceededStep(step: Step) {
    && step.status == StepSucceeded && step.error == ""
    && step.input.Some? && step.output.Some? && step.startedAt.Some? && step.finishedAt.Some?
  }

  /** A step that was started and has no output: running, awaiting, failed or cancelled. */
  predicate StartedStep(step: Step) {
    && step.status in {StepRunning, StepAwaiting, StepFailed, StepCancelled}
    && step.input.Some? && step.output.None? && step.startedAt.Some?
    && (step.finishedAt.None? <==> step.IsActive())
    && (step.status != StepFailed ==> step.error == "")
  }

  /** The context that the first `done` succeeded steps have produced. */
  function ContextAfter(chain: Chain, done: nat): Option<Context>
    requires done <= |chain.steps|
  {
    if done == 0 then Some(chain.initial) else chain.steps[done - 1].output
  }

  /** The first `done` steps succeeded, `started` says whether the next one was started, and every
      later step is untouched; each started step received what the one before it produced. */
  predicate ProgressAt(chain: Chain, done: nat, started: bool) {
    && done <= |chain.steps|
    && (started ==> done < |chain.steps| && StartedStep(chain.steps[done])
                    && chain.steps[done].input == ContextAfter(chain, done))
    && (forall j :: 0 <= j < done ==>
          SucceededStep(chain.steps[j]) && chain.steps[j].input == ContextAfter(chain, j))
    && (forall j :: done + (if started then 1 else 0) <= j < |chain.steps| ==> PendingStep(chain.steps[j]))
    && ContextAfter(chain, done) == Some(chain.current)
  }

  /** Run status, current index, times and error agree with the progress of the steps. */
  predicate StatusAgrees(chain: Chain, done: nat, started: bool) {
    && ProgressAt(chain, done, started)
    && (chain.finishedAt.None? <==> chain.status in {ChainPending, ChainRunning})
    && (chain.status != ChainFailed ==> chain.error == "")
    && match chain.status {
         case ChainPending => done == 0 && !started && chain.startedAt.None? && chain.currentStep.None?
         case ChainRunning =>
           && chain.startedAt.Some?
           && (started ==> chain.steps[done].IsActive())
           && chain.currentStep == (if started then Some(done) else if done == 0 then None else Some(done - 1))
         case ChainCompleted =>
           chain.startedAt.Some? && done == |chain.steps| && !started && chain.currentStep.None?
         case ChainFailed =>
           && chain.startedAt.Some? && started && chain.currentStep.None?
           && chain.steps[done].status == StepFailed && chain.steps[done].error == chain.error
         case ChainCancelled =>
           && chain.currentStep.None?
           && (if chain.startedAt.None? then done == 0 && !started else done < |chain.steps|)
           && (started ==> chain.steps[done].status == StepCancelled)
       }
  }

  ghost predicate WellShaped(chain: Chain) {
    exists done: nat, started: bool :: StatusAgrees(chain, done, started)
  }
}

/** The run object's snapshot: each private transition of the chain, performed in place. */
module OperationChainObject {
  import opened Domain
  import opened ChainState

  class OperationChain {
    var context: Context
    var status: ChainStatus
    const initialContext: Context
    var currentContext: Context
    var currentStepIndex: Option<nat>
    const createdAt: Time
    var startedAt: Option<Time>
    var updatedAt: Time
    var finishedAt: Option<Time>
    var error: string
    var revision: nat
    var steps: seq<Step>

    function Snapshot(): Chain
      reads this
    {
      Chain(status, initialContext, currentContext, currentStepIndex, createdAt, startedAt,
            updatedAt, finishedAt, error, revision, steps)
    }

    constructor (operations: seq<Operation>, initial: Context, now: Time)
      ensures Snapshot() == FreshChain(operations, initial, now) && context == initial
    {
      context, initialContext, currentContext := initial, initial, initial;
      status, currentStepIndex, error, revision := ChainPending, None, "", 0;
      createdAt, updatedAt, startedAt, finishedAt := now, now, None, None;
      var records: seq<Step> := [];
      for index := 0 to |operations|
        invariant |records| == index
        invariant forall j :: 0 <= j < index ==> records[j] == FreshStep(operations[j])
      {
        records := records + [FreshStep(operations[index])];
      }
      steps := records;
    }

    /** What a transition leaves behind: the new snapshot, or the exception and nothing else. */
    ghost predicate Became(next: Result<Chain>, before: Chain, thrown: Option<string>)
      reads this
    {
      match next
      case Ok(chain) => thrown == None && Snapshot() == chain
      case Err(message) => thrown == Some(message) && Snapshot() == before
    }

    method UpdateSnapshotTime(now: Time)
      modifies this
      ensures Snapshot() == old(Snapshot()).Touch(now) && context == old(context)
    {
      updatedAt := now;
      revision := revision + 1;
    }

    method StartExecution(now: Time) returns (thrown: Option<string>)
      modifies this
      ensures Became(old(Snapshot()).StartExecution(now), old(Snapshot()), thrown) && context == old(context)
    {
      if status != ChainPending { return Some("Operation chain can only be executed once"); }
      status := ChainRunning;
      startedAt := Some(now);
      UpdateSnapshotTime(now);
      return None;
    }

    method StartStep(index: nat, now: Time) returns (thrown: Option<string>)
      modifies this
      ensures Became(old(Snapshot()).StartStep(index, context, now), old(Snapshot()), thrown)
      ensures context == old(context)
    {
      if status != ChainRunning { return Some("Operation chain is not running"); }
      if index >= |steps| { return Some("Operation-chain step index is out of range"); }
      if steps[index].status != StepPending { return Some("Operation-chain step is not pending"); }
      currentStepIndex := Some(index);
      steps := steps[index := steps[index].(status := StepRunning, input := Some(context), startedAt := Some(now))];
      UpdateSnapshotTime(now);
      return None;
    }

    method MarkStepAwaiting(index: nat, ids: AcceptedIds, now: Time) returns (thrown: Option<string>)
      modifies this
      ensures Became(old(Snapshot()).MarkStepAwaiting(index, ids, now), old(Snapshot()), thrown)
      ensures context == old(context)
    {
      if status != ChainRunning { return Some("Operation chain is not running"); }
      if currentStepIndex != Some(index) { return Some("Operation-chain progress does not match the current step"); }
      if index >= |steps| { return Some("Operation-chain step index is out of range"); }
      if steps[index].status != StepRunning { return Some("Operation-chain step is not running"); }
      steps := steps[index := steps[index].(status := StepAwaiting, ids := ids)];
      UpdateSnapshotTime(now);
      return None;
    }

    method FinishStep(index: nat, now: Time) returns (thrown: Option<string>)
      modifies this
      ensures Became(old(Snapshot()).FinishStep(index, context, now), old(Snapshot()), thrown)
      ensures context == old(context)
    {
      if status != ChainRunning { return Some("Operation chain is not running"); }
      if currentStepIndex != Some(index) { return Some("Operation-chain completion does not match the current step"); }
      if index >= |steps| { return Some("Operation-chain step index is out of range"); }
      if !steps[index].IsActive() { return Some("Operation-chain step is not active"); }
      currentContext := context;
      steps := steps[index := steps[index].(status := StepSucceeded, output := Some(currentContext),
                                            finishedAt := Some(now))];
      UpdateSnapshotTime(now);
      return None;
    }

    method FinishExecution(now: Time) returns (thrown: Option<string>)
      modifies this
      ensures Became(old(Snapshot()).FinishExecution(now), old(Snapshot()), thrown) && context == old(context)
    {
      if status != ChainRunning { return Some("Operation chain is not running"); }
      status := ChainCompleted;
      currentStepIndex := None;
      finishedAt := Some(now);
      UpdateSnapshotTime(now);
      return None;
    }

    method CancelPendingExecution(now: Time) returns (thrown: Option<string>)
      modifies this
      ensures Became(old(Snapshot()).CancelPendingExecution(now), old(Snapshot()), thrown) && context == old(context)
    {
      if status != ChainPending { return Some("Pending operation chain is not cancellable"); }
      status := ChainCancelled;
      currentStepIndex := None;
      finishedAt := Some(now);
      UpdateSnapshotTime(now);
      return None;
    }

    method CancelExecutionBetweenSteps(now: Time) returns (thrown: Option<string>)
      modifies this
      ensures Became(old(Snapshot()).CancelExecutionBetweenSteps(now), old(Snapshot()), thrown)
      ensures context == old(context)
    {
      if status != ChainRunning { return Some("Running operation chain is not cancellable"); }
      status := ChainCancelled;
      currentStepIndex := None;
      finishedAt := Some(now);
      UpdateSnapshotTime(now);
      return None;
    }

    method CancelStepAndExecution(index: nat, now: Time) returns (thrown: Option<string>)
      modifies this
      ensures Became(old(Snapshot()).CancelStepAndExecution(index, context, now), old(Snapshot()), thrown)
      ensures context == old(context)
    {
      if status != ChainRunning { return Some("Running operation chain is not cancellable"); }
      if index >= |steps| { return Some("Operation-chain step index is out of range"); }
      if !steps[index].IsActive() { return Some("Operation-chain step is not cancellable"); }
      steps := steps[index := steps[index].(status := StepCancelled, finishedAt := Some(now))];
      status := ChainCancelled;
      currentContext := context;
      currentStepIndex := None;
      finishedAt := Some(now);
      UpdateSnapshotTime(now);
      return None;
    }

    method FailExecution(index: nat, message: string, now: Time) returns (thrown: Option<string>)
      modifies this
      ensures Became(old(Snapshot()).FailExecution(index, message, context, now), old(Snapshot()), thrown)
      ensures context == old(context)
    {
      if index >= |steps| { return Some("Operation-chain step index is out of range"); }
      steps := steps[index := steps[index].(status := StepFailed, finishedAt := Some(now), error := message)];
      status := ChainFailed;
      currentContext := context;
      currentStepIndex := None;
      error := message;
      finishedAt := Some(now);
      UpdateSnapshotTime(now);
      return None;
    }
  }
}
