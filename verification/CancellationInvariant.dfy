/** What holds in every state of every interleaving: the shared flags, the verdict, the recorded
    chain and the log, each as a function of where the two threads stand. */
module CancellationInvariant {
  import opened Domain
  import opened OrderStatus
  import opened CoordinatorState
  import opened ChainState
  import opened ChainShape
  import opened CancellationProtocol

  // ---- Regions of the executor ----

  /** The chain has its terminal status. */
  predicate Ended(pc: Pc) {
    pc.FinishingChain? || pc.ChoosingException? || pc.Done?
  }

  /** Holding an accepted order that no answer has ended yet. */
  predicate HoldsOrder(pc: Pc) {
    pc.Reporting? || pc.TakingToken? || pc.Waiting? || pc.Completing?
  }

  predicate HasStep(pc: Pc) {
    InOperation(pc) || Handling(pc) || pc.StartingStep? || pc.StartingOperation? || pc.FinishingStep?
    || pc.CheckingAfterStep?
  }

  /** The step `j` is the last one this run starts, and its order has been registered. */
  predicate Final(operations: seq<Operation>, pc: Pc, j: nat) {
    || ((HoldsOrder(pc) || pc.Leaving? || Handling(pc) || pc.FinishingStep? || pc.CheckingAfterStep?)
        && StepIndex(pc) == j)
    || (pc.CheckingStep? && pc.i == j + 1 == |operations|)
    || pc.CancellingBetween? || pc.FinishingRun? || Ended(pc)
  }

  /** No placement can follow in this run. */
  predicate PastPlacing(operations: seq<Operation>, pc: Pc) {
    || pc.Registering? || HoldsOrder(pc) || pc.Leaving? || Handling(pc) || pc.FinishingStep? || pc.CheckingAfterStep?
    || pc.CancellingPending? || pc.CancellingBetween? || pc.FinishingRun? || Ended(pc) || pc.Escaped?
    || (pc.CheckingStep? && pc.i >= |operations|)
  }

  // ---- Shared flags ----

  predicate IndexesInRange(operations: seq<Operation>, s: System) {
    && (HasStep(s.pc) ==> StepIndex(s.pc) < |operations|)
    && (s.pc.CheckingStep? ==> s.pc.i <= |operations|)
    && !s.pc.Escaped?
  }

  predicate FlagsFollowExecutor(operations: seq<Operation>, s: System)
    requires IndexesInRange(operations, s)
  {
    var c := s.coordinator;
    && (c.operationActive <==> InOperation(s.pc))
    && (c.chainFinished <==> s.pc.ChoosingException? || s.pc.Done?)
    && (c.actionMayBeRegistered ==> InOperation(s.pc) && c.currentAction.NoAction?)
    && (s.pc.CheckingOperation? || s.pc.Placing? || s.pc.Registering? ==>
          c.currentAction.NoAction? && c.actionMayBeRegistered == !operations[StepIndex(s.pc)].SendTo?)
    && (c.actionCompletedNaturally ==> !Handling(s.pc) && (InOperation(s.pc) ==> s.pc.Leaving? && s.pc.exit.Completed?))
  }

  /** The registered order of the operation in progress, and the log of orders. */
  predicate OrdersFollowExecutor(operations: seq<Operation>, s: System)
    requires IndexesInRange(operations, s)
  {
    var c := s.coordinator;
    var registered := s.log.registered;
    && (!InOperation(s.pc) ==> c.currentAction.NoAction?)
    && (s.pc.Registering? ==> PlacementContract(operations[s.pc.i], s.pc.action))
    && (s.pc.Reporting? || s.pc.TakingToken? || s.pc.Waiting? ==>
          s.pc.i in registered && registered[s.pc.i] == s.pc.action == c.currentAction)
    && (s.pc.Completing? ==> s.pc.i in registered && registered[s.pc.i] == c.currentAction
                             && s.pc.i in s.log.fills && s.log.fills[s.pc.i] == s.pc.filled)
    && (s.pc.Leaving? ==>
          && (!c.currentAction.NoAction? <==> s.pc.i in registered && !s.pc.exit.Completed?)
          && (!c.currentAction.NoAction? ==> c.currentAction == registered[s.pc.i])
          && (s.pc.exit.Interrupted? ==> s.pc.i in registered)
          && (s.pc.exit.SawRequest? ==> s.pc.i !in registered))
    && (Handling(s.pc) && s.log.exit.Some? ==>
          && (s.log.exit.value.Interrupted? ==> s.pc.i in registered)
          && (s.log.exit.value.SawRequest? ==> s.pc.i !in registered))
    && (s.pc.Waiting? ==> s.pc.source == c.waitSource)
  }

  /** The operation's answer is in but the step is not recorded as succeeded yet. */
  predicate Succeeding(pc: Pc, j: nat) {
    (pc.Completing? || pc.FinishingStep? || (pc.Leaving? && pc.exit.Completed?)) && StepIndex(pc) == j
  }

  /** The log holds an order for exactly the steps that placed one, in the executor's order. */
  predicate OrdersLogged(operations: seq<Operation>, s: System) {
    var registered := s.log.registered;
    && s.log.accepted == (if s.pc.Registering? then registered[s.pc.i := s.pc.action] else registered)
    && (forall j :: j in registered ==>
          j < |operations| && PlacementContract(operations[j], registered[j]) && MayHaveOrder(s.pc, j))
    && (forall j :: j in s.log.fills ==> j in registered && WaitContract(registered[j], s.log.fills[j]))
    && ((InOperation(s.pc) || Handling(s.pc)) && StepIndex(s.pc) in s.log.fills ==> Succeeding(s.pc, StepIndex(s.pc)))
  }

  /** Whether step `j` can have registered an order by the time the executor stands at `pc`. */
  predicate MayHaveOrder(pc: Pc, j: nat) {
    if pc.AtStart? || pc.CancellingPending? || pc.StartingRun? then false
    else if pc.CheckingStep? || pc.StartingStep? || pc.StartingOperation? || pc.CheckingOperation?
            || pc.Placing? || pc.Registering? then j < StepIndex(pc)
    else HasStep(pc) ==> j <= StepIndex(pc)
  }

  // ---- The canceller and the verdict ----

  predicate BeforeRecord(worker: Worker) {
    worker.NotRequested? || worker.Spawning? || worker.Entering? || worker.WaitingForAction?
    || worker.Calling? || worker.Recording?
  }

  predicate FlagsFollowWorker(s: System) {
    var c := s.coordinator;
    && (c.cancellationRequested <==> !s.worker.NotRequested?)
    && (s.log.requestedAt.Some? <==> c.cancellationRequested)
    && (c.workerRunning <==>
          || s.worker.WaitingForAction? || s.worker.Calling? || s.worker.Finishing?
          || (s.worker.Recording? && s.worker.threaded) || (s.worker.Signalling? && s.worker.threaded))
    && (s.worker.NotRequested? || s.worker.Spawning? || s.worker.Entering? || s.worker.WaitingForAction? ==>
          s.log.capturedAt.None? && s.log.report.None? && !s.log.threadFailed)
    && (s.worker.Calling? ==> s.log.capturedAt.Some? && s.log.report.None?)
    && (s.log.threadFailed ==>
            s.log.capturedAt.None? && (s.worker.Recording? || s.worker.Signalling? || s.worker.Gone?))
    && (s.worker.Recording? ==>
          if s.worker.threaded then s.log.capturedAt.Some? && s.log.report == Some(s.worker.report)
          else s.log.threadFailed && s.worker.report.Failure?)
    && (s.worker.Signalling? ==> s.worker.threaded == s.log.capturedAt.Some? == !s.log.threadFailed)
    && (!BeforeRecord(s.worker) && s.log.capturedAt.Some? ==> s.log.report.Some?)
    && (s.log.report.Some? ==> s.log.capturedAt.Some?)
  }

  /** A stop was requested, or is about to be, on the source of the operation in progress. */
  predicate LiveStop(s: System) {
    s.coordinator.waitSource in s.coordinator.stopped || s.worker == Signalling(s.coordinator.waitSource, true)
    || s.worker == Signalling(s.coordinator.waitSource, false)
  }

  predicate VerdictFollowsWorker(s: System) {
    var c := s.coordinator;
    && (forall source :: source in c.stopped ==> source <= c.waitSource)
    && (s.worker.Signalling? ==> c.stopped == {} && s.worker.source <= c.waitSource)
    && (BeforeRecord(s.worker) ==>
          c.stopped == {} && (c.verdict == Undecided || (c.verdict == NaturalCompletion && c.actionCompletedNaturally)))
    && (LiveStop(s) && !c.actionCompletedNaturally ==> c.verdict in {ConfirmedCancelled, CancellationFailed})
    && (c.verdict == ConfirmedCancelled ==> s.log.capturedAt.Some? && s.log.report == Some(FoundCancelled))
    && (c.verdict == CancellationFailed && s.log.capturedAt.Some? ==> s.log.report == Some(Failure(c.failure)))
    && (c.verdict == NaturalCompletion ==> c.actionCompletedNaturally || s.log.report == Some(FoundFilled))
    && (s.log.capturedAt.Some? && c.actionCompletedNaturally ==> c.verdict == NaturalCompletion)
    && (s.log.capturedAt.Some? && !BeforeRecord(s.worker) ==> c.verdict != Undecided)
  }

  predicate CaptureFollows(operations: seq<Operation>, s: System) {
    s.log.capturedAt.Some? ==>
      && s.log.capturedAt.value in s.log.registered
      && Final(operations, s.pc, s.log.capturedAt.value)
      && (s.worker.Calling? ==> s.worker.action == s.log.registered[s.log.capturedAt.value])
      && (s.log.capturedAt.value in s.log.fills ==> s.pc.Completing? || s.coordinator.actionCompletedNaturally)
  }

  /** The worker left its wait with nothing to cancel. */
  predicate LeftWithoutAction(s: System) {
    (s.worker.Finishing? || s.worker.Gone?) && s.log.capturedAt.None? && !s.log.threadFailed
  }

  predicate NothingAfterEmptyLeave(s: System) {
    LeftWithoutAction(s) && InOperation(s.pc) ==>
      s.pc.CheckingOperation? || (s.pc.Leaving? && s.pc.exit.SawRequest?)
  }

  predicate RequestBoundsPlacing(operations: seq<Operation>, s: System) {
    && (s.coordinator.cancellationRequested && s.pc.Placing? ==> s.log.requestedAt == Some(s.pc))
    && (s.log.acceptedAfterRequest != {} ==>
          && s.log.requestedAt.Some? && s.log.requestedAt.value.Placing?
          && s.log.acceptedAfterRequest == {s.log.requestedAt.value.i}
          && PastPlacing(operations, s.pc))
  }

  // ---- How an exceptional end is decided ----

  /** The exit an exception handler of `execute` is working on. */
  predicate HandlesExit(s: System) {
    match s.pc
    case Resolving(_, error) => s.log.exit == Some(Threw(error))
    case TestingConfirmed(_, exit) => s.log.exit == Some(exit) && (exit.Interrupted? || exit.Threw?)
    case TestingFailed(_, exit) => s.log.exit == Some(exit) && (exit.Interrupted? || exit.Threw?)
    case ReadingFailure(_, exit) => s.log.exit == Some(exit) && (exit.Interrupted? || exit.Threw?)
    case FailingStep(_, _, exit) => s.log.exit == Some(exit) && !exit.Completed? && !exit.SawRequest?
    case CancellingStep(_) =>
      s.log.exit == Some(SawRequest) || (s.log.exit.Some? && (s.log.exit.value.Interrupted? || s.log.exit.value.Threw?))
    case Leaving(_, exit) => s.log.exit == Some(exit)
    case _ => Ended(s.pc) || s.log.exit in {None, Some(Completed)}
  }

  /** The text an exceptional end records: the failure of the cancellation if there is one. */
  predicate FailureText(s: System, exit: Exit, error: string) {
    match exit
    case Interrupted(_) => s.coordinator.verdict == CancellationFailed && error == s.coordinator.failure
    case Threw(own) =>
      || (s.coordinator.verdict == CancellationFailed && error == s.coordinator.failure)
      || (error == own && (s.log.capturedAt.Some? ==> s.coordinator.verdict == NaturalCompletion))
    case ThrewNonStandard => error == "Operation failed with a non-standard exception"
    case _ => false
  }

  predicate VerdictReachesHandler(s: System) {
    var c := s.coordinator;
    && (s.pc.Leaving? && s.pc.exit.Interrupted? ==> c.verdict in {ConfirmedCancelled, CancellationFailed})
    && (Handling(s.pc) && s.log.exit.Some? && s.log.exit.value.Interrupted? ==>
          c.verdict in {ConfirmedCancelled, CancellationFailed})
    && (Handling(s.pc) && !s.pc.Resolving? && s.log.capturedAt.Some? && s.log.exit.Some? && s.log.exit.value.Threw? ==>
          c.verdict != Undecided)
    && (s.pc.TestingFailed? ==> c.verdict != ConfirmedCancelled)
    && (s.pc.ReadingFailure? ==> c.verdict == CancellationFailed)
    && (s.pc.CancellingStep? ==> s.log.exit == Some(SawRequest) || c.verdict == ConfirmedCancelled)
    && (s.pc.FailingStep? ==> FailureText(s, s.pc.exit, s.pc.error))
  }

  /** The terminal record matches what ended the last started step. */
  predicate EndAgrees(s: System) {
    var c := s.coordinator;
    Ended(s.pc) ==>
      && (s.chain.status == ChainFailed ==>
            s.log.exit.Some? && !s.log.exit.value.Completed? && !s.log.exit.value.SawRequest?
            && FailureText(s, s.log.exit.value, s.chain.error))
      && (s.log.exit.Some?
          && (s.log.exit.value.Interrupted? || s.log.exit.value.Threw? || s.log.exit.value.ThrewNonStandard?) ==>
            && !c.actionCompletedNaturally
            && (s.chain.status == ChainFailed || (s.chain.status == ChainCancelled && c.verdict == ConfirmedCancelled)))
      && (match s.pc
          case FinishingChain(ending, exit) =>
            if s.chain.status == ChainFailed then ending == Raised(s.chain.error) && s.log.exit == Some(exit)
            else ending == Returned
          case ChoosingException(error, original) =>
            s.chain.status == ChainFailed && error == s.chain.error && s.log.exit == Some(Threw(original))
          case Done(ending) =>
            ending == if s.chain.status == ChainFailed then Raised(s.chain.error) else Returned
          case _ => true)
  }

  // ---- The recorded chain ----

  /** Where an executor position stands with respect to the recorded steps. */
  function PositionOf(operations: seq<Operation>, pc: Pc): Position {
    match pc
    case AtStart => Unstarted
    case CancellingPending => Unstarted
    case StartingRun => Unstarted
    case CheckingStep(i) => Between(i)
    case StartingStep(i) => Between(i)
    case CheckingAfterStep(i) => Between(i + 1)
    case FinishingRun => Between(|operations|)
    case CancellingBetween => Stopping
    case FinishingChain(_, _) => Over
    case ChoosingException(_, _) => Over
    case Done(_) => Over
    case _ => Inside(StepIndex(pc))
  }

  ghost predicate ChainFollowsExecutor(operations: seq<Operation>, s: System) {
    ChainAt(operations, s.chain, PositionOf(operations, s.pc))
  }

  /** Whether the current step has been marked as awaiting its order. */
  predicate AwaitingFollowsExecutor(operations: seq<Operation>, s: System) {
    HasStep(s.pc) && StepIndex(s.pc) < |s.chain.steps| ==>
      var step := s.chain.steps[StepIndex(s.pc)];
      && ((s.pc.StartingOperation? || s.pc.CheckingOperation? || s.pc.Placing? || s.pc.Registering?
           || s.pc.Reporting?) ==> step.status == StepRunning)
      && (s.pc.TakingToken? || s.pc.Waiting? || s.pc.Completing? ==> step.status == StepAwaiting)
      && ((s.pc.Leaving? && s.pc.exit.Completed?) || s.pc.FinishingStep? ==>
            (step.status == StepAwaiting <==> !step.operation.SendTo?))
  }

  /** What a step's context becomes: a function of its input and of the fill the exchange reported. */
  predicate StepResult(operation: Operation, fills: map<nat, OrderInfo>, j: nat, input: Context, output: Context) {
    if operation.SendTo? then output == input.(exchanger := operation.destination)
    else j in fills && output == ContextAfterFill(operation, input, fills[j])
  }

  /** The executor's own context runs ahead of the record only between an operation and finishStep. */
  predicate ContextFollows(operations: seq<Operation>, s: System)
    requires IndexesInRange(operations, s)
  {
    if (s.pc.Leaving? && s.pc.exit.Completed?) || s.pc.FinishingStep?
    then StepResult(operations[s.pc.i], s.log.fills, s.pc.i, s.chain.current, s.context)
    else s.context == s.chain.current
  }

  /** Each recorded step status is backed by what the exchange reported for that step. */
  predicate StepRecorded(operations: seq<Operation>, s: System, j: nat)
    requires j < |operations| && j < |s.chain.steps|
  {
    var step := s.chain.steps[j];
    && (step.status == StepSucceeded && step.input.Some? && step.output.Some? ==>
          StepResult(operations[j], s.log.fills, j, step.input.value, step.output.value))
    && (step.status == StepCancelled && j in s.log.accepted ==>
          s.log.capturedAt == Some(j) && s.log.report == Some(FoundCancelled))
    && (j in s.log.fills ==> step.status == StepSucceeded || Succeeding(s.pc, j))
    && (j in s.log.accepted ==> step.status != StepPending)
  }

  predicate StepsRecorded(operations: seq<Operation>, s: System) {
    && |s.chain.steps| == |operations|
    && forall j :: 0 <= j < |operations| ==> StepRecorded(operations, s, j)
  }

  ghost predicate Inv(operations: seq<Operation>, s: System) {
    && IndexesInRange(operations, s)
    && FlagsFollowExecutor(operations, s)
    && OrdersFollowExecutor(operations, s)
    && OrdersLogged(operations, s)
    && FlagsFollowWorker(s)
    && VerdictFollowsWorker(s)
    && CaptureFollows(operations, s)
    && NothingAfterEmptyLeave(s)
    && RequestBoundsPlacing(operations, s)
    && HandlesExit(s)
    && VerdictReachesHandler(s)
    && EndAgrees(s)
    && ChainFollowsExecutor(operations, s)
    && AwaitingFollowsExecutor(operations, s)
    && ContextFollows(operations, s)
    && StepsRecorded(operations, s)
  }
}
