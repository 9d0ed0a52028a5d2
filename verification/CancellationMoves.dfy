/** What each step of the executor does, as a relation between the states before and after: the proofs
    that the invariant is kept look at these relations and not at the steps. */
module CancellationMoves {
  import opened Domain
  import opened OrderStatus
  import opened CoordinatorState
  import opened ChainState
  import opened ChainShape
  import opened CancellationProtocol
  import opened CancellationInvariant

  /** The canceller's position, its part of the log and the flags only it sets. */
  predicate WorkerSideKept(s: System, t: System) {
    && t.worker == s.worker
    && t.log.requestedAt == s.log.requestedAt && t.log.capturedAt == s.log.capturedAt
    && t.log.report == s.log.report && t.log.threadFailed == s.log.threadFailed
    && t.coordinator.cancellationRequested == s.coordinator.cancellationRequested
    && t.coordinator.workerRunning == s.coordinator.workerRunning
    && t.coordinator.stopped == s.coordinator.stopped
  }

  predicate VerdictKept(s: System, t: System) {
    && t.coordinator.verdict == s.coordinator.verdict && t.coordinator.failure == s.coordinator.failure
    && t.coordinator.actionCompletedNaturally == s.coordinator.actionCompletedNaturally
    && t.coordinator.waitSource == s.coordinator.waitSource
  }

  predicate OrdersKept(s: System, t: System) {
    && t.log.accepted == s.log.accepted && t.log.registered == s.log.registered && t.log.fills == s.log.fills
    && t.log.acceptedAfterRequest == s.log.acceptedAfterRequest
  }

  // ---- What the executor's steps do, apart from the chain ----

  /** Where an operation's step leads, and which exit it logs. */
  predicate OperationFlows(s: System, t: System, choice: Choice) {
    && (if t.pc.Leaving? then t.log.exit == Some(t.pc.exit) else t.log.exit == s.log.exit)
    && match s.pc
       case CheckingOperation(i) =>
         if s.coordinator.cancellationRequested then t.pc == Leaving(i, SawRequest) else t.pc == Placing(i)
       case Placing(i) =>
         || (choice.Accepts? && t.pc == Registering(i, choice.action))
         || (t.pc.Leaving? && t.pc.i == i && !t.pc.exit.Interrupted? && !t.pc.exit.SawRequest?
             && (t.pc.exit.Completed? ==> choice.Plain?))
       case Registering(i, action) => t.pc == Reporting(i, action) || (t.pc.Leaving? && t.pc.i == i && t.pc.exit.Threw?)
       case Reporting(i, action) => t.pc == TakingToken(i, action) || (t.pc.Leaving? && t.pc.i == i && t.pc.exit.Threw?)
       case TakingToken(i, action) => t.pc == Waiting(i, action, s.coordinator.waitSource)
       case Waiting(i, action, source) =>
         || (choice.Fills? && t.pc == Completing(i, choice.order))
         || (choice.Interrupts? && source in s.coordinator.stopped && t.pc == Leaving(i, Interrupted(choice.error)))
         || (choice.Throws? && t.pc == Leaving(i, Threw(choice.error)))
         || (choice.ThrowsNonStandard? && t.pc == Leaving(i, ThrewNonStandard))
       case Completing(i, _) => t.pc == Leaving(i, Completed)
       case Leaving(i, exit) => LeavingFlows(i, exit, t.pc)
       case _ => false
  }

  predicate LeavingFlows(i: nat, exit: Exit, next: Pc) {
    match exit
    case Completed => next == FinishingStep(i)
    case SawRequest => next == CancellingStep(i)
    case Interrupted(_) => next == TestingConfirmed(i, exit)
    case Threw(error) => next == Resolving(i, error)
    case ThrewNonStandard => next == FailingStep(i, "Operation failed with a non-standard exception", exit)
  }

  /** What an operation's step does to the coordinator. */
  predicate OperationCoordinates(s: System, t: System) {
    match s.pc
    case Registering(_, action) =>
      if t.pc.Reporting? then s.coordinator.RegisterAction(action) == Ok(t.coordinator)
      else s.coordinator.RegisterAction(action).Err? && t.coordinator == s.coordinator
    case Completing(_, _) => t.coordinator == s.coordinator.CompleteActionNaturally()
    case Leaving(_, _) => t.coordinator == s.coordinator.FinishOperation()
    case _ => t.coordinator == s.coordinator
  }

  /** What an operation's step enters in the log of orders. */
  predicate OperationLogs(s: System, t: System) {
    && t.log.accepted == (if t.pc.Registering? then s.log.accepted[t.pc.i := t.pc.action] else s.log.accepted)
    && t.log.registered == (if t.pc.Reporting? then s.log.registered[t.pc.i := t.pc.action] else s.log.registered)
    && t.log.fills == (if t.pc.Completing? then s.log.fills[t.pc.i := t.pc.filled] else s.log.fills)
    && t.log.acceptedAfterRequest
       == s.log.acceptedAfterRequest + if t.pc.Registering? && s.coordinator.cancellationRequested then {t.pc.i} else {}
  }

  predicate OperationMoves(s: System, t: System, choice: Choice) {
    && OperationFlows(s, t, choice) && OperationCoordinates(s, t) && OperationLogs(s, t)
    && t.worker == s.worker
    && t.log.requestedAt == s.log.requestedAt && t.log.capturedAt == s.log.capturedAt
    && t.log.report == s.log.report && t.log.threadFailed == s.log.threadFailed
    && (!s.pc.Placing? && !s.pc.Completing? ==> t.context == s.context)
    && (!s.pc.Reporting? ==> t.chain == s.chain)
  }

  lemma OperationMovesOn(operations: seq<Operation>, s: System, choice: Choice, now: Time)
    requires InOperation(s.pc) && ExecutorEnabled(operations, s, choice)
    ensures OperationMoves(s, OperationStep(operations, s, choice, now), choice)
  {
    if s.pc.CheckingOperation? {
      CheckingOperationMovesOn(operations, s, choice, now);
    } else if s.pc.TakingToken? {
      TakingTokenMovesOn(operations, s, choice, now);
    } else if s.pc.Leaving? {
      LeavingMovesOn(operations, s, choice, now);
    } else if s.pc.Registering? || s.pc.Reporting? || s.pc.Completing? {
      RecordingOperationMovesOn(operations, s, choice, now);
    } else {
      CallingOperationMovesOn(operations, s, choice, now);
    }
    hide OperationStep, OperationMoves, ExecutorEnabled;
  }

  lemma CheckingOperationMovesOn(operations: seq<Operation>, s: System, choice: Choice, now: Time)
    requires s.pc.CheckingOperation?
    ensures OperationMoves(s, OperationStep(operations, s, choice, now), choice)
  {
  }

  lemma TakingTokenMovesOn(operations: seq<Operation>, s: System, choice: Choice, now: Time)
    requires s.pc.TakingToken?
    ensures OperationMoves(s, OperationStep(operations, s, choice, now), choice)
  {
  }

  lemma LeavingMovesOn(operations: seq<Operation>, s: System, choice: Choice, now: Time)
    requires s.pc.Leaving?
    ensures OperationMoves(s, OperationStep(operations, s, choice, now), choice)
  {
    assert OperationStep(operations, s, choice, now) == StepLeft(s, s.pc.i, s.pc.exit);
    hide OperationStep;
    StepLeftMoves(s, choice);
    hide OperationMoves;
  }

  lemma StepLeftMoves(s: System, choice: Choice)
    requires s.pc.Leaving?
    ensures OperationMoves(s, StepLeft(s, s.pc.i, s.pc.exit), choice)
  {
    var t := StepLeft(s, s.pc.i, s.pc.exit);
    assert LeavingFlows(s.pc.i, s.pc.exit, t.pc) && t == s.(coordinator := s.coordinator.FinishOperation(), pc := t.pc);
    assert !t.pc.Leaving? && !t.pc.Registering? && !t.pc.Reporting? && !t.pc.Completing?;
    hide StepLeft, LeavingFlows;
  }

  lemma RecordingOperationMovesOn(operations: seq<Operation>, s: System, choice: Choice, now: Time)
    requires s.pc.Registering? || s.pc.Reporting? || s.pc.Completing?
    ensures OperationMoves(s, OperationStep(operations, s, choice, now), choice)
  {
  }

  /** The two steps that are calls to the exchange. */
  lemma CallingOperationMovesOn(operations: seq<Operation>, s: System, choice: Choice, now: Time)
    requires (s.pc.Placing? || s.pc.Waiting?) && ExecutorEnabled(operations, s, choice)
    ensures OperationMoves(s, OperationStep(operations, s, choice, now), choice)
  {
  }

  lemma OperationFrame(operations: seq<Operation>, s: System, choice: Choice, now: Time)
    requires InOperation(s.pc) && ExecutorEnabled(operations, s, choice)
    ensures var t := OperationStep(operations, s, choice, now);
      && WorkerSideKept(s, t)
      && (!s.pc.Completing? ==> VerdictKept(s, t))
  {
    OperationMovesOn(operations, s, choice, now);
    hide OperationStep, ExecutorEnabled, OperationFlows, OperationLogs;
  }

  lemma OperationRecordFrame(operations: seq<Operation>, s: System, choice: Choice, now: Time)
    requires InOperation(s.pc) && ExecutorEnabled(operations, s, choice)
    ensures var t := OperationStep(operations, s, choice, now);
      && (!s.pc.Placing? && !s.pc.Registering? && !s.pc.Waiting? ==> OrdersKept(s, t))
      && (!s.pc.Placing? && !s.pc.Completing? ==> t.context == s.context)
      && (!s.pc.Reporting? ==> t.chain == s.chain)
  {
    OperationMovesOn(operations, s, choice, now);
    hide OperationStep, ExecutorEnabled, OperationCoordinates;
  }

  lemma OperationKeepsIndexes(operations: seq<Operation>, s: System, choice: Choice, now: Time)
    requires IndexesInRange(operations, s) && InOperation(s.pc) && ExecutorEnabled(operations, s, choice)
    ensures var t := OperationStep(operations, s, choice, now);
      && StepIndex(t.pc) == StepIndex(s.pc) && (InOperation(t.pc) || Handling(t.pc) || t.pc.FinishingStep?)
      && IndexesInRange(operations, t)
  {
    OperationMovesOn(operations, s, choice, now);
    hide OperationStep, ExecutorEnabled, OperationCoordinates, OperationLogs;
  }

  /** Where a handler's step leads. */
  predicate HandlerFlows(s: System, next: Pc) {
    var c := s.coordinator;
    match s.pc
    case Resolving(i, error) => next == TestingConfirmed(i, Threw(error))
    case TestingConfirmed(i, exit) =>
      next == if c.verdict == ConfirmedCancelled then CancellingStep(i) else TestingFailed(i, exit)
    case TestingFailed(i, exit) =>
      next == if c.verdict == CancellationFailed then ReadingFailure(i, exit) else FailingStep(i, ExitText(exit), exit)
    case ReadingFailure(i, exit) => next == FailingStep(i, c.failure, exit)
    case CancellingStep(_) => next == FinishingChain(Returned, Completed) || next.Escaped?
    case FailingStep(_, error, exit) => next == FinishingChain(Raised(error), exit) || next.Escaped?
    case _ => false
  }

  lemma HandlerFrame(s: System, now: Time)
    requires Handling(s.pc)
    ensures var t := HandlerStep(s, now);
      && t.coordinator == s.coordinator && t.worker == s.worker && t.log == s.log && t.context == s.context
      && (!s.pc.CancellingStep? && !s.pc.FailingStep? ==>
              t.chain == s.chain && Handling(t.pc) && StepIndex(t.pc) == StepIndex(s.pc))
      && HandlerFlows(s, t.pc)
      && (s.pc.CancellingStep? ==>
            t == Advance(s, s.chain.CancelStepAndExecution(s.pc.i, s.context, now),
                         FinishingChain(Returned, Completed)))
      && (s.pc.FailingStep? ==>
            t == Advance(s, s.chain.FailExecution(s.pc.i, s.pc.error, s.context, now),
                         FinishingChain(Raised(s.pc.error), s.pc.exit)))
  {
  }

  /** Where a step of the loop leads. */
  predicate LoopFlows(s: System, next: Pc) {
    match s.pc
    case AtStart => next.CancellingPending? || next.StartingRun?
    case CancellingPending => next == FinishingChain(Returned, Completed) || next.Escaped?
    case StartingRun => next == CheckingStep(0) || next.Escaped?
    case CheckingStep(i) => next.FinishingRun? || next.CancellingBetween? || next == StartingStep(i)
    case CancellingBetween => next == FinishingChain(Returned, Completed) || next.Escaped?
    case StartingStep(i) => next == StartingOperation(i) || next.Escaped?
    case StartingOperation(i) => next == CheckingOperation(i) || next.Escaped?
    case FinishingStep(i) => next == CheckingAfterStep(i) || next.Escaped?
    case CheckingAfterStep(i) => next.CancellingBetween? || next == CheckingStep(i + 1)
    case FinishingRun => next == FinishingChain(Returned, Completed) || next.Escaped?
    case FinishingChain(ending, exit) =>
      if ending.Raised? && exit.Threw? then next == ChoosingException(ending.error, exit.error)
      else next == Done(ending)
    case ChoosingException(_, _) => next.Done?
    case _ => next == s.pc
  }

  /** A step of the loop leaves the log and the operation's context alone, and the coordinator but for the
      start of an operation and the end of the chain. */
  predicate LoopMoves(s: System, t: System) {
    && LoopFlows(s, t.pc)
    && t.worker == s.worker && t.log == s.log && t.context == s.context
    && (if s.pc.FinishingChain? then t.coordinator == s.coordinator.FinishChain()
        else if s.pc.StartingOperation? && t.pc.CheckingOperation? then
          s.pc.i < |s.chain.steps|
          && s.coordinator.StartOperation(!s.chain.steps[s.pc.i].operation.SendTo?) == Ok(t.coordinator)
        else t.coordinator == s.coordinator)
    && (s.pc.CancellingPending? || s.pc.StartingRun? || s.pc.CancellingBetween? || s.pc.StartingStep?
        || s.pc.FinishingStep? || s.pc.FinishingRun? || t.chain == s.chain)
    && (t.pc.FinishingChain? ==> t.chain.status == ChainCancelled || t.chain.status == ChainCompleted)
  }

  lemma LoopMovesOn(operations: seq<Operation>, s: System, now: Time)
    requires !InOperation(s.pc) && !Handling(s.pc)
    ensures LoopMoves(s, LoopStep(operations, s, now))
  {
    if s.pc.CancellingPending? || s.pc.StartingRun? || s.pc.CancellingBetween? || s.pc.FinishingRun?
       || s.pc.StartingStep? || s.pc.FinishingStep? {
      TransitionMovesOn(operations, s, now);
    } else if s.pc.StartingOperation? {
      StartingOperationMovesOn(operations, s, now);
    } else {
      CheckMovesOn(operations, s, now);
    }
    hide LoopStep, LoopMoves;
  }

  lemma TransitionMovesOn(operations: seq<Operation>, s: System, now: Time)
    requires s.pc.CancellingPending? || s.pc.StartingRun? || s.pc.CancellingBetween? || s.pc.FinishingRun?
             || s.pc.StartingStep? || s.pc.FinishingStep?
    ensures LoopMoves(s, LoopStep(operations, s, now))
  {
  }

  lemma StartingOperationMovesOn(operations: seq<Operation>, s: System, now: Time)
    requires s.pc.StartingOperation?
    ensures LoopMoves(s, LoopStep(operations, s, now))
  {
  }

  lemma CheckMovesOn(operations: seq<Operation>, s: System, now: Time)
    requires s.pc.AtStart? || s.pc.CheckingStep? || s.pc.CheckingAfterStep? || Ended(s.pc) || s.pc.Escaped?
    ensures LoopMoves(s, LoopStep(operations, s, now))
  {
  }

  lemma LoopFrame(operations: seq<Operation>, s: System, now: Time)
    requires !InOperation(s.pc) && !Handling(s.pc)
    ensures var t := LoopStep(operations, s, now);
      && WorkerSideKept(s, t) && t.log == s.log && t.context == s.context
      && (!s.pc.StartingOperation? ==> VerdictKept(s, t))
  {
    LoopMovesOn(operations, s, now);
    hide LoopStep, LoopFlows;
  }
}
