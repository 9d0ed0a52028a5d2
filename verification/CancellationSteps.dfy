/** Every step of either thread keeps the invariant. */
module CancellationSteps {
  import opened Domain
  import opened OrderStatus
  import opened CoordinatorState
  import opened ChainState
  import opened ChainShape
  import opened CancellationProtocol
  import opened CancellationInvariant
  import opened CancellationMoves

  lemma InitialKeeps(operations: seq<Operation>, context: Context, now: Time)
    ensures Inv(operations, Initial(operations, context, now))
  {
    var s := Initial(operations, context, now);
    assert StatusAgrees(s.chain, 0, false);
  }

  /** The canceller leaves the chain, the executor's position and every executor entry of the log alone. */
  lemma CancellerFrame(s: System, choice: Choice)
    requires FlagsFollowWorker(s)
    requires CancellerEnabled(s, choice)
    ensures var t := CancellerStep(s, choice);
      && t.chain == s.chain && t.context == s.context && t.pc == s.pc
      && t.log.accepted == s.log.accepted && t.log.registered == s.log.registered && t.log.fills == s.log.fills
      && t.log.exit == s.log.exit && t.log.acceptedAfterRequest == s.log.acceptedAfterRequest
      && t.coordinator.operationActive == s.coordinator.operationActive
      && t.coordinator.chainFinished == s.coordinator.chainFinished
      && t.coordinator.actionMayBeRegistered == s.coordinator.actionMayBeRegistered
      && t.coordinator.actionCompletedNaturally == s.coordinator.actionCompletedNaturally
      && t.coordinator.currentAction == s.coordinator.currentAction
      && t.coordinator.waitSource == s.coordinator.waitSource
      && (s.log.capturedAt.Some? ==> t.log.capturedAt == s.log.capturedAt)
      && (s.log.report.Some? ==> t.log.report == s.log.report)
  {
  }

  lemma CancellerKeepsExecutorSide(operations: seq<Operation>, s: System, choice: Choice)
    requires IndexesInRange(operations, s) && FlagsFollowExecutor(operations, s) && OrdersFollowExecutor(operations, s)
    requires OrdersLogged(operations, s) && FlagsFollowWorker(s)
    requires CancellerEnabled(s, choice)
    ensures IndexesInRange(operations, CancellerStep(s, choice))
    ensures FlagsFollowExecutor(operations, CancellerStep(s, choice))
    ensures OrdersFollowExecutor(operations, CancellerStep(s, choice))
    ensures OrdersLogged(operations, CancellerStep(s, choice))
  {
    CancellerFrame(s, choice);
    var t := CancellerStep(s, choice);
    SameExecutorSide(operations, s, t);
  }

  lemma SameExecutorSide(operations: seq<Operation>, s: System, t: System)
    requires IndexesInRange(operations, s) && FlagsFollowExecutor(operations, s) && OrdersFollowExecutor(operations, s)
    requires OrdersLogged(operations, s)
    requires t.pc == s.pc
    requires t.log.accepted == s.log.accepted && t.log.registered == s.log.registered && t.log.fills == s.log.fills
    requires t.log.exit == s.log.exit
    requires t.coordinator.operationActive == s.coordinator.operationActive
    requires t.coordinator.chainFinished == s.coordinator.chainFinished
    requires t.coordinator.actionMayBeRegistered == s.coordinator.actionMayBeRegistered
    requires t.coordinator.actionCompletedNaturally == s.coordinator.actionCompletedNaturally
    requires t.coordinator.currentAction == s.coordinator.currentAction
    requires t.coordinator.waitSource == s.coordinator.waitSource
    ensures IndexesInRange(operations, t)
    ensures FlagsFollowExecutor(operations, t)
    ensures OrdersFollowExecutor(operations, t)
    ensures OrdersLogged(operations, t)
  {
  }

  lemma CancellerKeepsWorker(operations: seq<Operation>, s: System, choice: Choice)
    requires FlagsFollowWorker(s)
    requires CancellerEnabled(s, choice)
    ensures FlagsFollowWorker(CancellerStep(s, choice))
  {
  }

  /** What recording a report leaves: the verdict, unless a natural completion stands, and a stop to request. */
  predicate Records(s: System, t: System)
    requires s.worker.Recording?
  {
    var threaded := s.worker.threaded;
    && t.log == s.log
    && match s.worker.report
       case FoundFilled =>
         t.coordinator == s.coordinator.RecordNaturalCompletion() && t.worker == AfterRecording(threaded)
       case FoundCancelled =>
         && t.coordinator == s.coordinator.RecordConfirmedCancellation()
         && t.worker == (if s.coordinator.VerdictIsNatural() then AfterRecording(threaded)
                         else Signalling(s.coordinator.waitSource, threaded))
       case Failure(error) =>
         && t.coordinator == s.coordinator.RecordCancellationFailure(error)
         && t.worker == (if s.coordinator.VerdictIsNatural() then AfterRecording(threaded)
                         else Signalling(s.coordinator.waitSource, threaded))
  }

  lemma RecordingRecords(s: System, choice: Choice)
    requires s.worker.Recording? && CancellerEnabled(s, choice)
    ensures Records(s, CancellerStep(s, choice))
  {
  }

  lemma RecordFollows(s: System, t: System)
    requires FlagsFollowWorker(s) && VerdictFollowsWorker(s) && s.worker.Recording? && Records(s, t)
    ensures VerdictFollowsWorker(t)
  {
  }

  lemma RecordingKeepsVerdict(operations: seq<Operation>, s: System, choice: Choice)
    requires IndexesInRange(operations, s) && FlagsFollowExecutor(operations, s) && OrdersFollowExecutor(operations, s)
    requires FlagsFollowWorker(s) && VerdictFollowsWorker(s)
    requires s.worker.Recording? && CancellerEnabled(s, choice)
    ensures VerdictFollowsWorker(CancellerStep(s, choice))
  {
    RecordingRecords(s, choice);
    RecordFollows(s, CancellerStep(s, choice));
    hide *;
  }

  lemma OtherStepKeepsVerdict(operations: seq<Operation>, s: System, choice: Choice)
    requires IndexesInRange(operations, s) && FlagsFollowExecutor(operations, s) && OrdersFollowExecutor(operations, s)
    requires FlagsFollowWorker(s) && VerdictFollowsWorker(s)
    requires !s.worker.Recording? && CancellerEnabled(s, choice)
    ensures VerdictFollowsWorker(CancellerStep(s, choice))
  {
  }

  lemma CancellerKeepsVerdict(operations: seq<Operation>, s: System, choice: Choice)
    requires IndexesInRange(operations, s) && FlagsFollowExecutor(operations, s) && OrdersFollowExecutor(operations, s)
    requires FlagsFollowWorker(s) && VerdictFollowsWorker(s)
    requires CancellerEnabled(s, choice)
    ensures VerdictFollowsWorker(CancellerStep(s, choice))
  {
    if s.worker.Recording? {
      RecordingKeepsVerdict(operations, s, choice);
    } else {
      OtherStepKeepsVerdict(operations, s, choice);
    }
    hide *;
  }

  lemma WorkerKeepsCapture(operations: seq<Operation>, s: System, choice: Choice)
    requires CaptureFollows(operations, s) && CancellerEnabled(s, choice)
    requires FlagsFollowWorker(s) && !s.worker.Entering? && !s.worker.WaitingForAction?
    ensures CaptureFollows(operations, CancellerStep(s, choice))
  {
    hide Final;
  }

  lemma CancellerKeepsCapture(operations: seq<Operation>, s: System, choice: Choice)
    requires IndexesInRange(operations, s) && FlagsFollowExecutor(operations, s) && OrdersFollowExecutor(operations, s)
    requires OrdersLogged(operations, s) && FlagsFollowWorker(s) && CaptureFollows(operations, s)
    requires CancellerEnabled(s, choice)
    ensures CaptureFollows(operations, CancellerStep(s, choice))
  {
    if !s.worker.Entering? && !s.worker.WaitingForAction? {
      WorkerKeepsCapture(operations, s, choice);
      hide CancellerStep;
    } else {
      hide PlacementContract, WaitContract;
    }
  }

  lemma CancellerKeepsPlacing(operations: seq<Operation>, s: System, choice: Choice)
    requires IndexesInRange(operations, s) && FlagsFollowExecutor(operations, s) && OrdersFollowExecutor(operations, s)
    requires FlagsFollowWorker(s) && NothingAfterEmptyLeave(s) && RequestBoundsPlacing(operations, s)
    requires CancellerEnabled(s, choice)
    ensures NothingAfterEmptyLeave(CancellerStep(s, choice))
    ensures RequestBoundsPlacing(operations, CancellerStep(s, choice))
  {
  }

  /** The canceller never replaces a verdict, and without a captured action it can only record a failure. */
  lemma VerdictSettles(s: System, choice: Choice)
    requires FlagsFollowWorker(s) && VerdictFollowsWorker(s) && CancellerEnabled(s, choice)
    ensures var t := CancellerStep(s, choice);
      && (s.coordinator.verdict != Undecided ==> t.coordinator.verdict == s.coordinator.verdict)
      && (s.coordinator.verdict == CancellationFailed ==> t.coordinator.failure == s.coordinator.failure)
      && (s.log.capturedAt.None? && s.coordinator.verdict == Undecided ==>
            t.coordinator.verdict in {Undecided, CancellationFailed})
  {
  }

  /** A capture happens only inside an operation that holds a registered order. */
  lemma CaptureNeedsOrder(operations: seq<Operation>, s: System, choice: Choice)
    requires IndexesInRange(operations, s) && FlagsFollowExecutor(operations, s) && OrdersFollowExecutor(operations, s)
    requires FlagsFollowWorker(s) && CancellerEnabled(s, choice)
    ensures CancellerStep(s, choice).log.capturedAt.Some? ==>
              s.log.capturedAt.Some? || (InOperation(s.pc) && !s.coordinator.currentAction.NoAction?)
  {
  }

  lemma CancellerKeepsHandler(operations: seq<Operation>, s: System, choice: Choice)
    requires Inv(operations, s) && CancellerEnabled(s, choice)
    ensures HandlesExit(CancellerStep(s, choice))
    ensures VerdictReachesHandler(CancellerStep(s, choice))
    ensures EndAgrees(CancellerStep(s, choice))
  {
    CancellerFrame(s, choice);
    VerdictSettles(s, choice);
    CaptureNeedsOrder(operations, s, choice);
    SameHandler(s, CancellerStep(s, choice));
  }

  lemma SameEnd(s: System, t: System)
    requires EndAgrees(s) && t.pc == s.pc && t.chain == s.chain && t.log.exit == s.log.exit
    requires t.coordinator.actionCompletedNaturally == s.coordinator.actionCompletedNaturally
    requires s.coordinator.verdict != Undecided ==> t.coordinator.verdict == s.coordinator.verdict
    requires s.coordinator.verdict == CancellationFailed ==> t.coordinator.failure == s.coordinator.failure
    requires s.log.capturedAt.Some? ==> t.log.capturedAt == s.log.capturedAt
    requires t.log.capturedAt.Some? ==> s.log.capturedAt.Some? || InOperation(s.pc)
    ensures EndAgrees(t)
  {
  }

  lemma SameHandler(s: System, t: System)
    requires HandlesExit(s) && VerdictReachesHandler(s) && EndAgrees(s)
    requires t.pc == s.pc && t.chain == s.chain && t.log.exit == s.log.exit
    requires t.coordinator.actionCompletedNaturally == s.coordinator.actionCompletedNaturally
    requires s.coordinator.verdict != Undecided ==> t.coordinator.verdict == s.coordinator.verdict
    requires s.coordinator.verdict == CancellationFailed ==> t.coordinator.failure == s.coordinator.failure
    requires s.log.capturedAt.None? && s.coordinator.verdict == Undecided ==>
               t.coordinator.verdict in {Undecided, CancellationFailed}
    requires s.log.capturedAt.Some? ==> t.log.capturedAt == s.log.capturedAt
    requires t.log.capturedAt.Some? ==> s.log.capturedAt.Some? || InOperation(s.pc)
    ensures HandlesExit(t) && VerdictReachesHandler(t) && EndAgrees(t)
  {
    SameEnd(s, t);
    hide EndAgrees;
    assert HandlesExit(t) by { hide VerdictReachesHandler; }
    hide HandlesExit;
  }

  lemma CancellerKeepsChain(operations: seq<Operation>, s: System, choice: Choice)
    requires Inv(operations, s)
    requires CancellerEnabled(s, choice)
    ensures IndexesInRange(operations, CancellerStep(s, choice))
    ensures ChainFollowsExecutor(operations, CancellerStep(s, choice))
    ensures AwaitingFollowsExecutor(operations, CancellerStep(s, choice))
    ensures ContextFollows(operations, CancellerStep(s, choice))
    ensures StepsRecorded(operations, CancellerStep(s, choice))
  {
    CancellerFrame(s, choice);
    SameChain(operations, s, CancellerStep(s, choice));
  }

  lemma SameChain(operations: seq<Operation>, s: System, t: System)
    requires IndexesInRange(operations, s) && ChainFollowsExecutor(operations, s) && ContextFollows(operations, s)
    requires AwaitingFollowsExecutor(operations, s)
    requires StepsRecorded(operations, s)
    requires t.pc == s.pc && t.chain == s.chain && t.context == s.context
    requires t.log.accepted == s.log.accepted && t.log.fills == s.log.fills
    requires s.log.report == Some(FoundCancelled) && s.log.capturedAt.Some? ==>
               t.log.report == s.log.report && t.log.capturedAt == s.log.capturedAt
    ensures IndexesInRange(operations, t)
    ensures ChainFollowsExecutor(operations, t)
    ensures AwaitingFollowsExecutor(operations, t)
    ensures ContextFollows(operations, t)
    ensures StepsRecorded(operations, t)
  {
    forall j | 0 <= j < |operations|
      ensures StepRecorded(operations, t, j)
    {
      assert StepRecorded(operations, s, j);
    }
  }

  // ---- What an executor step leaves alone ----

  lemma WorkerSideHolds(s: System, t: System)
    requires FlagsFollowWorker(s) && VerdictFollowsWorker(s) && WorkerSideKept(s, t) && VerdictKept(s, t)
    ensures FlagsFollowWorker(t) && VerdictFollowsWorker(t)
  {
  }

  lemma CompletingKeepsVerdict(operations: seq<Operation>, s: System, choice: Choice, now: Time)
    requires IndexesInRange(operations, s) && FlagsFollowExecutor(operations, s)
    requires FlagsFollowWorker(s) && VerdictFollowsWorker(s) && s.pc.Completing?
    ensures var t := OperationStep(operations, s, choice, now); FlagsFollowWorker(t) && VerdictFollowsWorker(t)
  {
    RecordingOperationMovesOn(operations, s, choice, now);
    hide OperationStep, OperationFlows, OperationLogs;
  }

  lemma StartingOperationKeepsVerdict(operations: seq<Operation>, s: System, now: Time)
    requires IndexesInRange(operations, s) && FlagsFollowExecutor(operations, s) && CaptureFollows(operations, s)
    requires FlagsFollowWorker(s) && VerdictFollowsWorker(s) && s.pc.StartingOperation?
    ensures var t := LoopStep(operations, s, now); FlagsFollowWorker(t) && VerdictFollowsWorker(t)
  {
    LoopMovesOn(operations, s, now);
    StartingOperationIsUncaptured(operations, s);
    var t := LoopStep(operations, s, now);
    hide LoopStep, FlagsFollowExecutor, CaptureFollows;
    assert FlagsFollowWorker(t) by { hide VerdictFollowsWorker; }
    ResetKeepsVerdict(s, t);
    hide FlagsFollowWorker, VerdictFollowsWorker;
  }

  lemma StartingOperationIsUncaptured(operations: seq<Operation>, s: System)
    requires IndexesInRange(operations, s) && CaptureFollows(operations, s) && s.pc.StartingOperation?
    ensures s.log.capturedAt.None?
  {
  }

  lemma ResetKeepsVerdict(s: System, t: System)
    requires VerdictFollowsWorker(s) && FlagsFollowWorker(s) && s.log.capturedAt.None?
    requires t.worker == s.worker && t.log == s.log && t.coordinator.stopped == s.coordinator.stopped
    requires t.coordinator == s.coordinator
             || (t.coordinator.verdict == Undecided && t.coordinator.failure == ""
                 && !t.coordinator.actionCompletedNaturally
                 && t.coordinator.waitSource == s.coordinator.waitSource + 1 && t.coordinator.currentAction.NoAction?)
    ensures VerdictFollowsWorker(t)
  {
  }

  // ---- Flags and orders ----

  lemma OperationKeepsFlags(operations: seq<Operation>, s: System, choice: Choice, now: Time)
    requires IndexesInRange(operations, s) && FlagsFollowExecutor(operations, s)
    requires InOperation(s.pc) && ExecutorEnabled(operations, s, choice)
    requires IndexesInRange(operations, OperationStep(operations, s, choice, now))
    ensures FlagsFollowExecutor(operations, OperationStep(operations, s, choice, now))
  {
    OperationMovesOn(operations, s, choice, now);
    var t := OperationStep(operations, s, choice, now);
    assert OperationFlows(s, t, choice) && OperationCoordinates(s, t);
    if s.pc.Registering? {
      RegisteredFlagsFollow(operations, s, t, choice);
    } else if s.pc.Completing? {
      CompletedFlagsFollow(operations, s, t, choice);
    } else if s.pc.Leaving? {
      LeftFlagsFollow(operations, s, t, choice);
    } else {
      KeptFlagsFollow(operations, s, t, choice);
    }
    hide *;
  }

  lemma RegisteredFlagsFollow(operations: seq<Operation>, s: System, t: System, choice: Choice)
    requires IndexesInRange(operations, s) && FlagsFollowExecutor(operations, s) && s.pc.Registering?
    requires OperationFlows(s, t, choice) && OperationCoordinates(s, t) && IndexesInRange(operations, t)
    ensures FlagsFollowExecutor(operations, t)
  {
  }

  lemma CompletedFlagsFollow(operations: seq<Operation>, s: System, t: System, choice: Choice)
    requires IndexesInRange(operations, s) && FlagsFollowExecutor(operations, s) && s.pc.Completing?
    requires OperationFlows(s, t, choice) && OperationCoordinates(s, t) && IndexesInRange(operations, t)
    ensures FlagsFollowExecutor(operations, t)
  {
  }

  lemma LeftFlagsFollow(operations: seq<Operation>, s: System, t: System, choice: Choice)
    requires IndexesInRange(operations, s) && FlagsFollowExecutor(operations, s) && s.pc.Leaving?
    requires OperationFlows(s, t, choice) && OperationCoordinates(s, t) && IndexesInRange(operations, t)
    ensures FlagsFollowExecutor(operations, t)
  {
    assert LeavingFlows(s.pc.i, s.pc.exit, t.pc) && (Handling(t.pc) || t.pc.FinishingStep?);
    hide OperationFlows, LeavingFlows;
  }

  lemma KeptFlagsFollow(operations: seq<Operation>, s: System, t: System, choice: Choice)
    requires IndexesInRange(operations, s) && FlagsFollowExecutor(operations, s)
    requires InOperation(s.pc) && !s.pc.Registering? && !s.pc.Completing? && !s.pc.Leaving?
    requires OperationFlows(s, t, choice) && OperationCoordinates(s, t) && IndexesInRange(operations, t)
    ensures FlagsFollowExecutor(operations, t)
  {
  }

  lemma OperationKeepsOrders(operations: seq<Operation>, s: System, choice: Choice, now: Time)
    requires IndexesInRange(operations, s) && FlagsFollowExecutor(operations, s) && OrdersFollowExecutor(operations, s)
    requires OrdersLogged(operations, s) && HandlesExit(s)
    requires InOperation(s.pc) && ExecutorEnabled(operations, s, choice)
    requires IndexesInRange(operations, OperationStep(operations, s, choice, now))
    ensures OrdersFollowExecutor(operations, OperationStep(operations, s, choice, now))
  {
    OperationMovesOn(operations, s, choice, now);
    PlacedAction(operations, s, choice);
    OrdersFollowMove(operations, s, OperationStep(operations, s, choice, now), choice);
    hide *;
  }

  /** The order that the exchange accepts is of the kind that was asked for, and a fill is one of its own. */
  lemma PlacedAction(operations: seq<Operation>, s: System, choice: Choice)
    requires InOperation(s.pc) && ExecutorEnabled(operations, s, choice)
    ensures s.pc.Placing? && choice.Accepts? ==>
              s.pc.i < |operations| && PlacementContract(operations[s.pc.i], choice.action)
    ensures s.pc.Placing? && choice.Plain? ==> s.pc.i < |operations| && operations[s.pc.i].SendTo?
    ensures s.pc.Waiting? && choice.Fills? ==> WaitContract(s.pc.action, choice.order)
  {
  }

  lemma OrdersFollowMove(operations: seq<Operation>, s: System, t: System, choice: Choice)
    requires IndexesInRange(operations, s) && FlagsFollowExecutor(operations, s) && OrdersFollowExecutor(operations, s)
    requires OrdersLogged(operations, s) && HandlesExit(s) && InOperation(s.pc)
    requires IndexesInRange(operations, t) && OperationMoves(s, t, choice)
    requires s.pc.Placing? && choice.Accepts? ==> PlacementContract(operations[s.pc.i], choice.action)
    ensures OrdersFollowExecutor(operations, t)
  {
    if s.pc.Registering? || s.pc.Completing? || s.pc.Leaving? {
      ChangedOrdersFollow(operations, s, t, choice);
    } else {
      KeptOrdersFollow(operations, s, t, choice);
    }
    hide OrdersFollowExecutor, OperationMoves, FlagsFollowExecutor, PlacementContract;
  }

  lemma ChangedOrdersFollow(operations: seq<Operation>, s: System, t: System, choice: Choice)
    requires IndexesInRange(operations, s) && FlagsFollowExecutor(operations, s) && OrdersFollowExecutor(operations, s)
    requires OrdersLogged(operations, s) && HandlesExit(s)
    requires s.pc.Registering? || s.pc.Completing? || s.pc.Leaving?
    requires IndexesInRange(operations, t) && OperationMoves(s, t, choice)
    ensures OrdersFollowExecutor(operations, t)
  {
    hide WaitContract, MayHaveOrder;
    if s.pc.Leaving? {
      assert Handling(t.pc) || t.pc.FinishingStep?;
      hide OperationLogs;
    }
  }

  lemma KeptOrdersFollow(operations: seq<Operation>, s: System, t: System, choice: Choice)
    requires IndexesInRange(operations, s) && FlagsFollowExecutor(operations, s) && OrdersFollowExecutor(operations, s)
    requires OrdersLogged(operations, s) && InOperation(s.pc)
    requires !s.pc.Registering? && !s.pc.Completing? && !s.pc.Leaving?
    requires IndexesInRange(operations, t) && OperationMoves(s, t, choice)
    requires s.pc.Placing? && choice.Accepts? ==> PlacementContract(operations[s.pc.i], choice.action)
    ensures OrdersFollowExecutor(operations, t)
  {
    hide WaitContract;
  }

  lemma OperationKeepsOrderLog(operations: seq<Operation>, s: System, choice: Choice, now: Time)
    requires IndexesInRange(operations, s) && FlagsFollowExecutor(operations, s) && OrdersFollowExecutor(operations, s)
    requires OrdersLogged(operations, s)
    requires InOperation(s.pc) && ExecutorEnabled(operations, s, choice)
    requires IndexesInRange(operations, OperationStep(operations, s, choice, now))
    ensures OrdersLogged(operations, OperationStep(operations, s, choice, now))
  {
    OperationMovesOn(operations, s, choice, now);
    PlacedAction(operations, s, choice);
    var t := OperationStep(operations, s, choice, now);
    assert OperationFlows(s, t, choice) && OperationCoordinates(s, t) && OperationLogs(s, t);
    assert s.pc.Waiting? ==> s.pc.i in s.log.registered && s.log.registered[s.pc.i] == s.pc.action;
    if s.pc.Placing? {
      PlacingLogFollows(operations, s, t, choice);
    } else if s.pc.Registering? {
      RegisteringSucceeds(operations, s);
      RegisteringLogFollows(operations, s, t, choice);
    } else if s.pc.Waiting? {
      WaitingLogFollows(operations, s, t, choice);
    } else {
      KeptLogFollows(operations, s, t, choice);
    }
    hide *;
  }

  lemma PlacingLogFollows(operations: seq<Operation>, s: System, t: System, choice: Choice)
    requires OrdersLogged(operations, s) && s.pc.Placing? && OperationFlows(s, t, choice) && OperationLogs(s, t)
    ensures OrdersLogged(operations, t)
  {
    hide PlacementContract, WaitContract;
  }

  lemma RegisteringLogFollows(operations: seq<Operation>, s: System, t: System, choice: Choice)
    requires IndexesInRange(operations, s) && OrdersLogged(operations, s) && s.pc.Registering?
    requires PlacementContract(operations[s.pc.i], s.pc.action) && s.coordinator.RegisterAction(s.pc.action).Ok?
    requires OperationFlows(s, t, choice) && OperationCoordinates(s, t) && OperationLogs(s, t)
    ensures OrdersLogged(operations, t)
  {
    hide PlacementContract, WaitContract;
  }

  lemma RegisteringSucceeds(operations: seq<Operation>, s: System)
    requires IndexesInRange(operations, s) && FlagsFollowExecutor(operations, s) && OrdersFollowExecutor(operations, s)
    requires s.pc.Registering?
    ensures PlacementContract(operations[s.pc.i], s.pc.action) && s.coordinator.RegisterAction(s.pc.action).Ok?
  {
  }

  lemma WaitingLogFollows(operations: seq<Operation>, s: System, t: System, choice: Choice)
    requires OrdersLogged(operations, s) && s.pc.Waiting? && OperationFlows(s, t, choice) && OperationLogs(s, t)
    requires s.pc.i in s.log.registered && s.log.registered[s.pc.i] == s.pc.action
    requires choice.Fills? ==> WaitContract(s.pc.action, choice.order)
    ensures OrdersLogged(operations, t)
  {
    hide PlacementContract, WaitContract;
  }

  lemma OperationKeepsBound(s: System, t: System, choice: Choice, j: nat)
    requires InOperation(s.pc) && !s.pc.Placing? && OperationFlows(s, t, choice) && MayHaveOrder(s.pc, j)
    ensures MayHaveOrder(t.pc, j)
  {
  }

  lemma KeptIsQuiet(s: System, t: System, choice: Choice)
    requires InOperation(s.pc) && !s.pc.Placing? && !s.pc.Registering? && !s.pc.Waiting?
    requires OperationFlows(s, t, choice) && OperationLogs(s, t)
    ensures !t.pc.Registering? && OrdersKept(s, t) && StepIndex(t.pc) == StepIndex(s.pc)
    ensures Succeeding(s.pc, StepIndex(s.pc)) ==> Succeeding(t.pc, StepIndex(s.pc))
  {
  }

  lemma KeptLogFollows(operations: seq<Operation>, s: System, t: System, choice: Choice)
    requires IndexesInRange(operations, s) && OrdersFollowExecutor(operations, s)
    requires OrdersLogged(operations, s) && InOperation(s.pc) && !s.pc.Placing? && !s.pc.Registering? && !s.pc.Waiting?
    requires OperationMoves(s, t, choice)
    ensures OrdersLogged(operations, t)
  {
    forall j | MayHaveOrder(s.pc, j)
      ensures MayHaveOrder(t.pc, j)
    {
      OperationKeepsBound(s, t, choice, j);
    }
    KeptIsQuiet(s, t, choice);
    hide PlacementContract, WaitContract, MayHaveOrder, OperationMoves, OrdersFollowExecutor;
  }

  lemma HandlerKeepsFlags(operations: seq<Operation>, s: System, now: Time)
    requires IndexesInRange(operations, s) && FlagsFollowExecutor(operations, s) && OrdersFollowExecutor(operations, s)
    requires OrdersLogged(operations, s)
    requires Handling(s.pc)
    requires IndexesInRange(operations, HandlerStep(s, now))
    ensures FlagsFollowExecutor(operations, HandlerStep(s, now))
    ensures OrdersFollowExecutor(operations, HandlerStep(s, now))
    ensures OrdersLogged(operations, HandlerStep(s, now))
  {
    HandlerFrame(s, now);
    HandlerMoveKeepsFlags(operations, s, HandlerStep(s, now));
    hide *;
  }

  lemma HandlerMoveKeepsFlags(operations: seq<Operation>, s: System, t: System)
    requires IndexesInRange(operations, s) && FlagsFollowExecutor(operations, s) && OrdersFollowExecutor(operations, s)
    requires OrdersLogged(operations, s) && Handling(s.pc) && IndexesInRange(operations, t)
    requires HandlerFlows(s, t.pc) && t.coordinator == s.coordinator && t.log == s.log
    ensures FlagsFollowExecutor(operations, t) && OrdersFollowExecutor(operations, t) && OrdersLogged(operations, t)
  {
    hide PlacementContract, WaitContract;
  }

  lemma LoopKeepsFlags(operations: seq<Operation>, s: System, now: Time)
    requires IndexesInRange(operations, s) && FlagsFollowExecutor(operations, s)
    requires ChainFollowsExecutor(operations, s)
    requires !Handling(s.pc) && !InOperation(s.pc)
    requires IndexesInRange(operations, LoopStep(operations, s, now))
    ensures FlagsFollowExecutor(operations, LoopStep(operations, s, now))
  {
    LoopMovesOn(operations, s, now);
    var t := LoopStep(operations, s, now);
    if s.pc.StartingOperation? {
      StartedStepMatches(operations, s);
    }
    LoopMoveKeepsFlags(operations, s, t);
    hide *;
  }

  lemma StartedStepMatches(operations: seq<Operation>, s: System)
    requires IndexesInRange(operations, s) && ChainFollowsExecutor(operations, s) && s.pc.StartingOperation?
    ensures s.pc.i < |s.chain.steps| && s.pc.i < |operations| && s.chain.steps[s.pc.i].operation == operations[s.pc.i]
  {
  }

  lemma LoopMoveKeepsFlags(operations: seq<Operation>, s: System, t: System)
    requires IndexesInRange(operations, s) && FlagsFollowExecutor(operations, s)
    requires !Handling(s.pc) && !InOperation(s.pc) && IndexesInRange(operations, t) && LoopMoves(s, t)
    requires s.pc.StartingOperation? ==>
               s.pc.i < |s.chain.steps| && s.pc.i < |operations|
               && s.chain.steps[s.pc.i].operation == operations[s.pc.i]
    ensures FlagsFollowExecutor(operations, t)
  {
  }

  lemma LoopKeepsOrders(operations: seq<Operation>, s: System, now: Time)
    requires IndexesInRange(operations, s) && OrdersFollowExecutor(operations, s)
    requires !Handling(s.pc) && !InOperation(s.pc)
    requires IndexesInRange(operations, LoopStep(operations, s, now))
    ensures OrdersFollowExecutor(operations, LoopStep(operations, s, now))
  {
    LoopMovesOn(operations, s, now);
    hide LoopStep;
  }

  lemma LoopKeepsOrderLog(operations: seq<Operation>, s: System, now: Time)
    requires IndexesInRange(operations, s) && OrdersLogged(operations, s)
    requires !Handling(s.pc) && !InOperation(s.pc)
    ensures OrdersLogged(operations, LoopStep(operations, s, now))
  {
    LoopMovesOn(operations, s, now);
    var t := LoopStep(operations, s, now);
    hide LoopStep, PlacementContract, WaitContract;
    forall j | MayHaveOrder(s.pc, j)
      ensures MayHaveOrder(t.pc, j)
    {
      LoopKeepsBound(s, t.pc, j);
    }
    assert !Handling(t.pc) && !t.pc.Registering? && (InOperation(t.pc) ==> s.pc.StartingOperation? && t.pc.i == s.pc.i);
    hide MayHaveOrder, LoopMoves;
    assert InOperation(t.pc) ==> StepIndex(t.pc) !in s.log.fills;
  }

  lemma LoopKeepsBound(s: System, next: Pc, j: nat)
    requires !Handling(s.pc) && !InOperation(s.pc) && MayHaveOrder(s.pc, j) && LoopFlows(s, next)
    ensures MayHaveOrder(next, j)
  {
  }

  // ---- The capture and the bounds on placing ----

  lemma OperationKeepsCapture(operations: seq<Operation>, s: System, choice: Choice, now: Time)
    requires IndexesInRange(operations, s) && FlagsFollowExecutor(operations, s)
    requires OrdersFollowExecutor(operations, s) && OrdersLogged(operations, s)
    requires FlagsFollowWorker(s) && CaptureFollows(operations, s)
    requires InOperation(s.pc) && ExecutorEnabled(operations, s, choice)
    ensures CaptureFollows(operations, OperationStep(operations, s, choice, now))
  {
    OperationMovesOn(operations, s, choice, now);
    CaptureFollowsMove(operations, s, OperationStep(operations, s, choice, now), choice);
    hide *;
  }

  lemma CompletingKeepsCapture(operations: seq<Operation>, s: System, t: System, choice: Choice)
    requires IndexesInRange(operations, s) && FlagsFollowExecutor(operations, s) && CaptureFollows(operations, s)
    requires s.pc.Completing? && OperationMoves(s, t, choice)
    ensures CaptureFollows(operations, t)
  {
  }

  /** Once an order was captured its step is the last, and the executor stays in it or past it. */
  lemma FinalStays(operations: seq<Operation>, s: System, t: System, choice: Choice)
    requires CaptureFollows(operations, s) && InOperation(s.pc) && OperationFlows(s, t, choice)
    ensures s.log.capturedAt.Some? ==> Final(operations, t.pc, s.log.capturedAt.value)
  {
  }

  lemma CaptureFollowsMove(operations: seq<Operation>, s: System, t: System, choice: Choice)
    requires IndexesInRange(operations, s) && FlagsFollowExecutor(operations, s)
    requires OrdersFollowExecutor(operations, s) && OrdersLogged(operations, s)
    requires FlagsFollowWorker(s) && CaptureFollows(operations, s)
    requires InOperation(s.pc) && OperationMoves(s, t, choice)
    ensures CaptureFollows(operations, t)
  {
    if s.pc.Completing? {
      CompletingKeepsCapture(operations, s, t, choice);
    } else {
      FinalStays(operations, s, t, choice);
    }
    hide PlacementContract, WaitContract, Final, OperationFlows;
  }

  lemma EmptyLeaveFollowsMove(operations: seq<Operation>, s: System, t: System, choice: Choice)
    requires IndexesInRange(operations, s) && FlagsFollowExecutor(operations, s) && FlagsFollowWorker(s)
    requires NothingAfterEmptyLeave(s) && InOperation(s.pc) && OperationMoves(s, t, choice)
    ensures NothingAfterEmptyLeave(t)
  {
    hide OperationCoordinates, OperationLogs;
  }

  lemma PlacingFollowsMove(operations: seq<Operation>, s: System, t: System, choice: Choice)
    requires IndexesInRange(operations, s) && FlagsFollowWorker(s) && RequestBoundsPlacing(operations, s)
    requires InOperation(s.pc) && OperationMoves(s, t, choice) && WorkerSideKept(s, t)
    ensures RequestBoundsPlacing(operations, t)
  {
    hide OperationCoordinates;
    if s.pc.Leaving? {
      assert Handling(t.pc) || t.pc.FinishingStep?;
    }
  }

  lemma OperationKeepsPlacing(operations: seq<Operation>, s: System, choice: Choice, now: Time)
    requires IndexesInRange(operations, s) && FlagsFollowExecutor(operations, s)
    requires FlagsFollowWorker(s) && NothingAfterEmptyLeave(s) && RequestBoundsPlacing(operations, s)
    requires InOperation(s.pc) && ExecutorEnabled(operations, s, choice)
    ensures NothingAfterEmptyLeave(OperationStep(operations, s, choice, now))
    ensures RequestBoundsPlacing(operations, OperationStep(operations, s, choice, now))
  {
    OperationMovesOn(operations, s, choice, now);
    var t := OperationStep(operations, s, choice, now);
    OperationFrame(operations, s, choice, now);
    EmptyLeaveFollowsMove(operations, s, t, choice);
    PlacingFollowsMove(operations, s, t, choice);
    hide *;
  }

  lemma HandlerKeepsCapture(operations: seq<Operation>, s: System, now: Time)
    requires IndexesInRange(operations, s) && CaptureFollows(operations, s)
    requires NothingAfterEmptyLeave(s) && RequestBoundsPlacing(operations, s)
    requires Handling(s.pc)
    requires IndexesInRange(operations, HandlerStep(s, now))
    ensures var t := HandlerStep(s, now);
      CaptureFollows(operations, t) && NothingAfterEmptyLeave(t) && RequestBoundsPlacing(operations, t)
  {
    HandlerFrame(s, now);
    hide HandlerStep;
  }

  lemma LoopKeepsCapture(operations: seq<Operation>, s: System, now: Time)
    requires IndexesInRange(operations, s) && FlagsFollowWorker(s) && CaptureFollows(operations, s)
    requires !Handling(s.pc) && !InOperation(s.pc)
    requires IndexesInRange(operations, LoopStep(operations, s, now))
    ensures CaptureFollows(operations, LoopStep(operations, s, now))
  {
    LoopMovesOn(operations, s, now);
    hide LoopStep;
  }

  lemma LoopKeepsPlacing(operations: seq<Operation>, s: System, now: Time)
    requires IndexesInRange(operations, s) && FlagsFollowWorker(s)
    requires NothingAfterEmptyLeave(s) && RequestBoundsPlacing(operations, s)
    requires !Handling(s.pc) && !InOperation(s.pc)
    requires IndexesInRange(operations, LoopStep(operations, s, now))
    ensures var t := LoopStep(operations, s, now);
      NothingAfterEmptyLeave(t) && RequestBoundsPlacing(operations, t)
  {
    LoopMovesOn(operations, s, now);
    hide LoopStep;
  }

  // ---- How an exceptional end is decided ----

  /** A stop token is only ever stopped after the verdict was stored, so an interrupted wait finds one. */
  lemma WaitingKeepsHandler(operations: seq<Operation>, s: System, t: System, choice: Choice)
    requires IndexesInRange(operations, s) && FlagsFollowExecutor(operations, s) && OrdersFollowExecutor(operations, s)
    requires VerdictFollowsWorker(s) && s.pc.Waiting? && OperationFlows(s, t, choice) && VerdictKept(s, t)
    ensures VerdictReachesHandler(t)
  {
    hide PlacementContract;
  }

  lemma InnerVerdictFollows(s: System, t: System, choice: Choice)
    requires VerdictReachesHandler(s) && HandlesExit(s) && InOperation(s.pc) && !s.pc.Waiting?
    requires OperationFlows(s, t, choice) && (s.pc.Completing? || VerdictKept(s, t)) && WorkerSideKept(s, t)
    ensures VerdictReachesHandler(t)
  {
  }

  lemma OperationKeepsHandler(operations: seq<Operation>, s: System, choice: Choice, now: Time)
    requires IndexesInRange(operations, s) && FlagsFollowExecutor(operations, s) && OrdersFollowExecutor(operations, s)
    requires VerdictFollowsWorker(s) && VerdictReachesHandler(s) && HandlesExit(s)
    requires InOperation(s.pc) && ExecutorEnabled(operations, s, choice)
    ensures VerdictReachesHandler(OperationStep(operations, s, choice, now))
  {
    OperationMovesOn(operations, s, choice, now);
    var t := OperationStep(operations, s, choice, now);
    assert OperationFlows(s, t, choice);
    OperationFrame(operations, s, choice, now);
    if s.pc.Waiting? {
      WaitingKeepsHandler(operations, s, t, choice);
    } else {
      InnerVerdictFollows(s, t, choice);
    }
    hide *;
  }

  lemma LeavingExitFollows(s: System, t: System, choice: Choice)
    requires HandlesExit(s) && s.pc.Leaving? && OperationFlows(s, t, choice)
    ensures HandlesExit(t)
  {
  }

  lemma InnerExitFollows(s: System, t: System, choice: Choice)
    requires HandlesExit(s) && InOperation(s.pc) && !s.pc.Leaving? && OperationFlows(s, t, choice)
    ensures HandlesExit(t)
  {
    assert t.pc.Leaving? || (InOperation(t.pc) && t.log.exit == s.log.exit);
    hide OperationFlows;
  }

  lemma OperationKeepsExit(operations: seq<Operation>, s: System, choice: Choice, now: Time)
    requires HandlesExit(s) && IndexesInRange(operations, s)
    requires InOperation(s.pc) && ExecutorEnabled(operations, s, choice)
    ensures HandlesExit(OperationStep(operations, s, choice, now))
  {
    OperationMovesOn(operations, s, choice, now);
    var t := OperationStep(operations, s, choice, now);
    assert OperationFlows(s, t, choice);
    if s.pc.Leaving? {
      LeavingExitFollows(s, t, choice);
    } else {
      InnerExitFollows(s, t, choice);
    }
    hide *;
  }

  lemma HandlerExitFollows(s: System, t: System)
    requires HandlesExit(s) && Handling(s.pc) && HandlerFlows(s, t.pc) && t.log == s.log
    requires !t.pc.Escaped?
    ensures HandlesExit(t)
  {
  }

  lemma HandlerVerdictFollows(s: System, t: System)
    requires FlagsFollowWorker(s) && VerdictFollowsWorker(s) && HandlesExit(s) && VerdictReachesHandler(s)
    requires !s.coordinator.actionCompletedNaturally
    requires Handling(s.pc) && HandlerFlows(s, t.pc) && t.log == s.log && t.coordinator == s.coordinator
    requires s.pc.Resolving? ==> s.coordinator.CancellationResolved()
    ensures VerdictReachesHandler(t)
  {
  }

  lemma HandlerKeepsHandler(operations: seq<Operation>, s: System, choice: Choice, now: Time)
    requires IndexesInRange(operations, s) && FlagsFollowExecutor(operations, s)
    requires FlagsFollowWorker(s) && VerdictFollowsWorker(s)
    requires HandlesExit(s) && VerdictReachesHandler(s)
    requires Handling(s.pc) && ExecutorEnabled(operations, s, choice)
    requires IndexesInRange(operations, HandlerStep(s, now))
    ensures HandlesExit(HandlerStep(s, now))
    ensures VerdictReachesHandler(HandlerStep(s, now))
  {
    HandlerFrame(s, now);
    assert s.pc.Resolving? ==> s.coordinator.CancellationResolved();
    assert !s.coordinator.actionCompletedNaturally;
    HandlerExitFollows(s, HandlerStep(s, now));
    HandlerVerdictFollows(s, HandlerStep(s, now));
    hide *;
  }

  lemma HandlerKeepsEnd(operations: seq<Operation>, s: System, choice: Choice, now: Time)
    requires IndexesInRange(operations, s) && FlagsFollowExecutor(operations, s)
    requires HandlesExit(s) && VerdictReachesHandler(s) && OrdersFollowExecutor(operations, s)
    requires Handling(s.pc) && ExecutorEnabled(operations, s, choice)
    requires IndexesInRange(operations, HandlerStep(s, now))
    ensures EndAgrees(HandlerStep(s, now))
  {
    HandlerFrame(s, now);
    hide HandlerStep, ExecutorEnabled;
  }

  lemma LoopKeepsHandler(operations: seq<Operation>, s: System, now: Time)
    requires IndexesInRange(operations, s)
    requires HandlesExit(s) && VerdictReachesHandler(s)
    requires !Handling(s.pc) && !InOperation(s.pc)
    ensures HandlesExit(LoopStep(operations, s, now))
    ensures VerdictReachesHandler(LoopStep(operations, s, now))
  {
    LoopMovesOn(operations, s, now);
    var t := LoopStep(operations, s, now);
    assert t.log == s.log && !Handling(t.pc) && !t.pc.Leaving? && (Ended(s.pc) ==> Ended(t.pc));
    hide LoopStep, LoopMoves;
  }

  lemma LoopKeepsEnd(operations: seq<Operation>, s: System, now: Time)
    requires IndexesInRange(operations, s) && ChainFollowsExecutor(operations, s)
    requires HandlesExit(s) && EndAgrees(s)
    requires !Handling(s.pc) && !InOperation(s.pc)
    ensures EndAgrees(LoopStep(operations, s, now))
  {
    LoopMovesOn(operations, s, now);
    hide LoopStep, ChainFollowsExecutor;
  }

  // ---- The recorded chain ----

  lemma OperationKeepsChain(operations: seq<Operation>, s: System, choice: Choice, now: Time)
    requires HasOperations(operations, s.chain)
    requires IndexesInRange(operations, s) && ChainFollowsExecutor(operations, s)
    requires AwaitingFollowsExecutor(operations, s)
    requires InOperation(s.pc) && ExecutorEnabled(operations, s, choice)
    ensures ChainFollowsExecutor(operations, OperationStep(operations, s, choice, now))
  {
    hide ChainAt;
    OperationKeepsIndexes(operations, s, choice, now);
    if s.pc.Reporting? {
      MarkStepAwaitingAt(operations, s.chain, s.pc.i, AcceptedIdentifiers(s.pc.action), now);
    } else {
      OperationRecordFrame(operations, s, choice, now);
    }
  }

  lemma CancellingStepEnds(operations: seq<Operation>, s: System, now: Time)
    requires ChainFollowsExecutor(operations, s) && s.context == s.chain.current && s.pc.CancellingStep?
    ensures var t := HandlerStep(s, now); t.pc.FinishingChain? && ChainAt(operations, t.chain, Over)
  {
    CancelStepAt(operations, s.chain, s.pc.i, now);
    hide ChainAt;
  }

  lemma FailingStepEnds(operations: seq<Operation>, s: System, now: Time)
    requires ChainFollowsExecutor(operations, s) && s.context == s.chain.current && s.pc.FailingStep?
    ensures var t := HandlerStep(s, now); t.pc.FinishingChain? && ChainAt(operations, t.chain, Over)
  {
    FailExecutionAt(operations, s.chain, s.pc.i, s.pc.error, now);
    hide ChainAt;
  }

  lemma EndedChainFollows(operations: seq<Operation>, s: System)
    requires s.pc.FinishingChain? && ChainAt(operations, s.chain, Over)
    ensures IndexesInRange(operations, s) && ChainFollowsExecutor(operations, s)
  {
    hide ChainAt;
  }

  lemma HandlingChainFollows(operations: seq<Operation>, s: System, t: System)
    requires IndexesInRange(operations, s) && ChainFollowsExecutor(operations, s)
    requires Handling(s.pc) && Handling(t.pc) && StepIndex(t.pc) == StepIndex(s.pc) && t.chain == s.chain
    ensures IndexesInRange(operations, t) && ChainFollowsExecutor(operations, t)
  {
    hide ChainAt;
  }

  lemma HandlerKeepsChain(operations: seq<Operation>, s: System, now: Time)
    requires IndexesInRange(operations, s) && ChainFollowsExecutor(operations, s)
    requires s.context == s.chain.current && Handling(s.pc)
    ensures IndexesInRange(operations, HandlerStep(s, now))
    ensures ChainFollowsExecutor(operations, HandlerStep(s, now))
  {
    var t := HandlerStep(s, now);
    if s.pc.CancellingStep? {
      CancellingStepEnds(operations, s, now);
      EndedChainFollows(operations, t);
    } else if s.pc.FailingStep? {
      FailingStepEnds(operations, s, now);
      EndedChainFollows(operations, t);
    } else {
      HandlerFrame(s, now);
      HandlingChainFollows(operations, s, t);
    }
    hide *;
  }

  lemma StartingRunStarts(operations: seq<Operation>, s: System, now: Time)
    requires ChainFollowsExecutor(operations, s) && s.pc.StartingRun?
    ensures var t := LoopStep(operations, s, now); t.pc == CheckingStep(0) && ChainAt(operations, t.chain, Between(0))
  {
    StartExecutionAt(operations, s.chain, now);
    hide ChainAt;
  }

  lemma EndsEnd(operations: seq<Operation>, s: System, now: Time)
    requires ChainFollowsExecutor(operations, s)
    requires s.pc.CancellingPending? || s.pc.CancellingBetween? || s.pc.FinishingRun?
    ensures var t := LoopStep(operations, s, now); t.pc.FinishingChain? && ChainAt(operations, t.chain, Over)
  {
    match s.pc {
      case CancellingPending => CancelPendingAt(operations, s.chain, now);
      case CancellingBetween => CancelBetweenAt(operations, s.chain, now);
      case FinishingRun => FinishExecutionAt(operations, s.chain, now);
    }
    hide ChainAt;
  }

  /** The transitions at both ends of a run and the one that cancels between steps. */
  lemma EndsKeepChain(operations: seq<Operation>, s: System, now: Time)
    requires IndexesInRange(operations, s) && ChainFollowsExecutor(operations, s)
    requires s.pc.CancellingPending? || s.pc.StartingRun? || s.pc.CancellingBetween? || s.pc.FinishingRun?
    ensures IndexesInRange(operations, LoopStep(operations, s, now))
    ensures ChainFollowsExecutor(operations, LoopStep(operations, s, now))
  {
    var t := LoopStep(operations, s, now);
    if s.pc.StartingRun? {
      StartingRunStarts(operations, s, now);
    } else {
      EndsEnd(operations, s, now);
      EndedChainFollows(operations, t);
    }
    hide LoopStep, ChainAt;
  }

  lemma StartingStepInside(operations: seq<Operation>, s: System, now: Time)
    requires IndexesInRange(operations, s) && ChainFollowsExecutor(operations, s)
    requires s.context == s.chain.current && s.pc.StartingStep?
    ensures var t := LoopStep(operations, s, now);
      t.pc == StartingOperation(s.pc.i) && ChainAt(operations, t.chain, Inside(s.pc.i))
  {
    StartStepAt(operations, s.chain, s.pc.i, now);
    hide ChainAt;
  }

  lemma FinishingStepBetween(operations: seq<Operation>, s: System, now: Time)
    requires HasOperations(operations, s.chain)
    requires IndexesInRange(operations, s) && ChainFollowsExecutor(operations, s)
    requires AwaitingFollowsExecutor(operations, s)
    requires s.pc.FinishingStep?
    ensures var t := LoopStep(operations, s, now);
      t.pc == CheckingAfterStep(s.pc.i) && ChainAt(operations, t.chain, Between(s.pc.i + 1))
  {
    hide ChainAt, HasOperations, AwaitingFollowsExecutor;
    FinishingStepMayFinish(operations, s);
    FinishStepAt(operations, s.chain, s.pc.i, s.context, now);
  }

  lemma FinishingStepMayFinish(operations: seq<Operation>, s: System)
    requires HasOperations(operations, s.chain)
    requires IndexesInRange(operations, s) && ChainFollowsExecutor(operations, s)
    requires AwaitingFollowsExecutor(operations, s)
    requires s.pc.FinishingStep?
    ensures ChainAt(operations, s.chain, Inside(s.pc.i)) && s.pc.i < |s.chain.steps|
    ensures s.chain.steps[s.pc.i].status == StepAwaiting <==> !operations[s.pc.i].SendTo?
  {
    hide ChainAt;
  }

  lemma PositionFollows(operations: seq<Operation>, s: System, i: nat)
    requires i < |operations|
    requires || (s.pc == StartingOperation(i) && ChainAt(operations, s.chain, Inside(i)))
             || (s.pc == CheckingAfterStep(i) && ChainAt(operations, s.chain, Between(i + 1)))
    ensures IndexesInRange(operations, s) && ChainFollowsExecutor(operations, s)
  {
    hide ChainAt;
  }

  lemma StepEndsKeepChain(operations: seq<Operation>, s: System, now: Time)
    requires HasOperations(operations, s.chain)
    requires IndexesInRange(operations, s) && ChainFollowsExecutor(operations, s)
    requires AwaitingFollowsExecutor(operations, s)
    requires s.context == s.chain.current || s.pc.FinishingStep?
    requires s.pc.StartingStep? || s.pc.FinishingStep?
    ensures IndexesInRange(operations, LoopStep(operations, s, now))
    ensures ChainFollowsExecutor(operations, LoopStep(operations, s, now))
  {
    if s.pc.StartingStep? {
      StartingStepInside(operations, s, now);
    } else {
      FinishingStepBetween(operations, s, now);
    }
    PositionFollows(operations, LoopStep(operations, s, now), s.pc.i);
    hide ChainAt, LoopStep, HasOperations, AwaitingFollowsExecutor, ChainFollowsExecutor;
  }

  lemma LoopKeepsChain(operations: seq<Operation>, s: System, now: Time)
    requires HasOperations(operations, s.chain)
    requires IndexesInRange(operations, s) && FlagsFollowExecutor(operations, s)
    requires ChainFollowsExecutor(operations, s) && AwaitingFollowsExecutor(operations, s)
    requires s.context == s.chain.current || s.pc.FinishingStep?
    requires !Handling(s.pc) && !InOperation(s.pc)
    ensures IndexesInRange(operations, LoopStep(operations, s, now))
    ensures ChainFollowsExecutor(operations, LoopStep(operations, s, now))
  {
    hide ChainAt;
    if s.pc.CancellingPending? || s.pc.StartingRun? || s.pc.CancellingBetween? || s.pc.FinishingRun? {
      EndsKeepChain(operations, s, now);
    } else if s.pc.StartingStep? || s.pc.FinishingStep? {
      StepEndsKeepChain(operations, s, now);
    } else {
      ChecksKeepChain(operations, s, now);
    }
  }

  /** A check stops the run only where a step is still to come. */
  lemma ChecksKeepChain(operations: seq<Operation>, s: System, now: Time)
    requires HasOperations(operations, s.chain)
    requires IndexesInRange(operations, s) && FlagsFollowExecutor(operations, s)
    requires ChainFollowsExecutor(operations, s)
    requires !Handling(s.pc) && !InOperation(s.pc)
    requires !s.pc.CancellingPending? && !s.pc.StartingRun? && !s.pc.CancellingBetween? && !s.pc.FinishingRun?
    requires !s.pc.StartingStep? && !s.pc.FinishingStep?
    ensures IndexesInRange(operations, LoopStep(operations, s, now))
    ensures ChainFollowsExecutor(operations, LoopStep(operations, s, now))
  {
    hide ChainAt;
    if s.pc.CheckingStep? && s.pc.i < |operations| {
      BetweenMayStop(operations, s.chain, s.pc.i);
    } else if s.pc.CheckingAfterStep? && s.pc.i + 1 < |operations| {
      BetweenMayStop(operations, s.chain, s.pc.i + 1);
    }
  }

  lemma AwaitingFollowsMove(operations: seq<Operation>, s: System, t: System, choice: Choice)
    requires IndexesInRange(operations, s) && AwaitingFollowsExecutor(operations, s)
    requires HasOperations(operations, s.chain) && InOperation(s.pc) && !s.pc.Reporting?
    requires s.pc.Completing? ==> !operations[s.pc.i].SendTo?
    requires s.pc.Placing? && choice.Plain? ==> operations[s.pc.i].SendTo?
    requires OperationFlows(s, t, choice) && t.chain == s.chain
    ensures AwaitingFollowsExecutor(operations, t)
  {
    if s.pc.Leaving? {
      LeavingFlowsTo(s, t, choice);
      LeftAwaitingFollows(operations, s, t);
    } else {
      InnerAwaitingFollows(operations, s, t, choice);
    }
    hide *;
  }

  lemma LeavingFlowsTo(s: System, t: System, choice: Choice)
    requires s.pc.Leaving? && OperationFlows(s, t, choice)
    ensures if s.pc.exit.Completed? then t.pc == FinishingStep(s.pc.i) else Handling(t.pc) && StepIndex(t.pc) == s.pc.i
  {
  }

  lemma LeftAwaitingFollows(operations: seq<Operation>, s: System, t: System)
    requires AwaitingFollowsExecutor(operations, s) && s.pc.Leaving? && t.chain == s.chain
    requires if s.pc.exit.Completed? then t.pc == FinishingStep(s.pc.i) else Handling(t.pc) && StepIndex(t.pc) == s.pc.i
    ensures AwaitingFollowsExecutor(operations, t)
  {
  }

  lemma InnerAwaitingFollows(operations: seq<Operation>, s: System, t: System, choice: Choice)
    requires IndexesInRange(operations, s) && AwaitingFollowsExecutor(operations, s)
    requires HasOperations(operations, s.chain) && InOperation(s.pc) && !s.pc.Reporting? && !s.pc.Leaving?
    requires s.pc.Completing? ==> !operations[s.pc.i].SendTo?
    requires s.pc.Placing? && choice.Plain? ==> operations[s.pc.i].SendTo?
    requires OperationFlows(s, t, choice) && t.chain == s.chain
    ensures AwaitingFollowsExecutor(operations, t)
  {
    hide LeavingFlows;
  }

  lemma CompletingIsNoTransfer(operations: seq<Operation>, s: System)
    requires IndexesInRange(operations, s) && OrdersFollowExecutor(operations, s) && OrdersLogged(operations, s)
    requires s.pc.Completing?
    ensures !operations[s.pc.i].SendTo?
  {
    hide WaitContract, MayHaveOrder;
  }

  lemma OperationKeepsAwaiting(operations: seq<Operation>, s: System, choice: Choice, now: Time)
    requires IndexesInRange(operations, s) && ChainFollowsExecutor(operations, s)
    requires AwaitingFollowsExecutor(operations, s)
    requires OrdersFollowExecutor(operations, s) && OrdersLogged(operations, s)
    requires HasOperations(operations, s.chain)
    requires InOperation(s.pc) && ExecutorEnabled(operations, s, choice)
    ensures AwaitingFollowsExecutor(operations, OperationStep(operations, s, choice, now))
  {
    hide ChainAt;
    if s.pc.Reporting? {
      ReportingKeepsAwaiting(operations, s, choice, now);
    } else {
      OperationMovesOn(operations, s, choice, now);
      PlacedAction(operations, s, choice);
      if s.pc.Completing? {
        CompletingIsNoTransfer(operations, s);
      }
      var t := OperationStep(operations, s, choice, now);
      assert OperationFlows(s, t, choice) && t.chain == s.chain;
      AwaitingFollowsMove(operations, s, t, choice);
    }
    hide *;
  }

  lemma ReportingKeepsAwaiting(operations: seq<Operation>, s: System, choice: Choice, now: Time)
    requires IndexesInRange(operations, s) && ChainFollowsExecutor(operations, s)
    requires AwaitingFollowsExecutor(operations, s)
    requires OrdersFollowExecutor(operations, s) && OrdersLogged(operations, s)
    requires HasOperations(operations, s.chain)
    requires s.pc.Reporting? && ExecutorEnabled(operations, s, choice)
    ensures AwaitingFollowsExecutor(operations, OperationStep(operations, s, choice, now))
  {
    hide ChainAt;
    MarkStepAwaitingAt(operations, s.chain, s.pc.i, AcceptedIdentifiers(s.pc.action), now);
  }

  lemma HandlerKeepsAwaiting(operations: seq<Operation>, s: System, now: Time)
    requires AwaitingFollowsExecutor(operations, s) && Handling(s.pc)
    ensures AwaitingFollowsExecutor(operations, HandlerStep(s, now))
  {
  }

  lemma StartingStepRuns(operations: seq<Operation>, s: System, now: Time)
    requires ChainFollowsExecutor(operations, s) && IndexesInRange(operations, s)
    requires s.context == s.chain.current && s.pc.StartingStep?
    ensures var t := LoopStep(operations, s, now);
      t.pc == StartingOperation(s.pc.i) && s.pc.i < |t.chain.steps| && t.chain.steps[s.pc.i].status == StepRunning
  {
    StartStepAt(operations, s.chain, s.pc.i, now);
    hide ChainAt;
  }

  lemma LoopMoveKeepsAwaiting(operations: seq<Operation>, s: System, t: System)
    requires AwaitingFollowsExecutor(operations, s) && LoopMoves(s, t)
    requires !Handling(s.pc) && !InOperation(s.pc) && !s.pc.StartingStep?
    ensures AwaitingFollowsExecutor(operations, t)
  {
    if s.pc.StartingOperation? {
      assert t.chain == s.chain;
    } else {
      assert !Handling(t.pc) && !InOperation(t.pc) && !t.pc.StartingOperation? && !t.pc.FinishingStep?;
    }
    hide LoopMoves;
  }

  lemma LoopKeepsAwaiting(operations: seq<Operation>, s: System, now: Time)
    requires IndexesInRange(operations, s) && ChainFollowsExecutor(operations, s)
    requires AwaitingFollowsExecutor(operations, s)
    requires s.context == s.chain.current || s.pc.FinishingStep?
    requires HasOperations(operations, s.chain)
    requires !Handling(s.pc) && !InOperation(s.pc)
    ensures AwaitingFollowsExecutor(operations, LoopStep(operations, s, now))
  {
    if s.pc.StartingStep? {
      StartingStepRuns(operations, s, now);
    } else {
      LoopMovesOn(operations, s, now);
      LoopMoveKeepsAwaiting(operations, s, LoopStep(operations, s, now));
    }
    hide LoopStep, LoopMoves, ChainFollowsExecutor, HasOperations;
  }

  // ---- Contexts and step records ----

  lemma OperationKeepsContext(operations: seq<Operation>, s: System, choice: Choice, now: Time)
    requires IndexesInRange(operations, s) && OrdersFollowExecutor(operations, s) && OrdersLogged(operations, s)
    requires ChainFollowsExecutor(operations, s) && AwaitingFollowsExecutor(operations, s)
    requires HasOperations(operations, s.chain) && ContextFollows(operations, s)
    requires InOperation(s.pc) && ExecutorEnabled(operations, s, choice)
    ensures IndexesInRange(operations, OperationStep(operations, s, choice, now))
    ensures ContextFollows(operations, OperationStep(operations, s, choice, now))
  {
    hide ChainAt;
    OperationKeepsIndexes(operations, s, choice, now);
    if s.pc.Reporting? {
      MarkStepAwaitingAt(operations, s.chain, s.pc.i, AcceptedIdentifiers(s.pc.action), now);
    } else {
      OperationRecordFrame(operations, s, choice, now);
    }
  }

  /** What an operation's step changes in the log and in the record of its own step `i`. */
  lemma OperationTouches(operations: seq<Operation>, s: System, choice: Choice, now: Time, i: nat)
    requires IndexesInRange(operations, s) && InOperation(s.pc) && ExecutorEnabled(operations, s, choice)
    requires i == StepIndex(s.pc)
    ensures var t := OperationStep(operations, s, choice, now);
      && (t.log.fills == s.log.fills || (t.pc.Completing? && t.log.fills.Keys == s.log.fills.Keys + {i}
                                         && forall j :: j in s.log.fills && j != i ==>
                                               t.log.fills[j] == s.log.fills[j]))
      && t.log.accepted.Keys <= s.log.accepted.Keys + {i}
  {
    OperationMovesOn(operations, s, choice, now);
    hide OperationStep, ExecutorEnabled, OperationCoordinates;
  }

  lemma SameRecord(operations: seq<Operation>, s: System, t: System, i: nat, j: nat)
    requires j < |operations| && |s.chain.steps| == |t.chain.steps| == |operations| && i < |operations|
    requires StepRecorded(operations, s, j)
    requires t.log.capturedAt == s.log.capturedAt && t.log.report == s.log.report
    requires j != i ==> t.chain.steps[j] == s.chain.steps[j]
    requires t.chain.steps[i].IsActive() && (i in t.log.fills ==> Succeeding(t.pc, i))
    requires t.log.fills.Keys <= s.log.fills.Keys + {i} && t.log.accepted.Keys <= s.log.accepted.Keys + {i}
    requires forall j :: j in s.log.fills && j != i ==> j in t.log.fills && t.log.fills[j] == s.log.fills[j]
    requires StepIndex(s.pc) == i
    ensures StepRecorded(operations, t, j)
  {
  }

  lemma OperationKeepsRecords(operations: seq<Operation>, s: System, choice: Choice, now: Time)
    requires IndexesInRange(operations, s) && OrdersFollowExecutor(operations, s) && OrdersLogged(operations, s)
    requires ChainFollowsExecutor(operations, s) && AwaitingFollowsExecutor(operations, s)
    requires HasOperations(operations, s.chain) && StepsRecorded(operations, s)
    requires InOperation(s.pc) && ExecutorEnabled(operations, s, choice)
    ensures StepsRecorded(operations, OperationStep(operations, s, choice, now))
  {
    var t := OperationStep(operations, s, choice, now);
    var i := StepIndex(s.pc);
    ActiveInside(operations, s.chain, i);
    assert i in t.log.fills ==> Succeeding(t.pc, i) by {
      assert StepRecorded(operations, s, i);
      FillSucceeds(operations, s, choice, now);
    }
    OperationTouches(operations, s, choice, now, i);
    hide ChainAt, AwaitingFollowsExecutor;
    OperationFrame(operations, s, choice, now);
    if s.pc.Reporting? {
      MarkStepAwaitingAt(operations, s.chain, i, AcceptedIdentifiers(s.pc.action), now);
    } else {
      OperationRecordFrame(operations, s, choice, now);
    }
    hide *;
    forall j | 0 <= j < |operations|
      ensures StepRecorded(operations, t, j)
    {
      assert StepRecorded(operations, s, j);
      SameRecord(operations, s, t, i, j);
    }
  }

  lemma ActiveInside(operations: seq<Operation>, chain: Chain, i: nat)
    requires ChainAt(operations, chain, Inside(i))
    ensures chain.steps[i].IsActive()
  {
  }

  lemma FillSucceeds(operations: seq<Operation>, s: System, choice: Choice, now: Time)
    requires IndexesInRange(operations, s) && InOperation(s.pc) && ExecutorEnabled(operations, s, choice)
    requires StepIndex(s.pc) in s.log.fills ==> Succeeding(s.pc, StepIndex(s.pc))
    ensures var t := OperationStep(operations, s, choice, now);
      StepIndex(s.pc) in t.log.fills ==> Succeeding(t.pc, StepIndex(s.pc))
  {
    OperationMovesOn(operations, s, choice, now);
    hide OperationStep, ExecutorEnabled, OperationCoordinates;
  }

  lemma EndingKeepsCurrent(operations: seq<Operation>, s: System, now: Time)
    requires IndexesInRange(operations, s) && ChainFollowsExecutor(operations, s) && s.context == s.chain.current
    requires s.pc.CancellingStep? || s.pc.FailingStep?
    ensures var t := HandlerStep(s, now); t.pc.FinishingChain? && t.context == t.chain.current
  {
    if s.pc.CancellingStep? {
      CancelStepAt(operations, s.chain, s.pc.i, now);
    } else {
      FailExecutionAt(operations, s.chain, s.pc.i, s.pc.error, now);
    }
    hide ChainAt;
  }

  lemma EndedContextFollows(operations: seq<Operation>, s: System)
    requires s.pc.FinishingChain? && s.context == s.chain.current
    ensures IndexesInRange(operations, s) && ContextFollows(operations, s)
  {
  }

  lemma HandlingContextFollows(operations: seq<Operation>, s: System, t: System)
    requires IndexesInRange(operations, s) && ContextFollows(operations, s) && Handling(s.pc)
    requires Handling(t.pc) && StepIndex(t.pc) == StepIndex(s.pc) && t.chain == s.chain && t.context == s.context
    ensures IndexesInRange(operations, t) && ContextFollows(operations, t)
  {
  }

  lemma HandlerKeepsContext(operations: seq<Operation>, s: System, now: Time)
    requires IndexesInRange(operations, s) && ChainFollowsExecutor(operations, s) && ContextFollows(operations, s)
    requires HasOperations(operations, s.chain) && Handling(s.pc)
    ensures IndexesInRange(operations, HandlerStep(s, now))
    ensures ContextFollows(operations, HandlerStep(s, now))
  {
    var t := HandlerStep(s, now);
    if s.pc.CancellingStep? || s.pc.FailingStep? {
      EndingKeepsCurrent(operations, s, now);
      EndedContextFollows(operations, t);
    } else {
      HandlerFrame(s, now);
      HandlingContextFollows(operations, s, t);
    }
    hide *;
  }

  /** A step is only cancelled with its order accepted when the exchange reported it cancelled. */
  lemma CancellingIsConfirmed(operations: seq<Operation>, s: System)
    requires IndexesInRange(operations, s) && OrdersFollowExecutor(operations, s) && OrdersLogged(operations, s)
    requires VerdictFollowsWorker(s) && CaptureFollows(operations, s) && HandlesExit(s) && VerdictReachesHandler(s)
    requires s.pc.CancellingStep? && s.pc.i in s.log.accepted
    ensures s.log.capturedAt == Some(s.pc.i) && s.log.report == Some(FoundCancelled)
  {
  }

  lemma EndedRecords(operations: seq<Operation>, s: System, t: System, i: nat)
    requires |t.chain.steps| == |operations| && i < |operations| && StepsRecorded(operations, s)
    requires t.log == s.log && Handling(s.pc) && s.chain.steps[i].IsActive()
    requires t.chain.steps[i].status !in {StepSucceeded, StepPending}
    requires forall j :: 0 <= j < |operations| && j != i ==> t.chain.steps[j] == s.chain.steps[j]
    requires t.chain.steps[i].status == StepCancelled && i in s.log.accepted ==>
               s.log.capturedAt == Some(i) && s.log.report == Some(FoundCancelled)
    ensures StepsRecorded(operations, t)
  {
    forall j | 0 <= j < |operations|
      ensures StepRecorded(operations, t, j)
    {
      assert StepRecorded(operations, s, j);
    }
  }

  lemma HandlerKeepsRecords(operations: seq<Operation>, s: System, now: Time)
    requires IndexesInRange(operations, s) && ChainFollowsExecutor(operations, s) && ContextFollows(operations, s)
    requires OrdersFollowExecutor(operations, s) && OrdersLogged(operations, s) && VerdictFollowsWorker(s)
    requires CaptureFollows(operations, s) && HandlesExit(s) && VerdictReachesHandler(s)
    requires HasOperations(operations, s.chain) && StepsRecorded(operations, s) && Handling(s.pc)
    ensures StepsRecorded(operations, HandlerStep(s, now))
  {
    var i := s.pc.i;
    HandlerFrame(s, now);
    ActiveInside(operations, s.chain, i);
    if s.pc.CancellingStep? && i in s.log.accepted {
      CancellingIsConfirmed(operations, s);
    }
    hide ChainAt, VerdictFollowsWorker, CaptureFollows, VerdictReachesHandler, HandlesExit, OrdersFollowExecutor,
         OrdersLogged, StepsRecorded;
    if s.pc.CancellingStep? {
      CancelStepAt(operations, s.chain, i, now);
    } else if s.pc.FailingStep? {
      FailExecutionAt(operations, s.chain, i, s.pc.error, now);
    }
    EndedRecords(operations, s, HandlerStep(s, now), i);
  }

  /** What the loop writes to the steps: it starts one, finishes one, or leaves them alone. */
  lemma LoopTouches(operations: seq<Operation>, s: System, now: Time)
    requires IndexesInRange(operations, s) && ChainFollowsExecutor(operations, s)
    requires AwaitingFollowsExecutor(operations, s)
    requires HasOperations(operations, s.chain) && ContextFollows(operations, s)
    requires !Handling(s.pc) && !InOperation(s.pc)
    ensures var t := LoopStep(operations, s, now);
      && (s.pc.FinishingStep? ==>
            && OnlyStepChanged(s.chain, t.chain, s.pc.i) && t.chain.current == s.context
            && t.chain.steps[s.pc.i].output == Some(s.context) && t.chain.steps[s.pc.i].input == Some(s.chain.current)
            && t.chain.steps[s.pc.i].status == StepSucceeded)
      && (s.pc.StartingStep? ==> Rewrites(s.chain, t.chain, s.pc.i, StepRunning))
      && (!s.pc.FinishingStep? && !s.pc.StartingStep? ==> KeepsSteps(s.chain, t.chain))
  {
    hide ChainAt;
    match s.pc
    case CancellingPending => CancelPendingAt(operations, s.chain, now);
    case StartingRun => StartExecutionAt(operations, s.chain, now);
    case CancellingBetween => CancelBetweenAt(operations, s.chain, now);
    case FinishingRun => FinishExecutionAt(operations, s.chain, now);
    case StartingStep(i) => StartStepAt(operations, s.chain, i, now);
    case FinishingStep(i) => FinishStepAt(operations, s.chain, i, s.context, now);
    case _ =>
  }

  lemma LoopKeepsContext(operations: seq<Operation>, s: System, now: Time)
    requires IndexesInRange(operations, s) && ChainFollowsExecutor(operations, s)
    requires AwaitingFollowsExecutor(operations, s)
    requires HasOperations(operations, s.chain) && ContextFollows(operations, s)
    requires !Handling(s.pc) && !InOperation(s.pc)
    requires IndexesInRange(operations, LoopStep(operations, s, now))
    ensures ContextFollows(operations, LoopStep(operations, s, now))
  {
    LoopMovesOn(operations, s, now);
    LoopTouches(operations, s, now);
    hide LoopStep, ChainFollowsExecutor, AwaitingFollowsExecutor;
  }

  lemma LoopKeepsRecords(operations: seq<Operation>, s: System, now: Time)
    requires IndexesInRange(operations, s) && ChainFollowsExecutor(operations, s)
    requires AwaitingFollowsExecutor(operations, s)
    requires HasOperations(operations, s.chain) && ContextFollows(operations, s) && StepsRecorded(operations, s)
    requires !Handling(s.pc) && !InOperation(s.pc)
    requires IndexesInRange(operations, LoopStep(operations, s, now))
    ensures StepsRecorded(operations, LoopStep(operations, s, now))
  {
    hide ChainAt;
    var t := LoopStep(operations, s, now);
    LoopFrame(operations, s, now);
    LoopTouches(operations, s, now);
    forall j | 0 <= j < |operations|
      ensures StepRecorded(operations, t, j)
    {
      assert StepRecorded(operations, s, j);
    }
  }

  // ---- Every step keeps the whole invariant ----

  lemma ExecutorKeeps(operations: seq<Operation>, s: System, choice: Choice, now: Time)
    requires Inv(operations, s) && ExecutorEnabled(operations, s, choice)
    ensures Inv(operations, ExecutorStep(operations, s, choice, now))
  {
    if InOperation(s.pc) {
      OperationKeeps(operations, s, choice, now);
    } else if Handling(s.pc) {
      HandlerKeeps(operations, s, choice, now);
    } else {
      LoopKeeps(operations, s, now);
    }
  }

  lemma OperationKeeps(operations: seq<Operation>, s: System, choice: Choice, now: Time)
    requires Inv(operations, s) && InOperation(s.pc) && ExecutorEnabled(operations, s, choice)
    ensures Inv(operations, OperationStep(operations, s, choice, now))
  {
    var t := OperationStep(operations, s, choice, now);
    ChainHasOperations(operations, s.chain, PositionOf(operations, s.pc));
    assert !Ended(t.pc) by { OperationKeepsIndexes(operations, s, choice, now); }
    hide IndexesInRange, FlagsFollowExecutor, OrdersFollowExecutor, OrdersLogged, FlagsFollowWorker,
         VerdictFollowsWorker, CaptureFollows, NothingAfterEmptyLeave, RequestBoundsPlacing, HandlesExit,
         VerdictReachesHandler, EndAgrees, ChainFollowsExecutor, AwaitingFollowsExecutor, ContextFollows,
         StepsRecorded, HasOperations, ChainAt, OperationStep, ExecutorEnabled;
    OperationKeepsIndexes(operations, s, choice, now);
    OperationKeepsFlags(operations, s, choice, now);
    OperationKeepsOrders(operations, s, choice, now);
    OperationKeepsOrderLog(operations, s, choice, now);
    OperationKeepsVerdict(operations, s, choice, now);
    OperationKeepsCapture(operations, s, choice, now);
    OperationKeepsPlacing(operations, s, choice, now);
    OperationKeepsHandler(operations, s, choice, now);
    OperationKeepsExit(operations, s, choice, now);
    OperationKeepsChain(operations, s, choice, now);
    OperationKeepsAwaiting(operations, s, choice, now);
    OperationKeepsContext(operations, s, choice, now);
    OperationKeepsRecords(operations, s, choice, now);
  }

  lemma OperationKeepsVerdict(operations: seq<Operation>, s: System, choice: Choice, now: Time)
    requires IndexesInRange(operations, s) && FlagsFollowExecutor(operations, s)
    requires FlagsFollowWorker(s) && VerdictFollowsWorker(s)
    requires InOperation(s.pc) && ExecutorEnabled(operations, s, choice)
    ensures FlagsFollowWorker(OperationStep(operations, s, choice, now))
    ensures VerdictFollowsWorker(OperationStep(operations, s, choice, now))
  {
    if s.pc.Completing? {
      CompletingKeepsVerdict(operations, s, choice, now);
    } else {
      OperationFrame(operations, s, choice, now);
      hide OperationStep;
      WorkerSideHolds(s, OperationStep(operations, s, choice, now));
    }
  }

  lemma ChainHasOperations(operations: seq<Operation>, chain: Chain, position: Position)
    requires ChainAt(operations, chain, position)
    ensures HasOperations(operations, chain)
  {
  }

  lemma HandlerKeeps(operations: seq<Operation>, s: System, choice: Choice, now: Time)
    requires Inv(operations, s) && Handling(s.pc) && ExecutorEnabled(operations, s, choice)
    ensures Inv(operations, HandlerStep(s, now))
  {
    var t := HandlerStep(s, now);
    ChainHasOperations(operations, s.chain, PositionOf(operations, s.pc));
    HandlerFrame(s, now);
    WorkerSideHolds(s, t);
    assert s.context == s.chain.current;
    hide IndexesInRange, FlagsFollowExecutor, OrdersFollowExecutor, OrdersLogged, FlagsFollowWorker,
         VerdictFollowsWorker, CaptureFollows, NothingAfterEmptyLeave, RequestBoundsPlacing, HandlesExit,
         VerdictReachesHandler, EndAgrees, ChainFollowsExecutor, AwaitingFollowsExecutor, ContextFollows,
         StepsRecorded, HasOperations, ChainAt, HandlerStep, ExecutorEnabled;
    HandlerKeepsChain(operations, s, now);
    HandlerKeepsFlags(operations, s, now);
    HandlerKeepsCapture(operations, s, now);
    HandlerKeepsHandler(operations, s, choice, now);
    HandlerKeepsEnd(operations, s, choice, now);
    HandlerKeepsAwaiting(operations, s, now);
    HandlerKeepsContext(operations, s, now);
    HandlerKeepsRecords(operations, s, now);
  }

  lemma LoopKeeps(operations: seq<Operation>, s: System, now: Time)
    requires Inv(operations, s) && !InOperation(s.pc) && !Handling(s.pc)
    ensures Inv(operations, LoopStep(operations, s, now))
  {
    var t := LoopStep(operations, s, now);
    ChainHasOperations(operations, s.chain, PositionOf(operations, s.pc));
    assert s.context == s.chain.current || s.pc.FinishingStep?;
    LoopKeepsVerdict(operations, s, now);
    hide IndexesInRange, FlagsFollowExecutor, OrdersFollowExecutor, OrdersLogged, FlagsFollowWorker,
         VerdictFollowsWorker, CaptureFollows, NothingAfterEmptyLeave, RequestBoundsPlacing, HandlesExit,
         VerdictReachesHandler, EndAgrees, ChainFollowsExecutor, AwaitingFollowsExecutor, ContextFollows,
         StepsRecorded, HasOperations, ChainAt, LoopStep;
    LoopKeepsChain(operations, s, now);
    LoopKeepsFlags(operations, s, now);
    LoopKeepsOrders(operations, s, now);
    LoopKeepsOrderLog(operations, s, now);
    LoopKeepsCapture(operations, s, now);
    LoopKeepsPlacing(operations, s, now);
    LoopKeepsHandler(operations, s, now);
    LoopKeepsEnd(operations, s, now);
    LoopKeepsAwaiting(operations, s, now);
    LoopKeepsContext(operations, s, now);
    LoopKeepsRecords(operations, s, now);
  }

  lemma LoopKeepsVerdict(operations: seq<Operation>, s: System, now: Time)
    requires IndexesInRange(operations, s) && FlagsFollowExecutor(operations, s) && CaptureFollows(operations, s)
    requires FlagsFollowWorker(s) && VerdictFollowsWorker(s) && !InOperation(s.pc) && !Handling(s.pc)
    ensures FlagsFollowWorker(LoopStep(operations, s, now))
    ensures VerdictFollowsWorker(LoopStep(operations, s, now))
  {
    if s.pc.StartingOperation? {
      StartingOperationKeepsVerdict(operations, s, now);
    } else {
      LoopFrame(operations, s, now);
      hide LoopStep;
      WorkerSideHolds(s, LoopStep(operations, s, now));
    }
  }

  lemma CancellerKeeps(operations: seq<Operation>, s: System, choice: Choice)
    requires Inv(operations, s) && CancellerEnabled(s, choice)
    ensures Inv(operations, CancellerStep(s, choice))
  {
    hide IndexesInRange, FlagsFollowExecutor, OrdersFollowExecutor, OrdersLogged, FlagsFollowWorker,
         VerdictFollowsWorker, CaptureFollows, NothingAfterEmptyLeave, RequestBoundsPlacing, HandlesExit,
         VerdictReachesHandler, EndAgrees, ChainFollowsExecutor, AwaitingFollowsExecutor, ContextFollows,
         StepsRecorded, HasOperations, ChainAt, CancellerStep, CancellerEnabled;
    CancellerKeepsExecutorSide(operations, s, choice);
    CancellerKeepsWorker(operations, s, choice);
    CancellerKeepsVerdict(operations, s, choice);
    CancellerKeepsCapture(operations, s, choice);
    CancellerKeepsPlacing(operations, s, choice);
    CancellerKeepsHandler(operations, s, choice);
    CancellerKeepsChain(operations, s, choice);
  }
}
