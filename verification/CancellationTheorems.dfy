/** What the cancellation protocol guarantees, over every interleaving of the two threads and every
    answer of the exchange. */
module CancellationTheorems {
  import opened Domain
  import opened OrderStatus
  import opened CoordinatorState
  import opened ChainState
  import opened ChainShape
  import opened CancellationProtocol
  import opened CancellationInvariant
  import opened CancellationMoves
  import opened CancellationSteps

  // ---- Every reachable state satisfies the invariant ----

  lemma RunShape(t: Trace)
    requires IsRun(t)
    ensures |t.states| == |t.events| + 1
  {
  }

  lemma RunStarts(t: Trace)
    requires IsRun(t)
    ensures |t.states| > 0 && Inv(t.operations, t.states[0])
  {
    var context: Context, now: Time :| t.states[0] == Initial(t.operations, context, now);
    InitialKeeps(t.operations, context, now);
    hide Inv, Initial;
  }

  lemma RunGoesOn(t: Trace, k: nat)
    requires IsRun(t) && k < |t.events| && k + 1 < |t.states| && Inv(t.operations, t.states[k])
    ensures Inv(t.operations, t.states[k + 1])
  {
    StepOf(t, k);
    hide *;
    StepKeepsInvariant(t.operations, t.states[k], t.events[k]);
  }

  lemma {:induction false} RunKeepsInvariant(t: Trace, k: nat)
    requires IsRun(t) && k < |t.states|
    ensures Inv(t.operations, t.states[k])
  {
    hide *;
    RunShape(t);
    if k == 0 {
      RunStarts(t);
    } else {
      RunKeepsInvariant(t, k - 1);
      RunGoesOn(t, k - 1);
    }
  }

  lemma StepOf(t: Trace, k: nat)
    requires IsRun(t) && k < |t.events|
    ensures k + 1 < |t.states| && Enabled(t.operations, t.states[k], t.events[k])
    ensures t.states[k + 1] == Apply(t.operations, t.states[k], t.events[k])
  {
    assert StepHolds(t, k);
  }

  lemma StepKeepsInvariant(operations: seq<Operation>, s: System, event: Event)
    requires Inv(operations, s) && Enabled(operations, s, event)
    ensures Inv(operations, Apply(operations, s, event))
  {
    hide Inv;
    match event
    case Executor(choice, now) => ExecutorKeeps(operations, s, choice, now);
    case Canceller(choice) => CancellerKeeps(operations, s, choice);
  }

  // ---- Guards ----

  lemma GuardsHold(operations: seq<Operation>, s: System)
    requires Inv(operations, s)
    ensures !s.pc.Escaped?
    ensures s.pc.Registering? ==> s.coordinator.RegisterAction(s.pc.action).Ok?
    ensures s.pc.Reporting? ==> s.chain.MarkStepAwaiting(s.pc.i, AcceptedIdentifiers(s.pc.action), 0).Ok?
    ensures !s.pc.Registering? ==> s.log.registered == s.log.accepted
  {
    if s.pc.Registering? {
      RegisteringSucceeds(operations, s);
    } else if s.pc.Reporting? {
      MarkStepAwaitingAt(operations, s.chain, s.pc.i, AcceptedIdentifiers(s.pc.action), 0);
    }
    hide ChainAt, WaitContract, StepsRecorded;
  }

  /** No exception guard of the chain or of the coordinator ever fires, so every order the exchange
      accepted is registered for cancellation. */
  lemma GuardsNeverTrip(t: Trace, k: nat)
    requires IsRun(t) && k < |t.states|
    ensures !t.states[k].pc.Escaped?
    ensures t.states[k].pc.Registering? ==> t.states[k].coordinator.RegisterAction(t.states[k].pc.action).Ok?
    ensures t.states[k].pc.Reporting? ==>
              t.states[k].chain.MarkStepAwaiting(t.states[k].pc.i, AcceptedIdentifiers(t.states[k].pc.action), 0).Ok?
    ensures !t.states[k].pc.Registering? ==> t.states[k].log.registered == t.states[k].log.accepted
  {
    RunKeepsInvariant(t, k);
    GuardsHold(t.operations, t.states[k]);
    hide *;
  }

  // ---- No lost cancellation ----

  /** No step of the executor touches the canceller's side, and only an operation enters anything in the log. */
  lemma ExecutorFrame(operations: seq<Operation>, s: System, choice: Choice, now: Time)
    requires ExecutorEnabled(operations, s, choice)
    ensures var t := ExecutorStep(operations, s, choice, now);
      WorkerSideKept(s, t) && (InOperation(s.pc) || t.log == s.log)
  {
    if InOperation(s.pc) {
      OperationFrame(operations, s, choice, now);
    } else if Handling(s.pc) {
      HandlerFrame(s, now);
    } else {
      LoopFrame(operations, s, now);
    }
    hide OperationStep, HandlerStep, LoopStep, ExecutorEnabled;
  }

  lemma EmptyLeaveStays(operations: seq<Operation>, s: System, event: Event)
    requires Inv(operations, s) && LeftWithoutAction(s) && Enabled(operations, s, event)
    ensures var t := Apply(operations, s, event); LeftWithoutAction(t) && t.log.registered == s.log.registered
  {
    match event
    case Canceller(choice) => CancellerFrame(s, choice);
    case Executor(choice, now) =>
      ExecutorFrame(operations, s, choice, now);
      if InOperation(s.pc) {
        OperationRecordFrame(operations, s, choice, now);
      }
      hide ExecutorEnabled, OperationStep;
  }

  /** Once the cancelling thread has left its wait with nothing to cancel, this run registers no order. */
  lemma {:induction false} NoLostCancellation(t: Trace, from: nat, to: nat)
    requires IsRun(t) && from <= to < |t.states| && LeftWithoutAction(t.states[from])
    ensures LeftWithoutAction(t.states[to]) && t.states[to].log.registered == t.states[from].log.registered
  {
    assert |t.states| == |t.events| + 1;
    hide *;
    if from < to {
      NoLostCancellation(t, from, to - 1);
      EmptyLeaveStaysAlong(t, to - 1);
    }
  }

  lemma EmptyLeaveStaysAlong(t: Trace, k: nat)
    requires IsRun(t) && k < |t.events| && k + 1 < |t.states| && LeftWithoutAction(t.states[k])
    ensures LeftWithoutAction(t.states[k + 1]) && t.states[k + 1].log.registered == t.states[k].log.registered
  {
    RunKeepsInvariant(t, k);
    StepOf(t, k);
    EmptyLeaveStays(t.operations, t.states[k], t.events[k]);
    hide *;
  }

  /** Event `m` is the end, by an exception, of the fill wait of step `j`. */
  predicate EndsWaitInException(t: Trace, m: nat, j: nat) {
    && m < |t.events| && m < |t.states| && t.states[m].pc.Waiting? && t.states[m].pc.i == j && t.events[m].Executor?
    && (t.events[m].choice.Interrupts? || t.events[m].choice.Throws? || t.events[m].choice.ThrowsNonStandard?)
  }

  predicate IsException(exit: Exit) {
    exit.Interrupted? || exit.Threw? || exit.ThrewNonStandard?
  }

  /** At the end of a run every accepted order has been filled, was captured and reported cancelled,
      or had its own fill wait end in an exception, which failed the step. */
  lemma EveryOrderSettled(t: Trace, k: nat, j: nat)
    requires IsRun(t) && k < |t.states| && t.states[k].pc.Done? && j in t.states[k].log.accepted
    ensures var s := t.states[k];
      && j < |s.chain.steps|
      && match s.chain.steps[j].status {
           case StepSucceeded => j in s.log.fills && WaitContract(s.log.accepted[j], s.log.fills[j])
           case StepCancelled => s.log.capturedAt == Some(j) && s.log.report == Some(FoundCancelled)
           case StepFailed =>
             && s.chain.status == ChainFailed && s.chain.steps[j].error == s.chain.error
             && j !in s.log.fills && s.log.exit.Some? && IsException(s.log.exit.value)
             && exists m: nat :: m < k && EndsWaitInException(t, m, j)
           case _ => false
         }
  {
    RunKeepsInvariant(t, k);
    assert StepRecorded(t.operations, t.states[k], j);
    OrderSettled(t.operations, t.states[k], j);
    if t.states[k].chain.steps[j].status == StepFailed {
      var m := FindWaitEnd(t, k, j);
      assert m < k && EndsWaitInException(t, m, j);
    }
    hide *;
  }

  /** An accepted order without a fill in a run that left an operation by an exception: the moment at which
      that order's wait ended. */
  lemma {:induction false} FindWaitEnd(t: Trace, k: nat, j: nat) returns (m: nat)
    requires IsRun(t) && k < |t.states|
    requires var log := t.states[k].log;
      j in log.accepted && j !in log.fills && log.exit.Some? && IsException(log.exit.value)
    ensures m < k && EndsWaitInException(t, m, j)
  {
    assert |t.states| == |t.events| + 1;
    if k > 0 {
      RunKeepsInvariant(t, k - 1);
      StepOf(t, k - 1);
      WaitEndsOrEnded(t.operations, t.states[k - 1], t.events[k - 1], j);
      hide *;
      if WaitHasEnded(t.states[k - 1].log, j) {
        WaitHasEndedMeans(t.states[k - 1].log, j);
        m := FindWaitEnd(t, k - 1, j);
      } else {
        m := k - 1;
        EndsWaitMeans(t, m, j);
      }
    } else {
      InitialReportsNothing(t);
    }
  }

  predicate WaitHasEnded(log: Log, j: nat) {
    j in log.accepted && j !in log.fills && log.exit.Some? && IsException(log.exit.value)
  }

  predicate EndsWait(s: System, event: Event, j: nat) {
    && s.pc.Waiting? && s.pc.i == j && event.Executor?
    && (event.choice.Interrupts? || event.choice.Throws? || event.choice.ThrowsNonStandard?)
  }

  lemma WaitHasEndedMeans(log: Log, j: nat)
    requires WaitHasEnded(log, j)
    ensures j in log.accepted && j !in log.fills && log.exit.Some? && IsException(log.exit.value)
  {
  }

  lemma EndsWaitMeans(t: Trace, m: nat, j: nat)
    requires m < |t.events| && m < |t.states| && EndsWait(t.states[m], t.events[m], j)
    ensures EndsWaitInException(t, m, j)
  {
  }

  lemma ReportingGoesOn(operations: seq<Operation>, s: System, choice: Choice, now: Time)
    requires Inv(operations, s) && s.pc.Reporting? && ExecutorEnabled(operations, s, choice)
    ensures !OperationStep(operations, s, choice, now).pc.Leaving?
  {
    MarkStepAwaitingAt(operations, s.chain, s.pc.i, AcceptedIdentifiers(s.pc.action), now);
    hide ChainAt, StepsRecorded, OrdersLogged, CaptureFollows, EndAgrees;
  }

  lemma WaitEndsOrEnded(operations: seq<Operation>, s: System, event: Event, j: nat)
    requires Inv(operations, s) && Enabled(operations, s, event)
    requires WaitHasEnded(Apply(operations, s, event).log, j)
    ensures WaitHasEnded(s.log, j) || EndsWait(s, event, j)
  {
    match event
    case Canceller(choice) =>
      CancellerFrame(s, choice);
      hide CancellerStep, CancellerEnabled;
    case Executor(choice, now) =>
      if InOperation(s.pc) {
        OperationMovesOn(operations, s, choice, now);
        if s.pc.Reporting? {
          ReportingGoesOn(operations, s, choice, now);
        }
        OperationEndsWait(operations, s, OperationStep(operations, s, choice, now), choice, now, j);
      } else {
        ExecutorFrame(operations, s, choice, now);
      }
      hide OperationStep, HandlerStep, LoopStep, ExecutorEnabled, OperationMoves;
  }

  /** An earlier step with an accepted order has its fill, so only the wait of the step itself can end
      without one. */
  lemma OperationEndsWait(operations: seq<Operation>, s: System, t: System, choice: Choice, now: Time, j: nat)
    requires Inv(operations, s) && InOperation(s.pc) && OperationMoves(s, t, choice) && WaitHasEnded(t.log, j)
    requires s.pc.Reporting? ==> !t.pc.Leaving?
    ensures WaitHasEnded(s.log, j) || EndsWait(s, Executor(choice, now), j)
  {
    if j != StepIndex(s.pc) && j in s.log.accepted {
      EarlierOrderIsFilled(operations, s, j);
    }
    GuardsHold(operations, s);
    LogIsOrdered(operations, s);
    LogEndsWait(operations, s, t, choice, now, j);
    hide *;
  }

  lemma LogIsOrdered(operations: seq<Operation>, s: System)
    requires Inv(operations, s)
    ensures OrdersLogged(operations, s) && HandlesExit(s)
  {
    hide OrdersLogged, HandlesExit;
  }

  lemma LogEndsWait(operations: seq<Operation>, s: System, t: System, choice: Choice, now: Time, j: nat)
    requires OrdersLogged(operations, s) && HandlesExit(s)
    requires InOperation(s.pc) && OperationMoves(s, t, choice) && WaitHasEnded(t.log, j)
    requires j != StepIndex(s.pc) && j in s.log.accepted ==> j in s.log.fills
    requires s.pc.Registering? ==> s.coordinator.RegisterAction(s.pc.action).Ok?
    requires s.pc.Reporting? ==> !t.pc.Leaving?
    ensures WaitHasEnded(s.log, j) || EndsWait(s, Executor(choice, now), j)
  {
    hide PlacementContract, WaitContract;
  }

  lemma EarlierOrderIsFilled(operations: seq<Operation>, s: System, j: nat)
    requires Inv(operations, s) && InOperation(s.pc) && j != StepIndex(s.pc) && j in s.log.accepted
    ensures j in s.log.fills
  {
    assert j < StepIndex(s.pc) && PlacementContract(operations[j], s.log.accepted[j]) by {
      hide ChainAt, StepsRecorded, WaitContract;
    }
    assert StepRecorded(operations, s, j);
    EarlierStepSucceeded(operations, s.chain, StepIndex(s.pc), j);
    hide ChainAt, OrdersLogged, WaitContract, CaptureFollows, EndAgrees;
  }

  lemma EarlierStepSucceeded(operations: seq<Operation>, chain: Chain, i: nat, j: nat)
    requires ChainAt(operations, chain, Inside(i)) && j < i
    ensures j < |chain.steps| && chain.steps[j].status == StepSucceeded
    ensures chain.steps[j].input.Some? && chain.steps[j].output.Some?
  {
  }

  lemma EndedStepStatus(operations: seq<Operation>, chain: Chain, j: nat)
    requires ChainAt(operations, chain, Over) && j < |operations|
    ensures !chain.steps[j].IsActive()
    ensures chain.steps[j].status == StepFailed ==> chain.status == ChainFailed && chain.steps[j].error == chain.error
    ensures chain.steps[j].status == StepCancelled ==> chain.status == ChainCancelled
  {
  }

  lemma OrderSettled(operations: seq<Operation>, s: System, j: nat)
    requires ChainAt(operations, s.chain, Over) && IndexesInRange(operations, s) && OrdersLogged(operations, s)
    requires j < |operations| && |s.chain.steps| == |operations| && StepRecorded(operations, s, j)
    requires s.pc.Done? && j in s.log.accepted && EndAgrees(s)
    ensures match s.chain.steps[j].status {
              case StepSucceeded => j in s.log.fills && WaitContract(s.log.accepted[j], s.log.fills[j])
              case StepCancelled => s.log.capturedAt == Some(j) && s.log.report == Some(FoundCancelled)
              case StepFailed =>
                && s.chain.status == ChainFailed && s.chain.steps[j].error == s.chain.error
                && j !in s.log.fills && s.log.exit.Some? && IsException(s.log.exit.value)
              case _ => false
            }
  {
    EndedStepStatus(operations, s.chain, j);
    if s.chain.steps[j].status == StepSucceeded {
      SucceededStepHasContexts(operations, s.chain, j);
    }
    hide ChainAt;
  }

  lemma SucceededStepHasContexts(operations: seq<Operation>, chain: Chain, j: nat)
    requires ChainAt(operations, chain, Over) && j < |operations| && chain.steps[j].status == StepSucceeded
    ensures chain.steps[j].input.Some? && chain.steps[j].output.Some?
  {
  }

  // ---- Honest verdicts ----

  /** The exchange answered the cancelling thread's call for `action` with a full cancellation. */
  predicate ReportsCancelled(s: System, event: Event, action: Action) {
    && s.worker == Calling(action) && event.Canceller?
    && match action {
         case NoAction => false
         case OrdinaryOrder(exchanger, _) =>
           event.choice.ReportsOrder? && Classify(exchanger, event.choice.order.status) == Cancelled
         case OcoOrder(exchanger, _) =>
           && event.choice.ReportsOco?
           && Classify(exchanger, event.choice.oco.takeProfitOrder.status) == Cancelled
           && Classify(exchanger, event.choice.oco.stopLossOrder.status) == Cancelled
       }
  }

  predicate Extends(before: map<nat, Action>, after: map<nat, Action>) {
    forall j :: j in before ==> j in after && after[j] == before[j]
  }

  /** Entries of the log are never withdrawn or changed. */
  predicate LogGrows(before: Log, after: Log) {
    && Extends(before.accepted, after.accepted) && Extends(before.registered, after.registered)
    && (forall j :: j in before.fills ==> j in after.fills && after.fills[j] == before.fills[j])
    && before.acceptedAfterRequest <= after.acceptedAfterRequest
    && (before.requestedAt.Some? ==> after.requestedAt == before.requestedAt)
    && (before.capturedAt.Some? ==> after.capturedAt == before.capturedAt)
    && (before.report.Some? ==> after.report == before.report)
  }

  lemma RequestIsKept(s: System, choice: Choice)
    requires FlagsFollowWorker(s) && CancellerEnabled(s, choice) && s.log.requestedAt.Some?
    ensures CancellerStep(s, choice).log.requestedAt == s.log.requestedAt
  {
  }

  lemma StepGrowsLog(operations: seq<Operation>, s: System, event: Event)
    requires Inv(operations, s) && Enabled(operations, s, event)
    ensures LogGrows(s.log, Apply(operations, s, event).log)
  {
    match event
    case Canceller(choice) =>
      CancellerFrame(s, choice);
      if s.log.requestedAt.Some? {
        RequestIsKept(s, choice);
      }
      hide CancellerStep, CancellerEnabled;
    case Executor(choice, now) =>
      ExecutorFrame(operations, s, choice, now);
      if InOperation(s.pc) {
        OperationGrowsOrders(operations, s, choice, now);
      }
      hide ExecutorStep, ExecutorEnabled, OperationStep;
  }

  lemma LogsGrow(operations: seq<Operation>, s: System, t: System, choice: Choice)
    requires OrdersLogged(operations, s) && InOperation(s.pc) && OperationMoves(s, t, choice)
    ensures Extends(s.log.accepted, t.log.accepted) && Extends(s.log.registered, t.log.registered)
    ensures forall j :: j in s.log.fills ==> j in t.log.fills && t.log.fills[j] == s.log.fills[j]
    ensures s.log.acceptedAfterRequest <= t.log.acceptedAfterRequest
  {
    EntriesAreNew(operations, s, t, choice);
    hide OperationFlows, OperationCoordinates, OrdersLogged;
  }

  /** What is entered for a step was not entered before. */
  lemma EntriesAreNew(operations: seq<Operation>, s: System, t: System, choice: Choice)
    requires OrdersLogged(operations, s) && InOperation(s.pc) && OperationFlows(s, t, choice)
    ensures t.pc.Registering? ==> t.pc.i !in s.log.accepted
    ensures t.pc.Reporting? ==> t.pc.i !in s.log.registered
    ensures t.pc.Completing? ==> t.pc.i !in s.log.fills
  {
    hide PlacementContract, WaitContract;
  }

  lemma OperationGrowsOrders(operations: seq<Operation>, s: System, choice: Choice, now: Time)
    requires IndexesInRange(operations, s) && OrdersLogged(operations, s)
    requires InOperation(s.pc) && ExecutorEnabled(operations, s, choice)
    ensures var t := OperationStep(operations, s, choice, now);
      && Extends(s.log.accepted, t.log.accepted) && Extends(s.log.registered, t.log.registered)
      && (forall j :: j in s.log.fills ==> j in t.log.fills && t.log.fills[j] == s.log.fills[j])
      && s.log.acceptedAfterRequest <= t.log.acceptedAfterRequest
  {
    OperationMovesOn(operations, s, choice, now);
    LogsGrow(operations, s, OperationStep(operations, s, choice, now), choice);
    hide *;
  }

  lemma LogGrowsOnce(t: Trace, k: nat)
    requires IsRun(t) && k < |t.events| && k + 1 < |t.states|
    ensures LogGrows(t.states[k].log, t.states[k + 1].log)
  {
    RunKeepsInvariant(t, k);
    StepOf(t, k);
    StepGrowsLog(t.operations, t.states[k], t.events[k]);
    hide *;
  }

  lemma GrowthStarts(log: Log)
    ensures LogGrows(log, log)
  {
  }

  lemma GrowthComposes(a: Log, b: Log, c: Log)
    requires LogGrows(a, b) && LogGrows(b, c)
    ensures LogGrows(a, c)
  {
  }

  lemma {:induction false} LogGrowsAlong(t: Trace, from: nat, to: nat)
    requires IsRun(t) && from <= to < |t.states|
    ensures LogGrows(t.states[from].log, t.states[to].log)
  {
    assert |t.states| == |t.events| + 1;
    hide *;
    if from < to {
      LogGrowsAlong(t, from, to - 1);
      LogGrowsOnce(t, to - 1);
      GrowthComposes(t.states[from].log, t.states[to - 1].log, t.states[to].log);
    } else {
      GrowthStarts(t.states[from].log);
    }
  }

  lemma CancellerReports(operations: seq<Operation>, s: System, choice: Choice)
    requires FlagsFollowWorker(s) && CaptureFollows(operations, s) && CancellerEnabled(s, choice)
    requires var t := CancellerStep(s, choice);
      t.log.report == Some(FoundCancelled) && t.log.capturedAt.Some? && s.log.report != t.log.report
    ensures var t := CancellerStep(s, choice);
      && t.log.capturedAt.value in s.log.registered
      && ReportsCancelled(s, Canceller(choice), s.log.registered[t.log.capturedAt.value])
  {
    hide Final;
  }

  lemma ReportComesFromExchange(operations: seq<Operation>, s: System, event: Event)
    requires Inv(operations, s) && Enabled(operations, s, event)
    requires var t := Apply(operations, s, event);
      t.log.report == Some(FoundCancelled) && t.log.capturedAt.Some? && s.log.report != t.log.report
    ensures var t := Apply(operations, s, event);
      && t.log.capturedAt.value in s.log.registered
      && ReportsCancelled(s, event, s.log.registered[t.log.capturedAt.value])
  {
    match event
    case Canceller(choice) => CancellerReports(operations, s, choice);
    case Executor(choice, now) =>
      ExecutorFrame(operations, s, choice, now);
      hide ExecutorStep, ExecutorEnabled;
  }

  lemma InitialReportsNothing(t: Trace)
    requires IsRun(t)
    ensures |t.states| > 0 && t.states[0].log.report.None? && t.states[0].log.accepted == map[]
  {
  }

  /** A step either brings the report from the exchange, or leaves report and capture as they are. */
  lemma ReportStepsBack(t: Trace, k: nat)
    requires IsRun(t) && k < |t.events| && k + 1 < |t.states|
    requires t.states[k + 1].log.report == Some(FoundCancelled) && t.states[k + 1].log.capturedAt.Some?
    ensures t.states[k].log.report == t.states[k + 1].log.report ==>
              t.states[k].log.capturedAt == t.states[k + 1].log.capturedAt
              && Extends(t.states[k].log.registered, t.states[k + 1].log.registered)
    ensures t.states[k].log.report != t.states[k + 1].log.report ==>
              && t.states[k + 1].log.capturedAt.value in t.states[k].log.registered
              && ReportsCancelled(t.states[k], t.events[k],
                                  t.states[k].log.registered[t.states[k + 1].log.capturedAt.value])
  {
    RunKeepsInvariant(t, k);
    StepOf(t, k);
    hide IsRun, Apply, Enabled;
    StepGrowsLog(t.operations, t.states[k], t.events[k]);
    if t.states[k].log.report == t.states[k + 1].log.report {
      ReportNeedsCapture(t.operations, t.states[k]);
    } else {
      ReportComesFromExchange(t.operations, t.states[k], t.events[k]);
    }
    hide Inv, ReportsCancelled;
  }

  /** The moment of the run at which the exchange reported the cancellation. */
  lemma {:induction false} FindReport(t: Trace, k: nat) returns (m: nat)
    requires IsRun(t) && k < |t.states|
    requires t.states[k].log.report == Some(FoundCancelled) && t.states[k].log.capturedAt.Some?
    ensures m < k
    ensures t.states[k].log.capturedAt.value in t.states[m].log.registered
    ensures ReportsCancelled(t.states[m], t.events[m], t.states[m].log.registered[t.states[k].log.capturedAt.value])
  {
    hide *;
    RunShape(t);
    if k > 0 {
      ReportStepsBack(t, k - 1);
      if t.states[k - 1].log.report == t.states[k].log.report {
        m := FindReport(t, k - 1);
      } else {
        m := k - 1;
      }
    } else {
      InitialReportsNothing(t);
    }
  }

  lemma ReportNeedsCapture(operations: seq<Operation>, s: System)
    requires Inv(operations, s) && s.log.report.Some?
    ensures s.log.capturedAt.Some?
  {
  }

  /** A step whose order the exchange accepted is recorded as cancelled only if the exchange, asked to
      cancel exactly that order, answered that it (for an OCO, each child) was cancelled. */
  lemma CancelledMeansReported(t: Trace, k: nat, j: nat) returns (m: nat)
    requires IsRun(t) && k < |t.states| && j < |t.states[k].chain.steps|
    requires t.states[k].chain.steps[j].status == StepCancelled && j in t.states[k].log.accepted
    ensures m < k && ReportsCancelled(t.states[m], t.events[m], t.states[k].log.accepted[j])
  {
    RunKeepsInvariant(t, k);
    CancelledNeedsReport(t.operations, t.states[k], j);
    m := FindReport(t, k);
    LogGrowsAlong(t, m, k);
    RegisteredIsAccepted(t.operations, t.states[k], j);
  }

  lemma CancelledNeedsReport(operations: seq<Operation>, s: System, j: nat)
    requires Inv(operations, s) && j < |s.chain.steps|
    requires s.chain.steps[j].status == StepCancelled && j in s.log.accepted
    ensures s.log.report == Some(FoundCancelled) && s.log.capturedAt == Some(j)
  {
    assert StepRecorded(operations, s, j);
  }

  lemma RegisteredIsAccepted(operations: seq<Operation>, s: System, j: nat)
    requires Inv(operations, s) && j in s.log.registered
    ensures j in s.log.accepted && s.log.accepted[j] == s.log.registered[j]
  {
  }

  /** When the wait of a step returned a fill, the step succeeds, whichever thread recorded first. */
  lemma FillWins(t: Trace, from: nat, to: nat, j: nat)
    requires IsRun(t) && from <= to < |t.states| && j in t.states[from].log.fills
    requires t.states[to].pc.Done?
    ensures var s := t.states[to];
      && j < |s.chain.steps| && s.chain.steps[j].status == StepSucceeded
      && (s.log.capturedAt == Some(j) ==> s.coordinator.verdict == NaturalCompletion)
  {
    LogGrowsAlong(t, from, to);
    RunKeepsInvariant(t, to);
    FilledStepSucceeded(t.operations, t.states[to], j);
  }

  lemma FilledStepSucceeded(operations: seq<Operation>, s: System, j: nat)
    requires Inv(operations, s) && s.pc.Done? && j in s.log.fills
    ensures j < |s.chain.steps| && s.chain.steps[j].status == StepSucceeded
    ensures s.log.capturedAt == Some(j) ==> s.coordinator.verdict == NaturalCompletion
  {
    assert StepRecorded(operations, s, j);
  }

  // ---- How an interrupted or failed step ends ----

  /** Whenever the executor handles an interrupted wait, the verdict that interrupted it is stored. */
  lemma InterruptionFindsVerdict(t: Trace, k: nat)
    requires IsRun(t) && k < |t.states| && t.states[k].pc.Leaving? && t.states[k].pc.exit.Interrupted?
    ensures t.states[k].coordinator.verdict in {ConfirmedCancelled, CancellationFailed}
  {
    RunKeepsInvariant(t, k);
  }

  /** Once the cancelling thread took the order of a step whose operation then ended in a standard
      exception, the recorded run says what the verdict says: cancelled, failed with the cancellation's
      own failure text, or failed with the operation's text when the order was found filled. */
  lemma EndMatchesVerdict(t: Trace, k: nat)
    requires IsRun(t) && k < |t.states| && t.states[k].pc.Done? && t.states[k].log.capturedAt.Some?
    requires t.states[k].log.exit.Some?
    requires t.states[k].log.exit.value.Interrupted? || t.states[k].log.exit.value.Threw?
    ensures EndsAs(t.states[k])
  {
    RunKeepsInvariant(t, k);
    EndMatches(t.operations, t.states[k]);
  }

  predicate EndsAs(s: System) {
    match s.coordinator.verdict
    case Undecided => false
    case ConfirmedCancelled => s.chain.status == ChainCancelled && s.log.report == Some(FoundCancelled)
    case CancellationFailed =>
      && s.chain.status == ChainFailed && s.chain.error == s.coordinator.failure
      && s.log.report == Some(Failure(s.chain.error))
    case NaturalCompletion =>
      && s.chain.status == ChainFailed && s.log.exit == Some(Threw(s.chain.error))
      && s.log.report == Some(FoundFilled)
  }

  lemma EndMatches(operations: seq<Operation>, s: System)
    requires EndAgrees(s) && VerdictFollowsWorker(s) && s.pc.Done? && s.log.capturedAt.Some?
    requires s.log.exit.Some? && (s.log.exit.value.Interrupted? || s.log.exit.value.Threw?)
    ensures EndsAs(s)
  {
  }

  /** Execute raises exactly when the run is recorded as failed, and with the recorded text. */
  lemma RaisedTextIsRecorded(t: Trace, k: nat)
    requires IsRun(t) && k < |t.states| && t.states[k].pc.Done?
    ensures t.states[k].chain.status in {ChainCompleted, ChainFailed, ChainCancelled}
    ensures t.states[k].pc.ending ==
              if t.states[k].chain.status == ChainFailed then Raised(t.states[k].chain.error) else Returned
  {
    RunKeepsInvariant(t, k);
    hide StepsRecorded, OrdersLogged, StatusAgrees;
  }

  // ---- Stability ----

  lemma VerdictAfterCapture(operations: seq<Operation>, s: System, event: Event)
    requires Inv(operations, s) && s.log.capturedAt.Some? && Enabled(operations, s, event)
    ensures !s.pc.StartingOperation?
    ensures var next := Apply(operations, s, event).coordinator.verdict;
      s.coordinator.verdict == Undecided || next == s.coordinator.verdict || next == NaturalCompletion
  {
    hide ChainAt, StepsRecorded, EndAgrees, OrdersLogged;
    match event
    case Canceller(choice) => VerdictSettles(s, choice);
    case Executor(choice, now) =>
      if InOperation(s.pc) {
        if !s.pc.Completing? {
          OperationFrame(operations, s, choice, now);
        }
      } else if Handling(s.pc) {
        HandlerFrame(s, now);
      } else {
        LoopFrame(operations, s, now);
      }
  }

  lemma CaptureStays(t: Trace, from: nat, to: nat)
    requires IsRun(t) && from <= to < |t.states| && t.states[from].log.capturedAt.Some?
    ensures t.states[to].log.capturedAt == t.states[from].log.capturedAt
  {
    LogGrowsAlong(t, from, to);
    hide IsRun;
  }

  lemma AfterCaptureNothingStarts(t: Trace, k: nat)
    requires IsRun(t) && k < |t.states| && t.states[k].log.capturedAt.Some?
    ensures !t.states[k].pc.StartingOperation?
  {
    RunKeepsInvariant(t, k);
    hide ChainAt, StepsRecorded, EndAgrees, OrdersLogged, IsRun;
  }

  lemma VerdictStepsOn(t: Trace, k: nat)
    requires IsRun(t) && k < |t.events| && k + 1 < |t.states| && t.states[k].log.capturedAt.Some?
    ensures var before, after := t.states[k].coordinator.verdict, t.states[k + 1].coordinator.verdict;
      before == Undecided || after == before || after == NaturalCompletion
  {
    RunKeepsInvariant(t, k);
    StepOf(t, k);
    VerdictAfterCapture(t.operations, t.states[k], t.events[k]);
    hide *;
  }

  /** After a capture no operation is ever started again, so no reset can erase the verdict: a verdict
      once reached stays, except that a fill seen by the executor still turns it into a natural
      completion, and a natural completion is final. */
  lemma {:induction false} CapturedVerdictIsStable(t: Trace, from: nat, to: nat)
    requires IsRun(t) && from <= to < |t.states| && t.states[from].log.capturedAt.Some?
    ensures !t.states[to].pc.StartingOperation?
    ensures t.states[to].log.capturedAt == t.states[from].log.capturedAt
    ensures var before, after := t.states[from].coordinator.verdict, t.states[to].coordinator.verdict;
      before == Undecided || after == before || after == NaturalCompletion
  {
    assert |t.states| == |t.events| + 1;
    hide *;
    CaptureStays(t, from, to);
    AfterCaptureNothingStarts(t, to);
    if from < to {
      CaptureStays(t, from, to - 1);
      CapturedVerdictIsStable(t, from, to - 1);
      VerdictStepsOn(t, to - 1);
    }
  }

  // ---- Placements after the request ----

  /** Event `k` is the exchange accepting an order after the cancellation was requested. */
  predicate AcceptedAfterRequest(t: Trace, k: nat)
    requires k < |t.events| && |t.states| == |t.events| + 1
  {
    && t.states[k].coordinator.cancellationRequested
    && t.states[k].pc.Placing? && t.events[k].Executor? && t.events[k].choice.Accepts?
  }

  lemma AcceptanceIsLogged(t: Trace, k: nat)
    requires IsRun(t) && k < |t.events| && AcceptedAfterRequest(t, k)
    ensures t.states[k].log.requestedAt == Some(t.states[k].pc)
    ensures t.states[k].pc.i in t.states[k + 1].log.acceptedAfterRequest
  {
    RunKeepsInvariant(t, k);
    StepOf(t, k);
    hide IsRun, ChainAt;
  }

  lemma PlacingIsOver(t: Trace, m: nat)
    requires IsRun(t) && m < |t.states| && t.states[m].log.acceptedAfterRequest != {}
    ensures !t.states[m].pc.Placing?
  {
    RunKeepsInvariant(t, m);
    assert RequestBoundsPlacing(t.operations, t.states[m]);
    NoPlacingOnceAccepted(t.operations, t.states[m]);
    hide *;
  }

  /** At most one order is placed after the request, and only by the step that had already passed its
      check when the request came. */
  lemma AtMostOnePlacementAfterRequest(t: Trace, k: nat, m: nat)
    requires IsRun(t) && k <= m < |t.events| && AcceptedAfterRequest(t, k) && AcceptedAfterRequest(t, m)
    ensures k == m && t.states[k].log.requestedAt == Some(Placing(t.states[k].pc.i))
  {
    RunShape(t);
    AcceptanceIsLogged(t, k);
    if k < m {
      LogGrowsAlong(t, k + 1, m);
      assert t.states[k].pc.i in t.states[m].log.acceptedAfterRequest;
      PlacingIsOver(t, m);
    }
    hide IsRun;
  }

  lemma NoPlacingOnceAccepted(operations: seq<Operation>, s: System)
    requires RequestBoundsPlacing(operations, s) && s.log.acceptedAfterRequest != {}
    ensures !s.pc.Placing?
  {
  }

  // ---- Progress and termination ----

  ghost predicate ExecutorCanStep(operations: seq<Operation>, s: System) {
    exists choice: Choice :: ExecutorEnabled(operations, s, choice)
  }

  ghost predicate CancellerCanStep(s: System) {
    exists choice: Choice :: CancellerEnabled(s, choice)
  }

  /** The threads never block each other: an unfinished executor that cannot step waits for a verdict
      that the cancelling thread is able to work on, and a cancelling thread that cannot step waits for
      an operation that the executor is able to continue. */
  lemma NoMutualBlocking(t: Trace, k: nat)
    requires IsRun(t) && k < |t.states|
    ensures var s := t.states[k];
      && (!s.pc.Done? && !ExecutorCanStep(t.operations, s) ==> s.pc.Resolving? && CancellerCanStep(s))
      && (!s.worker.Gone? && !CancellerCanStep(s) ==> s.worker.WaitingForAction? && ExecutorCanStep(t.operations, s))
  {
    RunKeepsInvariant(t, k);
    var s := t.states[k];
    if !s.pc.Done? {
      ExecutorBlocksOnlyResolving(t.operations, s);
    }
    if !s.worker.Gone? {
      CancellerBlocksOnlyWaiting(s);
    }
    WaitsAreAnswered(t.operations, s);
  }

  lemma ExecutorBlocksOnlyResolving(operations: seq<Operation>, s: System)
    requires IndexesInRange(operations, s) && !s.pc.Done?
    ensures ExecutorCanStep(operations, s) || (s.pc.Resolving? && !s.coordinator.CancellationResolved())
  {
    assert ExecutorEnabled(operations, s, Plain) || ExecutorEnabled(operations, s, Throws(""))
      || (s.pc.Resolving? && !s.coordinator.CancellationResolved());
  }

  lemma CancellerBlocksOnlyWaiting(s: System)
    requires !s.worker.Gone?
    ensures CancellerCanStep(s) || (s.worker.WaitingForAction? && !s.coordinator.WorkerMayProceed())
  {
    assert CancellerEnabled(s, Plain) || CancellerEnabled(s, Throws("")) || CancellerEnabled(s, ThreadStarts)
      || (s.worker.WaitingForAction? && !s.coordinator.WorkerMayProceed());
  }

  lemma WaitsAreAnswered(operations: seq<Operation>, s: System)
    requires IndexesInRange(operations, s) && FlagsFollowExecutor(operations, s) && OrdersFollowExecutor(operations, s)
    requires FlagsFollowWorker(s) && VerdictFollowsWorker(s)
    ensures s.pc.Resolving? && !s.coordinator.CancellationResolved() ==> CancellerCanStep(s)
    ensures s.worker.WaitingForAction? && !s.coordinator.WorkerMayProceed() ==> ExecutorCanStep(operations, s)
  {
    if s.pc.Resolving? && !s.coordinator.CancellationResolved() {
      assert CancellerEnabled(s, Plain) || CancellerEnabled(s, Throws(""));
    }
    if s.worker.WaitingForAction? && !s.coordinator.WorkerMayProceed() {
      assert ExecutorEnabled(operations, s, Plain) || ExecutorEnabled(operations, s, Throws(""));
    }
  }

  /** How far the executor has come within a step, or within the end of the run. */
  function Offset(pc: Pc): nat {
    match pc
    case AtStart => 0
    case StartingRun => 1
    case CheckingStep(_) => 2
    case StartingStep(_) => 3
    case StartingOperation(_) => 4
    case CheckingOperation(_) => 5
    case Placing(_) => 6
    case Registering(_, _) => 7
    case Reporting(_, _) => 8
    case TakingToken(_, _) => 9
    case Waiting(_, _, _) => 10
    case Completing(_, _) => 11
    case Leaving(_, _) => 12
    case FinishingStep(_) => 13
    case CheckingAfterStep(_) => 14
    case Resolving(_, _) => 13
    case TestingConfirmed(_, _) => 14
    case TestingFailed(_, _) => 15
    case ReadingFailure(_, _) => 16
    case CancellingStep(_) => 17
    case FailingStep(_, _, _) => 17
    case CancellingPending => 0
    case CancellingBetween => 0
    case FinishingRun => 0
    case FinishingChain(_, _) => 1
    case ChoosingException(_, _) => 2
    case Done(_) => 3
    case Escaped(_) => 3
  }

  /** Past the last step: only the end of the run is left. */
  predicate Closing(pc: Pc) {
    pc.CancellingPending? || pc.CancellingBetween? || pc.FinishingRun? || Ended(pc) || pc.Escaped?
  }

  /** Steps the executor has left at most, with `n` operations in the chain. */
  function ExecutorRank(n: nat, pc: Pc): int {
    if Closing(pc) then 3 - Offset(pc) else 20 * (n - StepIndex(pc)) + 6 - Offset(pc)
  }

  function Rank(operations: seq<Operation>, s: System): int {
    ExecutorRank(|operations|, s.pc) + WorkerRank(s.worker)
  }

  lemma StepLowersRank(operations: seq<Operation>, s: System, event: Event)
    requires IndexesInRange(operations, s) && Enabled(operations, s, event)
    requires IndexesInRange(operations, Apply(operations, s, event))
    ensures 0 <= Rank(operations, Apply(operations, s, event)) < Rank(operations, s)
  {
    match event
    case Canceller(choice) => CancellerLowersRank(operations, s, choice);
    case Executor(choice, now) =>
      if InOperation(s.pc) {
        OperationLowersRank(operations, s, choice, now);
        OperationFrame(operations, s, choice, now);
      } else if Handling(s.pc) {
        HandlerLowersRank(operations, s, now);
        HandlerFrame(s, now);
      } else {
        LoopLowersRank(operations, s, now);
        LoopFrame(operations, s, now);
      }
      RankIsNatural(operations, Apply(operations, s, event));
  }

  lemma CancellerLowersRank(operations: seq<Operation>, s: System, choice: Choice)
    requires IndexesInRange(operations, s) && CancellerEnabled(s, choice)
    ensures 0 <= Rank(operations, CancellerStep(s, choice)) < Rank(operations, s)
  {
    RankIsNatural(operations, CancellerStep(s, choice));
    hide ExecutorRank;
  }

  lemma RankIsNatural(operations: seq<Operation>, s: System)
    requires IndexesInRange(operations, s)
    ensures 0 <= ExecutorRank(|operations|, s.pc)
  {
  }

  lemma FollowingIsLater(s: System, t: System, choice: Choice)
    requires InOperation(s.pc) && OperationFlows(s, t, choice)
    ensures Offset(s.pc) < Offset(t.pc) && !Closing(t.pc)
  {
    if s.pc.Leaving? {
      assert LeavingFlows(s.pc.i, s.pc.exit, t.pc);
      assert t.pc.FinishingStep? || t.pc.CancellingStep? || t.pc.TestingConfirmed? || t.pc.Resolving?
             || t.pc.FailingStep?;
      hide OperationFlows, LeavingFlows;
    }
  }

  lemma OperationLowersRank(operations: seq<Operation>, s: System, choice: Choice, now: Time)
    requires IndexesInRange(operations, s) && InOperation(s.pc) && ExecutorEnabled(operations, s, choice)
    ensures ExecutorRank(|operations|, OperationStep(operations, s, choice, now).pc) < ExecutorRank(|operations|, s.pc)
  {
    OperationMovesOn(operations, s, choice, now);
    OperationKeepsIndexes(operations, s, choice, now);
    FollowingIsLater(s, OperationStep(operations, s, choice, now), choice);
    hide OperationStep, ExecutorEnabled, OperationMoves, OperationFlows, Offset;
  }

  lemma HandlingIsLater(s: System, next: Pc)
    requires Handling(s.pc) && HandlerFlows(s, next)
    ensures if Handling(next) then Offset(s.pc) < Offset(next) && StepIndex(next) == StepIndex(s.pc) else Closing(next)
    ensures 0 <= Offset(next) && (Closing(next) ==> Offset(next) <= 3)
  {
  }

  lemma HandlerLowersRank(operations: seq<Operation>, s: System, now: Time)
    requires IndexesInRange(operations, s) && Handling(s.pc)
    ensures ExecutorRank(|operations|, HandlerStep(s, now).pc) < ExecutorRank(|operations|, s.pc)
  {
    HandlerFrame(s, now);
    HandlingIsLater(s, HandlerStep(s, now).pc);
    hide HandlerStep, HandlerFlows, Offset;
  }

  lemma LoopingIsLater(s: System, next: Pc)
    requires !InOperation(s.pc) && !Handling(s.pc) && !s.pc.Done? && !s.pc.Escaped? && LoopFlows(s, next)
    ensures || (Closing(next) && (Closing(s.pc) ==> Offset(s.pc) < Offset(next)))
            || (!Closing(s.pc) && !Closing(next) && StepIndex(s.pc) == StepIndex(next) && Offset(s.pc) < Offset(next))
            || (s.pc.CheckingAfterStep? && next == CheckingStep(s.pc.i + 1))
  {
  }

  lemma LoopLowersRank(operations: seq<Operation>, s: System, now: Time)
    requires IndexesInRange(operations, s) && !InOperation(s.pc) && !Handling(s.pc) && !s.pc.Done?
    ensures ExecutorRank(|operations|, LoopStep(operations, s, now).pc) < ExecutorRank(|operations|, s.pc)
  {
    LoopMovesOn(operations, s, now);
    LoopingIsLater(s, LoopStep(operations, s, now).pc);
    hide LoopStep, LoopMoves, LoopFlows, Offset;
  }

  lemma RankIsNaturalAlong(t: Trace, k: nat)
    requires IsRun(t) && k < |t.states|
    ensures 0 <= Rank(t.operations, t.states[k])
  {
    RunKeepsInvariant(t, k);
    RankIsNatural(t.operations, t.states[k]);
    hide IsRun, ExecutorRank;
  }

  lemma RankFallsAlong(t: Trace, k: nat)
    requires IsRun(t) && k < |t.events| && k + 1 < |t.states|
    ensures Rank(t.operations, t.states[k + 1]) < Rank(t.operations, t.states[k])
  {
    RunKeepsInvariant(t, k);
    RunKeepsInvariant(t, k + 1);
    StepOf(t, k);
    hide *;
    StepLowersRank(t.operations, t.states[k], t.events[k]);
  }

  lemma FirstRank(t: Trace)
    requires IsRun(t)
    ensures |t.states| > 0 && Rank(t.operations, t.states[0]) <= 20 * |t.operations| + 14
  {
  }

  /** Every run is finite, with a bound in the number of operations: execution and cancellation
      terminate when the service calls do. */
  lemma {:induction false} RunsAreBounded(t: Trace, k: nat)
    requires IsRun(t) && k < |t.states|
    ensures k + Rank(t.operations, t.states[k]) <= 20 * |t.operations| + 14
    ensures 0 <= Rank(t.operations, t.states[k])
  {
    RunShape(t);
    RankIsNaturalAlong(t, k);
    if k > 0 {
      RunsAreBounded(t, k - 1);
      RankFallsAlong(t, k - 1);
    } else {
      FirstRank(t);
    }
    hide *;
  }

  /** A run that neither thread can extend has finished executing, and its cancellation, if one was
      requested, has been carried through. */
  lemma StoppedRunsAreComplete(t: Trace)
    requires IsRun(t)
    requires !ExecutorCanStep(t.operations, t.states[|t.events|])
    requires t.states[|t.events|].worker.NotRequested? || !CancellerCanStep(t.states[|t.events|])
    ensures |t.events| <= 20 * |t.operations| + 14
    ensures t.states[|t.events|].pc.Done?
    ensures t.states[|t.events|].worker.NotRequested? || t.states[|t.events|].worker.Gone?
  {
    var s := t.states[|t.events|];
    RunsAreBounded(t, |t.events|);
    RunKeepsInvariant(t, |t.events|);
    NoMutualBlocking(t, |t.events|);
    if s.worker.NotRequested? && s.pc.Resolving? {
      assert ExecutorEnabled(t.operations, s, Plain);
    }
  }

  // ---- The recorded run ----

  /** In every state of every run the snapshot is well shaped: succeeded steps, then at most one started
      step, then untouched steps, each started step fed by the one before it, and run status, current
      index, context, times and error as that progress demands. */
  lemma SnapshotIsWellShaped(t: Trace, k: nat)
    requires IsRun(t) && k < |t.states|
    ensures WellShaped(t.states[k].chain) && HasOperations(t.operations, t.states[k].chain)
  {
    RunKeepsInvariant(t, k);
    ChainAtIsShaped(t.operations, t.states[k].chain, PositionOf(t.operations, t.states[k].pc));
  }

  lemma ChainAtIsShaped(operations: seq<Operation>, chain: Chain, position: Position)
    requires ChainAt(operations, chain, position)
    ensures WellShaped(chain) && HasOperations(operations, chain)
  {
    match position
    case Unstarted => assert StatusAgrees(chain, 0, false);
    case Between(done) => assert StatusAgrees(chain, done, false);
    case Inside(i) => assert StatusAgrees(chain, i, true);
    case Stopping =>
    case Over =>
  }

  /** A completed run has counted one revision for its start, one for its end, three for each order
      step and two for each transfer. */
  lemma CompletedRevisionIsExact(t: Trace, k: nat)
    requires IsRun(t) && k < |t.states| && t.states[k].chain.status == ChainCompleted
    ensures var sends := CountSends(t.operations);
      t.states[k].chain.revision == 2 + 3 * (|t.operations| - sends) + 2 * sends
  {
    RunKeepsInvariant(t, k);
    CompletedIsOver(t.operations, t.states[k].chain, PositionOf(t.operations, t.states[k].pc));
    RevisionsByKind(t.operations);
  }

  lemma CompletedIsOver(operations: seq<Operation>, chain: Chain, position: Position)
    requires ChainAt(operations, chain, position) && chain.status == ChainCompleted
    ensures chain.revision == 2 + RevisionsOf(operations)
  {
  }

  /** A succeeded step turned its input into its output by the transfer it names, or by the very fill
      that the exchange reported for the order it had registered. */
  lemma SucceededStepIsBacked(t: Trace, k: nat, j: nat)
    requires IsRun(t) && k < |t.states| && j < |t.states[k].chain.steps|
    requires t.states[k].chain.steps[j].status == StepSucceeded
    ensures var s, step := t.states[k], t.states[k].chain.steps[j];
      && j < |t.operations| && step.input.Some? && step.output.Some?
      && StepResult(t.operations[j], s.log.fills, j, step.input.value, step.output.value)
      && (!t.operations[j].SendTo? ==>
            j in s.log.fills && j in s.log.accepted && WaitContract(s.log.accepted[j], s.log.fills[j]))
  {
    RunKeepsInvariant(t, k);
    var s := t.states[k];
    assert StepRecorded(t.operations, s, j);
    SnapshotIsWellShaped(t, k);
    SucceededIsComplete(s.chain, j);
    hide ChainAt, WellShaped, EndAgrees, VerdictReachesHandler;
  }

  lemma SucceededIsComplete(chain: Chain, j: nat)
    requires WellShaped(chain) && j < |chain.steps| && chain.steps[j].status == StepSucceeded
    ensures chain.steps[j].input.Some? && chain.steps[j].output.Some?
  {
  }
}
