/** What the recorded steps of a run show of their orders: the identifiers the exchange gave out, the exchange
    that was asked, and what was received. */
module CancellationRecords {
  import opened Domain
  import opened CoordinatorState
  import opened ChainState
  import opened ChainShape
  import opened CancellationProtocol
  import opened CancellationInvariant
  import opened CancellationMoves
  import opened CancellationSteps
  import opened CancellationTheorems
  import opened CancellationEndings

  // ---- What every run keeps ----

  /** The identifiers step `j` shows: those of its registered order, from the report of it on. */
  function ShownIds(s: System, j: nat): AcceptedIds {
    if j in s.log.registered && s.pc != Reporting(j, s.log.registered[j]) then AcceptedIdentifiers(s.log.registered[j])
    else NO_IDS
  }

  predicate IsOn(action: Action, exchanger: Exchanger) {
    !action.NoAction? && action.exchanger == exchanger
  }

  predicate RecordsFollow(s: System) {
    && (forall j :: 0 <= j < |s.chain.steps| ==>
          && s.chain.steps[j].ids == ShownIds(s, j)
          && (s.chain.steps[j].status == StepAwaiting ==> j in s.log.registered))
    && (forall j :: j in s.log.registered ==>
          && j < |s.chain.steps| && s.chain.steps[j].input.Some?
          && IsOn(s.log.registered[j], s.chain.steps[j].input.value.exchanger))
    && (s.pc.Registering? ==> IsOn(s.pc.action, s.context.exchanger))
  }

  /** No step's identifiers change, and no step that was started gets another input. */
  predicate RecordsStay(before: Chain, after: Chain) {
    && |after.steps| == |before.steps|
    && (forall j :: 0 <= j < |before.steps| ==>
          && after.steps[j].ids == before.steps[j].ids
          && (after.steps[j].status == StepAwaiting ==> before.steps[j].status == StepAwaiting)
          && (before.steps[j].status != StepPending ==> after.steps[j].input == before.steps[j].input))
  }

  lemma RewriteKeepsRecords(before: Chain, after: Chain, i: nat)
    requires OnlyStepChanged(before, after, i)
    requires i < |before.steps| ==>
               && after.steps[i].ids == before.steps[i].ids && after.steps[i].status != StepAwaiting
               && (before.steps[i].status != StepPending ==> after.steps[i].input == before.steps[i].input)
    ensures RecordsStay(before, after)
  {
  }

  lemma StartStepKeepsRecords(chain: Chain, i: nat, context: Context, now: Time)
    requires chain.StartStep(i, context, now).Ok?
    ensures RecordsStay(chain, chain.StartStep(i, context, now).value)
  {
    hide RecordsStay;
    RewriteKeepsRecords(chain, chain.StartStep(i, context, now).value, i);
  }

  lemma FinishStepKeepsRecords(chain: Chain, i: nat, context: Context, now: Time)
    requires chain.FinishStep(i, context, now).Ok?
    ensures RecordsStay(chain, chain.FinishStep(i, context, now).value)
  {
    hide RecordsStay;
    RewriteKeepsRecords(chain, chain.FinishStep(i, context, now).value, i);
  }

  lemma CancelStepKeepsRecords(chain: Chain, i: nat, context: Context, now: Time)
    requires chain.CancelStepAndExecution(i, context, now).Ok?
    ensures RecordsStay(chain, chain.CancelStepAndExecution(i, context, now).value)
  {
    hide RecordsStay;
    RewriteKeepsRecords(chain, chain.CancelStepAndExecution(i, context, now).value, i);
  }

  lemma FailKeepsRecords(chain: Chain, i: nat, message: string, context: Context, now: Time)
    requires chain.FailExecution(i, message, context, now).Ok?
    ensures RecordsStay(chain, chain.FailExecution(i, message, context, now).value)
  {
    hide RecordsStay;
    RewriteKeepsRecords(chain, chain.FailExecution(i, message, context, now).value, i);
  }

  lemma SameStepsStay(before: Chain, after: Chain)
    requires after.steps == before.steps
    ensures RecordsStay(before, after)
  {
  }

  // ---- Steps outside an operation ----

  lemma LoopKeepsRecord(operations: seq<Operation>, s: System, now: Time)
    requires !InOperation(s.pc) && !Handling(s.pc)
    ensures RecordsStay(s.chain, LoopStep(operations, s, now).chain)
  {
    hide RecordsStay, LoopStep, Chain.StartStep, Chain.FinishStep;
    if s.pc.StartingStep? {
      StartingStepKeepsRecord(operations, s, now);
    } else if s.pc.FinishingStep? {
      FinishingStepKeepsRecord(operations, s, now);
    } else {
      OtherTurnKeepsSteps(operations, s, now);
      SameStepsStay(s.chain, LoopStep(operations, s, now).chain);
    }
  }

  lemma StartingStepKeepsRecord(operations: seq<Operation>, s: System, now: Time)
    requires s.pc.StartingStep?
    ensures RecordsStay(s.chain, LoopStep(operations, s, now).chain)
  {
    hide RecordsStay, Chain.StartStep;
    SameStepsStay(s.chain, s.chain);
    if s.chain.StartStep(s.pc.i, s.context, now).Ok? {
      StartStepKeepsRecords(s.chain, s.pc.i, s.context, now);
    }
  }

  lemma FinishingStepKeepsRecord(operations: seq<Operation>, s: System, now: Time)
    requires s.pc.FinishingStep?
    ensures RecordsStay(s.chain, LoopStep(operations, s, now).chain)
  {
    hide RecordsStay, Chain.FinishStep;
    SameStepsStay(s.chain, s.chain);
    if s.chain.FinishStep(s.pc.i, s.context, now).Ok? {
      FinishStepKeepsRecords(s.chain, s.pc.i, s.context, now);
    }
  }

  lemma OtherTurnKeepsSteps(operations: seq<Operation>, s: System, now: Time)
    requires !InOperation(s.pc) && !Handling(s.pc) && !s.pc.StartingStep? && !s.pc.FinishingStep?
    ensures LoopStep(operations, s, now).chain.steps == s.chain.steps
  {
  }

  lemma HandlerKeepsRecord(s: System, now: Time)
    requires Handling(s.pc)
    ensures RecordsStay(s.chain, HandlerStep(s, now).chain)
  {
    hide RecordsStay, HandlerStep, Chain.CancelStepAndExecution, Chain.FailExecution;
    HandlerFrame(s, now);
    SameStepsStay(s.chain, s.chain);
    if s.pc.CancellingStep? {
      if s.chain.CancelStepAndExecution(s.pc.i, s.context, now).Ok? {
        CancelStepKeepsRecords(s.chain, s.pc.i, s.context, now);
      }
    } else if s.pc.FailingStep? {
      if s.chain.FailExecution(s.pc.i, s.pc.error, s.context, now).Ok? {
        FailKeepsRecords(s.chain, s.pc.i, s.pc.error, s.context, now);
      }
    }
  }

  /** What is left of the record by a step that neither places, registers nor reports an order. */
  lemma StayingRecordsFollow(s: System, t: System)
    requires RecordsFollow(s) && RecordsStay(s.chain, t.chain) && t.log.registered == s.log.registered
    requires !s.pc.Reporting? && !t.pc.Reporting? && !t.pc.Registering?
    requires forall j :: j in s.log.registered ==> j < |s.chain.steps| && s.chain.steps[j].status != StepPending
    ensures RecordsFollow(t)
  {
    hide AcceptedIdentifiers;
  }

  // ---- Steps of an operation ----

  /** Within an operation that has not completed, the run holds what the step was started with. */
  lemma HoldsItsInput(operations: seq<Operation>, s: System)
    requires Inv(operations, s) && (s.pc.Placing? || s.pc.Registering? || s.pc.Reporting?)
    ensures s.pc.i < |s.chain.steps| && s.chain.steps[s.pc.i].input == Some(s.context)
    ensures s.pc.i !in s.log.registered || s.pc.Reporting?
    ensures s.pc.Reporting? ==> s.pc.i in s.log.registered && s.log.registered[s.pc.i] == s.pc.action
  {
    hide FlagsFollowExecutor, FlagsFollowWorker, VerdictFollowsWorker, CaptureFollows, StepsRecorded, EndAgrees;
  }

  lemma RegisteredStepsAreStarted(operations: seq<Operation>, s: System)
    requires Inv(operations, s)
    ensures forall j :: j in s.log.registered ==> j < |s.chain.steps| && s.chain.steps[j].status != StepPending
  {
    hide FlagsFollowExecutor, FlagsFollowWorker, VerdictFollowsWorker, CaptureFollows, EndAgrees, ChainAt;
    forall j | j in s.log.registered
      ensures j < |s.chain.steps| && s.chain.steps[j].status != StepPending
    {
      assert StepRecorded(operations, s, j);
    }
  }

  lemma ReportingReports(operations: seq<Operation>, s: System, now: Time)
    requires s.pc.Reporting?
    ensures var next := s.chain.MarkStepAwaiting(s.pc.i, AcceptedIdentifiers(s.pc.action), now);
      next.Ok? ==>
        OperationStep(operations, s, Plain, now) == s.(chain := next.value, pc := TakingToken(s.pc.i, s.pc.action))
  {
    hide Chain.MarkStepAwaiting;
  }

  lemma ReportedRecordsFollow(s: System, now: Time)
    requires RecordsFollow(s) && s.pc.Reporting? && s.pc.i in s.log.registered
    requires s.log.registered[s.pc.i] == s.pc.action
    requires s.chain.MarkStepAwaiting(s.pc.i, AcceptedIdentifiers(s.pc.action), now).Ok?
    ensures var next := s.chain.MarkStepAwaiting(s.pc.i, AcceptedIdentifiers(s.pc.action), now).value;
      RecordsFollow(s.(chain := next, pc := TakingToken(s.pc.i, s.pc.action)))
  {
    hide AcceptedIdentifiers;
  }

  lemma PlacingKeepsContext(operations: seq<Operation>, s: System, choice: Choice, now: Time)
    requires s.pc.Placing? && ExecutorEnabled(operations, s, choice)
    ensures var t := OperationStep(operations, s, choice, now);
      t.pc.Registering? ==> t.context == s.context && IsOn(t.pc.action, s.context.exchanger)
  {
  }

  lemma MovedRecordsFollow(operations: seq<Operation>, s: System, t: System, choice: Choice)
    requires RecordsFollow(s) && OperationMoves(s, t, choice) && InOperation(s.pc) && !s.pc.Reporting?
    requires t.pc.Registering? ==> IsOn(t.pc.action, t.context.exchanger)
    requires s.pc.Registering? ==>
               s.pc.i !in s.log.registered && s.pc.i < |s.chain.steps| && s.chain.steps[s.pc.i].input == Some(s.context)
    ensures RecordsFollow(t)
  {
    hide AcceptedIdentifiers, OperationCoordinates;
    if !s.pc.Registering? {
      hide RecordsFollow;
      SameRecordsFollow(s, t);
    }
  }

  lemma SameRecordsFollow(s: System, t: System)
    requires RecordsFollow(s) && t.chain == s.chain && t.log.registered == s.log.registered
    requires !s.pc.Reporting? && !t.pc.Reporting? && (t.pc.Registering? ==> IsOn(t.pc.action, t.context.exchanger))
    ensures RecordsFollow(t)
  {
  }

  lemma OperationKeepsRecords(operations: seq<Operation>, s: System, choice: Choice, now: Time)
    requires Inv(operations, s) && RecordsFollow(s) && InOperation(s.pc) && ExecutorEnabled(operations, s, choice)
    ensures RecordsFollow(OperationStep(operations, s, choice, now))
  {
    hide Inv, RecordsFollow, OperationStep, OperationMoves, Chain.MarkStepAwaiting, ExecutorEnabled;
    if s.pc.Reporting? {
      HoldsItsInput(operations, s);
      GuardsHold(operations, s);
      PlainReport(operations, s, choice);
      ReportIsOk(s, now);
      ReportingReports(operations, s, now);
      ReportedRecordsFollow(s, now);
    } else {
      OperationMovesOn(operations, s, choice, now);
      if s.pc.Registering? {
        HoldsItsInput(operations, s);
      }
      PlacedWhereHeld(operations, s, choice, now);
      MovedRecordsFollow(operations, s, OperationStep(operations, s, choice, now), choice);
    }
  }

  lemma PlainReport(operations: seq<Operation>, s: System, choice: Choice)
    requires s.pc.Reporting? && ExecutorEnabled(operations, s, choice)
    ensures choice == Plain
  {
  }

  lemma ReportIsOk(s: System, now: Time)
    requires s.pc.Reporting? && s.chain.MarkStepAwaiting(s.pc.i, AcceptedIdentifiers(s.pc.action), 0).Ok?
    ensures s.chain.MarkStepAwaiting(s.pc.i, AcceptedIdentifiers(s.pc.action), now).Ok?
  {
  }

  lemma PlacedWhereHeld(operations: seq<Operation>, s: System, choice: Choice, now: Time)
    requires InOperation(s.pc) && ExecutorEnabled(operations, s, choice)
    ensures var t := OperationStep(operations, s, choice, now);
      t.pc.Registering? ==> IsOn(t.pc.action, t.context.exchanger)
  {
    hide OperationStep, ExecutorEnabled;
    if s.pc.Placing? {
      PlacingKeepsContext(operations, s, choice, now);
    } else {
      OperationMovesOn(operations, s, choice, now);
    }
  }

  // ---- Runs ----

  lemma ExecutorKeepsRecords(operations: seq<Operation>, s: System, choice: Choice, now: Time)
    requires Inv(operations, s) && RecordsFollow(s) && ExecutorEnabled(operations, s, choice)
    ensures RecordsFollow(ExecutorStep(operations, s, choice, now))
  {
    hide Inv, RecordsFollow, OperationStep, HandlerStep, LoopStep, RecordsStay, ExecutorEnabled;
    RegisteredStepsAreStarted(operations, s);
    if InOperation(s.pc) {
      OperationKeepsRecords(operations, s, choice, now);
    } else if Handling(s.pc) {
      HandlerKeepsRecord(s, now);
      HandlerFrame(s, now);
      HandlerLeavesOrders(s, now);
      StayingRecordsFollow(s, HandlerStep(s, now));
    } else {
      LoopKeepsRecord(operations, s, now);
      LoopFrame(operations, s, now);
      LoopLeavesOrders(operations, s, now);
      StayingRecordsFollow(s, LoopStep(operations, s, now));
    }
  }

  lemma HandlerLeavesOrders(s: System, now: Time)
    requires Handling(s.pc)
    ensures var t := HandlerStep(s, now); !t.pc.Reporting? && !t.pc.Registering? && !s.pc.Reporting?
  {
    hide HandlerStep;
    HandlerFrame(s, now);
  }

  lemma LoopLeavesOrders(operations: seq<Operation>, s: System, now: Time)
    requires !InOperation(s.pc) && !Handling(s.pc)
    ensures var t := LoopStep(operations, s, now); !t.pc.Reporting? && !t.pc.Registering? && !s.pc.Reporting?
  {
    hide LoopStep;
    LoopMovesOn(operations, s, now);
  }

  lemma CancellerKeepsRecords(operations: seq<Operation>, s: System, choice: Choice)
    requires Inv(operations, s) && RecordsFollow(s) && CancellerEnabled(s, choice)
    ensures RecordsFollow(CancellerStep(s, choice))
  {
    hide CancellerStep, CancellerEnabled, Inv;
    FlagsAreRight(operations, s);
    CancellerFrame(s, choice);
  }

  lemma FlagsAreRight(operations: seq<Operation>, s: System)
    requires Inv(operations, s)
    ensures FlagsFollowWorker(s)
  {
    hide FlagsFollowExecutor, VerdictFollowsWorker, CaptureFollows, StepsRecorded, EndAgrees, ChainAt;
  }

  lemma StepKeepsRecords(operations: seq<Operation>, s: System, event: Event)
    requires Inv(operations, s) && RecordsFollow(s) && Enabled(operations, s, event)
    ensures RecordsFollow(Apply(operations, s, event))
  {
    hide Inv, RecordsFollow, ExecutorEnabled, CancellerEnabled, ExecutorStep, CancellerStep;
    match event
    case Executor(choice, now) => ExecutorKeepsRecords(operations, s, choice, now);
    case Canceller(choice) => CancellerKeepsRecords(operations, s, choice);
  }

  lemma RecordsStart(t: Trace)
    requires IsRun(t)
    ensures |t.states| > 0 && RecordsFollow(t.states[0])
  {
  }

  lemma {:induction false} RunKeepsRecords(t: Trace, k: nat)
    requires IsRun(t) && k < |t.states|
    ensures RecordsFollow(t.states[k])
  {
    hide Inv, RecordsFollow, Apply, Enabled, IsRun;
    if k == 0 {
      RecordsStart(t);
    } else {
      RunShape(t);
      RunKeepsRecords(t, k - 1);
      RunKeepsInvariant(t, k - 1);
      StepOf(t, k - 1);
      StepKeepsRecords(t.operations, t.states[k - 1], t.events[k - 1]);
    }
  }

  // ---- What a run shows ----

  predicate ShowsId(shown: Option<string>, id: string) {
    shown == if id == "" then None else Some(id)
  }

  /** The identifiers are those of the accepted order, each in its own field, and no others. */
  predicate ShowsOrder(ids: AcceptedIds, action: Action) {
    match action
    case NoAction => false
    case OrdinaryOrder(_, order) =>
      ShowsId(ids.orderId, order.orderId) && ids.ocoGroupId.None? && ids.takeProfitOrderId.None?
      && ids.stopLossOrderId.None?
    case OcoOrder(_, oco) =>
      && ids.orderId.None? && ShowsId(ids.ocoGroupId, oco.orderListId)
      && ShowsId(ids.takeProfitOrderId, oco.takeProfitOrder.orderId)
      && ShowsId(ids.stopLossOrderId, oco.stopLossOrder.orderId)
  }

  /** The step shows the order accepted for it, which is on the exchange that the step was started on. */
  predicate ShowsAccepted(s: System, j: nat)
    requires j < |s.chain.steps|
  {
    && j in s.log.accepted && ShowsOrder(s.chain.steps[j].ids, s.log.accepted[j])
    && s.chain.steps[j].input.Some? && IsOn(s.log.accepted[j], s.chain.steps[j].input.value.exchanger)
  }

  /** The order of this step was accepted and is not reported yet. */
  predicate IsReporting(pc: Pc, j: nat) {
    (pc.Registering? || pc.Reporting?) && pc.i == j
  }

  /** Over every run, a step with an accepted order shows the identifiers of that very order from the report of
      it on, and the order is on the exchange on which the step was started; a step that awaits has one, and a
      step without one shows nothing. */
  lemma StepsShowTheirOrders(t: Trace, k: nat, j: nat)
    requires IsRun(t) && k < |t.states| && j < |t.states[k].chain.steps|
    ensures var s := t.states[k];
      && (j !in s.log.accepted ==> s.chain.steps[j].ids == NO_IDS)
      && (s.chain.steps[j].status == StepAwaiting ==> j in s.log.accepted && !IsReporting(s.pc, j))
      && (j in s.log.accepted && !IsReporting(s.pc, j) ==> ShowsAccepted(s, j))
  {
    hide IsRun, Inv, RecordsFollow;
    RunKeepsInvariant(t, k);
    RunKeepsRecords(t, k);
    LoggedOrders(t.operations, t.states[k]);
    if t.states[k].chain.steps[j].status == StepAwaiting {
      AwaitingIsReported(t.operations, t.states[k], j);
    }
    RecordsShow(t.states[k], j);
  }

  lemma LoggedOrders(operations: seq<Operation>, s: System)
    requires Inv(operations, s)
    ensures s.log.accepted == if s.pc.Registering? then s.log.registered[s.pc.i := s.pc.action] else s.log.registered
    ensures s.pc.Registering? ==> s.pc.i !in s.log.registered
    ensures s.pc.Reporting? ==> s.pc.i in s.log.registered && s.log.registered[s.pc.i] == s.pc.action
  {
    hide FlagsFollowExecutor, FlagsFollowWorker, VerdictFollowsWorker, CaptureFollows, StepsRecorded, EndAgrees;
    hide ChainAt;
  }

  lemma AwaitingIsReported(operations: seq<Operation>, s: System, j: nat)
    requires Inv(operations, s) && j < |s.chain.steps| && s.chain.steps[j].status == StepAwaiting
    ensures !IsReporting(s.pc, j)
  {
    hide FlagsFollowExecutor, FlagsFollowWorker, VerdictFollowsWorker, CaptureFollows, StepsRecorded, EndAgrees;
    hide ChainAt;
  }

  lemma RecordsShow(s: System, j: nat)
    requires RecordsFollow(s) && j < |s.chain.steps|
    requires s.log.accepted == if s.pc.Registering? then s.log.registered[s.pc.i := s.pc.action] else s.log.registered
    requires s.pc.Registering? ==> s.pc.i !in s.log.registered
    requires s.pc.Reporting? ==> s.pc.i in s.log.registered && s.log.registered[s.pc.i] == s.pc.action
    ensures j !in s.log.accepted ==> s.chain.steps[j].ids == NO_IDS
    ensures s.chain.steps[j].status == StepAwaiting ==> j in s.log.accepted
    ensures j in s.log.accepted && !IsReporting(s.pc, j) ==> ShowsAccepted(s, j)
  {
  }

  /** What a filled order brought in: the quote quantity for a sale, and for a purchase the executed quantity,
      or the ordered one where the exchange reports none. */
  predicate Receives(operation: Operation, filled: OrderInfo, quantity: real) {
    if operation.SellCrypto? || ((operation.PlaceOrder? || operation.PlaceOco?) && operation.side.SellSide?) then
      quantity == filled.cumQuoteQty
    else if filled.executedQty > 0.0 then quantity == filled.executedQty
    else quantity == filled.origQty
  }

  /** Over every run, the context that a succeeded step hands on: an order step stays on its exchange and holds
      what its own fill brought in, of the asset it names; a transfer only changes the exchange. */
  lemma SucceededStepHandsOn(t: Trace, k: nat, j: nat)
    requires IsRun(t) && k < |t.states| && j < |t.states[k].chain.steps|
    requires t.states[k].chain.steps[j].status == StepSucceeded && j < |t.operations|
    ensures var s, step, operation := t.states[k], t.states[k].chain.steps[j], t.operations[j];
      && step.input.Some? && step.output.Some?
      && var before, after := step.input.value, step.output.value;
      if operation.SendTo? then
        after.exchanger == operation.destination && after.asset == before.asset && after.quantity == before.quantity
      else
        && j in s.log.fills && after.exchanger == before.exchanger && after.asset == operation.outAsset
        && Receives(operation, s.log.fills[j], after.quantity)
  {
    SucceededStepIsBacked(t, k, j);
    hide IsRun;
  }

  /** Over every run, an order is asked for with the context that its step was started with. */
  lemma AsksWithItsInput(t: Trace, k: nat)
    requires IsRun(t) && k < |t.states| && t.states[k].pc.Placing?
    ensures var s := t.states[k];
      s.pc.i < |s.chain.steps| && s.chain.steps[s.pc.i].input == Some(s.context)
  {
    hide IsRun, Inv;
    RunKeepsInvariant(t, k);
    HoldsItsInput(t.operations, t.states[k]);
  }

  /** An order asks, on the exchange where the run holds its quantity, to spend all of it: a purchase names the
      asset to receive before the one it pays with, a sale the other way round. */
  lemma RequestSpendsWhatIsHeld(operation: Operation, context: Context)
    requires !operation.SendTo?
    ensures var request := RequestOf(operation, context);
      && request.exchanger == context.exchanger && request.quantity == context.quantity
      && (operation.BuyCrypto? ==>
            request.BuyRequest? && request.base == operation.outAsset && request.quote == context.asset)
      && (operation.SellCrypto? ==>
            request.SellRequest? && request.base == context.asset && request.quote == operation.outAsset)
      && (operation.PlaceOrder? ==> request.PlaceRequest? && request.side == operation.side)
      && (operation.PlaceOco? ==> request.OcoRequest? && request.side == operation.side)
      && (operation.PlaceOrder? || operation.PlaceOco? ==>
            request.symbol == if operation.side.BuySide? then operation.outAsset + context.asset
                              else context.asset + operation.outAsset)
  {
  }

  // ---- Times ----

  predicate IsStamp(before: Option<Time>, after: Option<Time>, now: Time) {
    after == before || after == Some(now)
  }

  /** A change of the record gets the next revision and its own time, and every other time that it records is
      the same. */
  predicate IsStamped(before: Chain, after: Chain, now: Time) {
    && after.revision == before.revision + 1 && after.updatedAt == now && after.createdAt == before.createdAt
    && IsStamp(before.startedAt, after.startedAt, now) && IsStamp(before.finishedAt, after.finishedAt, now)
    && |after.steps| == |before.steps|
    && (forall j :: 0 <= j < |before.steps| ==>
          && IsStamp(before.steps[j].startedAt, after.steps[j].startedAt, now)
          && IsStamp(before.steps[j].finishedAt, after.steps[j].finishedAt, now))
  }

  predicate ChangesAreStamped(before: Chain, after: Chain, now: Time) {
    after != before ==> IsStamped(before, after, now)
  }

  lemma StepTransitionsStamp(chain: Chain, i: nat, context: Context, now: Time)
    ensures chain.StartStep(i, context, now).Ok? ==> IsStamped(chain, chain.StartStep(i, context, now).value, now)
    ensures chain.FinishStep(i, context, now).Ok? ==> IsStamped(chain, chain.FinishStep(i, context, now).value, now)
  {
  }

  lemma LoopStamps(operations: seq<Operation>, s: System, now: Time)
    ensures ChangesAreStamped(s.chain, LoopStep(operations, s, now).chain, now)
  {
    hide Chain.StartStep, Chain.FinishStep;
    if s.pc.StartingStep? || s.pc.FinishingStep? {
      hide IsStamped;
      StepTransitionsStamp(s.chain, s.pc.i, s.context, now);
    }
  }

  lemma HandlerStamps(s: System, now: Time)
    ensures ChangesAreStamped(s.chain, HandlerStep(s, now).chain, now)
  {
  }

  lemma OperationStamps(operations: seq<Operation>, s: System, choice: Choice, now: Time)
    ensures ChangesAreStamped(s.chain, OperationStep(operations, s, choice, now).chain, now)
  {
    hide ContextAfterFill, AcceptedIdentifiers;
    if !s.pc.Leaving? {
      hide StepLeft;
    }
  }

  lemma StepStamps(operations: seq<Operation>, s: System, event: Event)
    requires Enabled(operations, s, event)
    ensures event.Executor? ==> ChangesAreStamped(s.chain, Apply(operations, s, event).chain, event.now)
    ensures event.Canceller? ==> Apply(operations, s, event).chain == s.chain
  {
    hide ChangesAreStamped, OperationStep, HandlerStep, LoopStep, ExecutorEnabled, CancellerEnabled, CancellerStep;
    match event
    case Executor(choice, now) =>
      OperationStamps(operations, s, choice, now);
      HandlerStamps(s, now);
      LoopStamps(operations, s, now);
    case Canceller(choice) => CancellerWaits(operations, s, choice);
  }

  /** Over every run: the record changes by steps of the executor only, one revision at a time, and each time in
      it is the time of the change that recorded it. */
  lemma RecordsAreStamped(t: Trace, k: nat)
    requires IsRun(t) && k < |t.events|
    ensures k + 1 < |t.states|
    ensures var event, before, after := t.events[k], t.states[k].chain, t.states[k + 1].chain;
      if event.Executor? then ChangesAreStamped(before, after, event.now) else after == before
  {
    hide IsRun, Enabled, Apply, ChangesAreStamped;
    StepOf(t, k);
    StepStamps(t.operations, t.states[k], t.events[k]);
  }
}
