/** One run as an interleaving of two threads: the executor, which walks the operations of the
    chain, and the canceller, which requests a cancellation at any moment and then confirms it with
    the exchange. A step is one critical section, one request_stop, or one service call, whose
    answer is chosen freely within the service's contract. */
module CancellationProtocol {
  import opened Domain
  import opened OrderStatus
  import opened CoordinatorState
  import opened ChainState

  /** How an operation's closure was left. */
  datatype Exit =
    | Completed
    | SawRequest
    | Interrupted(error: string)
    | Threw(error: string)
    | ThrewNonStandard

  /** How execute itself was left. */
  datatype Ending = Returned | Raised(error: string)

  /** The executor's program counter: the critical section or service call it performs next. */
  datatype Pc =
    | AtStart
    | CancellingPending
    | StartingRun
    | CheckingStep(i: nat)
    | CancellingBetween
    | StartingStep(i: nat)
    | StartingOperation(i: nat)
    | CheckingOperation(i: nat)
    | Placing(i: nat)
    | Registering(i: nat, action: Action)
    | Reporting(i: nat, action: Action)
    | TakingToken(i: nat, action: Action)
    | Waiting(i: nat, action: Action, source: nat)
    | Completing(i: nat, filled: OrderInfo)
    | Leaving(i: nat, exit: Exit)
    | FinishingStep(i: nat)
    | CheckingAfterStep(i: nat)
    | Resolving(i: nat, error: string)
    | TestingConfirmed(i: nat, exit: Exit)
    | TestingFailed(i: nat, exit: Exit)
    | ReadingFailure(i: nat, exit: Exit)
    | CancellingStep(i: nat)
    | FailingStep(i: nat, error: string, exit: Exit)
    | FinishingRun
    | FinishingChain(ending: Ending, exit: Exit)
    | ChoosingException(error: string, original: string)
    | Done(ending: Ending)
    | Escaped(error: string)

  /** What the cancelling thread concluded from the exchange's answer. */
  datatype Report = FoundFilled | FoundCancelled | Failure(error: string)

  datatype Worker =
    | NotRequested
    | Spawning
    | Entering
    | WaitingForAction
    | Calling(action: Action)
    | Recording(report: Report, threaded: bool)
    | Signalling(source: nat, threaded: bool)
    | Finishing
    | Gone

  /** What happened so far, kept only to state properties; no step reads it. */
  datatype Log = Log(
    requestedAt: Option<Pc>,
    acceptedAfterRequest: set<nat>,
    accepted: map<nat, Action>,
    registered: map<nat, Action>,
    fills: map<nat, OrderInfo>,
    capturedAt: Option<nat>,
    report: Option<Report>,
    threadFailed: bool,
    exit: Option<Exit>)

  datatype System = System(
    coordinator: Coordinator,
    chain: Chain,
    context: Context,
    pc: Pc,
    worker: Worker,
    log: Log)

  datatype Choice =
    | Plain
    | Accepts(action: Action)
    | Fills(order: OrderInfo)
    | Interrupts(error: string)
    | Throws(error: string)
    | ThrowsNonStandard
    | ThreadStarts
    | ThreadFails(error: string)
    | ReportsOrder(order: OrderInfo)
    | ReportsOco(oco: OcoInfo)

  datatype Event = Executor(choice: Choice, now: Time) | Canceller(choice: Choice)

  function Initial(operations: seq<Operation>, context: Context, now: Time): System {
    System(InitialCoordinator(), FreshChain(operations, context, now), context, AtStart, NotRequested,
           Log(None, {}, map[], map[], map[], None, None, false, None))
  }

  // ---- What the exchange service is asked for, and its contracts ----

  datatype OrderRequest =
    | BuyRequest(exchanger: Exchanger, base: string, quote: string, quantity: real)
    | SellRequest(exchanger: Exchanger, base: string, quote: string, quantity: real)
    | PlaceRequest(exchanger: Exchanger, symbol: string, side: Side, quantity: real)
    | OcoRequest(exchanger: Exchanger, symbol: string, side: Side, quantity: real)

  function SymbolOf(side: Side, inAsset: string, outAsset: string): string {
    if side.BuySide? then outAsset + inAsset else inAsset + outAsset
  }

  /** The order an operation asks for with what the run holds. */
  function RequestOf(operation: Operation, context: Context): OrderRequest
    requires !operation.SendTo?
  {
    match operation
    case BuyCrypto(outAsset) => BuyRequest(context.exchanger, outAsset, context.asset, context.quantity)
    case SellCrypto(outAsset) => SellRequest(context.exchanger, context.asset, outAsset, context.quantity)
    case PlaceOrder(outAsset, side) =>
      PlaceRequest(context.exchanger, SymbolOf(side, context.asset, outAsset), side, context.quantity)
    case PlaceOco(outAsset, side) =>
      OcoRequest(context.exchanger, SymbolOf(side, context.asset, outAsset), side, context.quantity)
  }

  /** A placement returns an order of the kind that was asked for. */
  predicate PlacementContract(operation: Operation, action: Action) {
    if operation.PlaceOco? then action.OcoOrder? else !operation.SendTo? && action.OrdinaryOrder?
  }

  /** A fill wait returns only a filled order, and only one it was asked to wait for. */
  predicate WaitContract(action: Action, filled: OrderInfo) {
    match action
    case NoAction => false
    case OrdinaryOrder(exchanger, order) =>
      filled.symbol == order.symbol && filled.orderId == order.orderId && IsFilled(exchanger, filled.status)
    case OcoOrder(exchanger, oco) =>
      filled.orderId in {oco.takeProfitOrder.orderId, oco.stopLossOrder.orderId} && IsFilled(exchanger, filled.status)
  }

  // ---- Values the operations compute ----

  function ReceivedQuantity(order: OrderInfo, side: Side): real {
    if side.SellSide? then order.cumQuoteQty
    else if order.executedQty > 0.0 then order.executedQty
    else order.origQty
  }

  function OperationSide(operation: Operation): Side
    requires !operation.SendTo?
  {
    match operation
    case BuyCrypto(_) => BuySide
    case SellCrypto(_) => SellSide
    case PlaceOrder(_, side) => side
    case PlaceOco(_, side) => side
  }

  function ContextAfterFill(operation: Operation, context: Context, filled: OrderInfo): Context
    requires !operation.SendTo?
  {
    context.(quantity := ReceivedQuantity(filled, OperationSide(operation)), asset := operation.outAsset)
  }

  function IdIfPresent(id: string): Option<string> {
    if id == "" then None else Some(id)
  }

  function AcceptedIdentifiers(action: Action): AcceptedIds {
    match action
    case NoAction => NO_IDS
    case OrdinaryOrder(_, order) => NO_IDS.(orderId := IdIfPresent(order.orderId))
    case OcoOrder(_, oco) =>
      AcceptedIds(None, IdIfPresent(oco.orderListId),
                  IdIfPresent(oco.takeProfitOrder.orderId), IdIfPresent(oco.stopLossOrder.orderId))
  }

  // ---- The executor ----

  /** Between startOperation and finishOperation. */
  predicate InOperation(pc: Pc) {
    || pc.CheckingOperation? || pc.Placing? || pc.Registering? || pc.Reporting?
    || pc.TakingToken? || pc.Waiting? || pc.Completing? || pc.Leaving?
  }

  /** Handling an exception after finishOperation. */
  predicate Handling(pc: Pc) {
    || pc.Resolving? || pc.TestingConfirmed? || pc.TestingFailed? || pc.ReadingFailure?
    || pc.CancellingStep? || pc.FailingStep?
  }

  predicate ExecutorEnabled(operations: seq<Operation>, s: System, choice: Choice) {
    match s.pc
    case Placing(i) =>
      && i < |operations|
      && (if operations[i].SendTo? then choice.Plain?
          else choice.Throws? || choice.ThrowsNonStandard?
               || (choice.Accepts? && PlacementContract(operations[i], choice.action)
                   && choice.action.exchanger == s.context.exchanger))
    case Waiting(i, action, source) =>
      || choice.Throws? || choice.ThrowsNonStandard?
      || (choice.Fills? && WaitContract(action, choice.order))
      || (choice.Interrupts? && source in s.coordinator.stopped)
    case Resolving(_, _) => choice.Plain? && s.coordinator.CancellationResolved()
    case Done(_) => false
    case Escaped(_) => false
    case _ => choice.Plain?
  }

  /** A chain transition of the executor: its guard either holds or lets an exception escape. */
  function Advance(s: System, next: Result<Chain>, pc: Pc): System {
    match next
    case Ok(chain) => s.(chain := chain, pc := pc)
    case Err(error) => s.(pc := Escaped(error))
  }

  function StepLeft(s: System, i: nat, exit: Exit): System {
    var left := s.(coordinator := s.coordinator.FinishOperation());
    match exit
    case Completed => left.(pc := FinishingStep(i))
    case SawRequest => left.(pc := CancellingStep(i))
    case Interrupted(_) => left.(pc := TestingConfirmed(i, exit))
    case Threw(error) => left.(pc := Resolving(i, error))
    case ThrewNonStandard => left.(pc := FailingStep(i, "Operation failed with a non-standard exception", exit))
  }

  function LeaveOperation(s: System, i: nat, exit: Exit): System {
    s.(pc := Leaving(i, exit), log := s.log.(exit := Some(exit)))
  }

  /** Inside the operation's closure, from the first check to finishOperation. */
  function OperationStep(operations: seq<Operation>, s: System, choice: Choice, now: Time): System {
    var c := s.coordinator;
    match s.pc
    case CheckingOperation(i) =>
      if c.cancellationRequested then LeaveOperation(s, i, SawRequest) else s.(pc := Placing(i))
    case Placing(i) =>
      (match choice
       case Accepts(action) =>
         s.(pc := Registering(i, action),
            log := s.log.(accepted := s.log.accepted[i := action],
                          acceptedAfterRequest := s.log.acceptedAfterRequest
                                                  + if c.cancellationRequested then {i} else {}))
       case Throws(error) => LeaveOperation(s, i, Threw(error))
       case ThrowsNonStandard => LeaveOperation(s, i, ThrewNonStandard)
       case _ =>
         if i < |operations| && operations[i].SendTo? then
           LeaveOperation(s.(context := s.context.(exchanger := operations[i].destination)), i, Completed)
         else s)
    case Registering(i, action) =>
      (match c.RegisterAction(action)
       case Ok(next) =>
         s.(coordinator := next, pc := Reporting(i, action),
            log := s.log.(registered := s.log.registered[i := action]))
       case Err(error) => LeaveOperation(s, i, Threw(error)))
    case Reporting(i, action) =>
      (match s.chain.MarkStepAwaiting(i, AcceptedIdentifiers(action), now)
       case Ok(next) => s.(chain := next, pc := TakingToken(i, action))
       case Err(error) => LeaveOperation(s, i, Threw(error)))
    case TakingToken(i, action) =>
      s.(pc := Waiting(i, action, c.waitSource))
    case Waiting(i, action, _) =>
      (match choice
       case Fills(order) => s.(pc := Completing(i, order), log := s.log.(fills := s.log.fills[i := order]))
       case Interrupts(error) => LeaveOperation(s, i, Interrupted(error))
       case Throws(error) => LeaveOperation(s, i, Threw(error))
       case ThrowsNonStandard => LeaveOperation(s, i, ThrewNonStandard)
       case _ => s)
    case Completing(i, filled) =>
      var next := if i < |operations| && !operations[i].SendTo?
                  then ContextAfterFill(operations[i], s.context, filled) else s.context;
      LeaveOperation(s.(coordinator := c.CompleteActionNaturally(), context := next), i, Completed)
    case Leaving(i, exit) =>
      StepLeft(s, i, exit)
    case _ => s
  }

  /** In a handler of execute, after finishOperation. */
  function HandlerStep(s: System, now: Time): System {
    var c := s.coordinator;
    match s.pc
    case Resolving(i, error) =>
      s.(pc := TestingConfirmed(i, Threw(error)))
    case TestingConfirmed(i, exit) =>
      s.(pc := if c.verdict == ConfirmedCancelled then CancellingStep(i) else TestingFailed(i, exit))
    case TestingFailed(i, exit) =>
      s.(pc := if c.verdict == CancellationFailed then ReadingFailure(i, exit)
               else FailingStep(i, ExitText(exit), exit))
    case ReadingFailure(i, exit) =>
      s.(pc := FailingStep(i, c.failure, exit))
    case CancellingStep(i) =>
      Advance(s, s.chain.CancelStepAndExecution(i, s.context, now), FinishingChain(Returned, Completed))
    case FailingStep(i, error, exit) =>
      Advance(s, s.chain.FailExecution(i, error, s.context, now), FinishingChain(Raised(error), exit))
    case _ => s
  }

  /** In execute itself, between operations and at both ends. */
  function LoopStep(operations: seq<Operation>, s: System, now: Time): System {
    var c := s.coordinator;
    match s.pc
    case AtStart =>
      s.(pc := if c.cancellationRequested then CancellingPending else StartingRun)
    case CancellingPending =>
      Advance(s, s.chain.CancelPendingExecution(now), FinishingChain(Returned, Completed))
    case StartingRun =>
      Advance(s, s.chain.StartExecution(now), CheckingStep(0))
    case CheckingStep(i) =>
      s.(pc := if i >= |operations| then FinishingRun
               else if c.cancellationRequested then CancellingBetween
               else StartingStep(i))
    case CancellingBetween =>
      Advance(s, s.chain.CancelExecutionBetweenSteps(now), FinishingChain(Returned, Completed))
    case StartingStep(i) =>
      Advance(s, s.chain.StartStep(i, s.context, now), StartingOperation(i))
    case StartingOperation(i) =>
      if i >= |s.chain.steps| then s.(pc := Escaped("step index")) else
      (match c.StartOperation(!s.chain.steps[i].operation.SendTo?)
       case Ok(next) => s.(coordinator := next, pc := CheckingOperation(i))
       case Err(error) => s.(pc := Escaped(error)))
    case FinishingStep(i) =>
      Advance(s, s.chain.FinishStep(i, s.context, now), CheckingAfterStep(i))
    case CheckingAfterStep(i) =>
      s.(pc := if c.cancellationRequested && i + 1 < |operations| then CancellingBetween else CheckingStep(i + 1))
    case FinishingRun =>
      Advance(s, s.chain.FinishExecution(now), FinishingChain(Returned, Completed))
    case FinishingChain(ending, exit) =>
      s.(coordinator := c.FinishChain(),
         pc := if ending.Raised? && exit.Threw? then ChoosingException(ending.error, exit.error) else Done(ending))
    case ChoosingException(error, original) =>
      s.(pc := Done(Raised(if c.verdict == CancellationFailed then error else original)))
    case _ => s
  }

  function ExecutorStep(operations: seq<Operation>, s: System, choice: Choice, now: Time): System
    requires ExecutorEnabled(operations, s, choice)
  {
    if InOperation(s.pc) then OperationStep(operations, s, choice, now)
    else if Handling(s.pc) then HandlerStep(s, now)
    else LoopStep(operations, s, now)
  }

  function ExitText(exit: Exit): string {
    match exit
    case Interrupted(error) => error
    case Threw(error) => error
    case _ => ""
  }

  // ---- The canceller ----

  predicate CancellerEnabled(s: System, choice: Choice) {
    match s.worker
    case Spawning => choice.ThreadStarts? || choice.ThreadFails?
    case WaitingForAction => choice.Plain? && s.coordinator.WorkerMayProceed()
    case Calling(action) =>
      choice.Throws? || (if action.OcoOrder? then choice.ReportsOco? else choice.ReportsOrder?)
    case Gone => false
    case _ => choice.Plain?
  }

  function ReportOnOrder(exchanger: Exchanger, terminal: OrderInfo): Report {
    match Classify(exchanger, terminal.status)
    case Filled => FoundFilled
    case Cancelled => FoundCancelled
    case _ => Failure("Order cancellation reached terminal status " + terminal.status)
  }

  function ReportOnOco(exchanger: Exchanger, terminal: OcoInfo): Report {
    var takeProfit := Classify(exchanger, terminal.takeProfitOrder.status);
    var stopLoss := Classify(exchanger, terminal.stopLossOrder.status);
    if takeProfit == Filled || stopLoss == Filled then FoundFilled
    else if takeProfit == Cancelled && stopLoss == Cancelled then FoundCancelled
    else Failure("OCO cancellation reached terminal status " + terminal.takeProfitOrder.status
                 + "; " + terminal.stopLossOrder.status)
  }

  /** How far the cancelling thread still has to go. */
  function WorkerRank(worker: Worker): nat {
    match worker
    case NotRequested => 8
    case Spawning => 7
    case Entering => 6
    case WaitingForAction => 5
    case Calling(_) => 4
    case Recording(_, _) => 3
    case Signalling(_, _) => 2
    case Finishing => 1
    case Gone => 0
  }

  function ReportOf(action: Action, answer: Choice): Report {
    match (action, answer)
    case (OrdinaryOrder(exchanger, _), ReportsOrder(order)) => ReportOnOrder(exchanger, order)
    case (OcoOrder(exchanger, _), ReportsOco(oco)) => ReportOnOco(exchanger, oco)
    case (_, Throws(error)) => Failure(error)
    case _ => Failure("")
  }

  function AfterRecording(threaded: bool): Worker {
    if threaded then Finishing else Gone
  }

  function LeaveWorkerWait(s: System): System {
    var action := s.coordinator.CaptureAction();
    if action.NoAction? then s.(worker := Finishing)
    else s.(worker := Calling(action), log := s.log.(capturedAt := Some(StepIndex(s.pc))))
  }

  function CancellerStep(s: System, choice: Choice): System
    requires CancellerEnabled(s, choice)
  {
    var c := s.coordinator;
    match s.worker
    case NotRequested =>
      s.(coordinator := c.RequestCancellation(), worker := Spawning, log := s.log.(requestedAt := Some(s.pc)))
    case Spawning =>
      (match choice
       case ThreadFails(error) =>
         s.(worker := Recording(Failure(error), false), log := s.log.(threadFailed := true))
       case _ => s.(worker := Entering))
    case Entering =>
      var entered := s.(coordinator := c.EnterWorker());
      if entered.coordinator.WorkerMayProceed() then LeaveWorkerWait(entered)
      else entered.(worker := WaitingForAction)
    case WaitingForAction => LeaveWorkerWait(s)
    case Calling(action) =>
      var report := ReportOf(action, choice);
      s.(worker := Recording(report, true), log := s.log.(report := Some(report)))
    case Recording(report, threaded) =>
      (match report
       case FoundFilled => s.(coordinator := c.RecordNaturalCompletion(), worker := AfterRecording(threaded))
       case FoundCancelled =>
         s.(coordinator := c.RecordConfirmedCancellation(),
            worker := if c.VerdictIsNatural() then AfterRecording(threaded) else Signalling(c.waitSource, threaded))
       case Failure(error) =>
         s.(coordinator := c.RecordCancellationFailure(error),
            worker := if c.VerdictIsNatural() then AfterRecording(threaded) else Signalling(c.waitSource, threaded)))
    case Signalling(source, threaded) =>
      s.(coordinator := c.RequestStop(source), worker := AfterRecording(threaded))
    case Finishing => s.(coordinator := c.FinishWorker(), worker := Gone)
    case Gone => s
  }

  /** The step an executor position belongs to; 0 where it belongs to none. */
  function StepIndex(pc: Pc): nat {
    match pc
    case CheckingStep(i) => i
    case StartingStep(i) => i
    case StartingOperation(i) => i
    case CheckingOperation(i) => i
    case Placing(i) => i
    case Registering(i, _) => i
    case Reporting(i, _) => i
    case TakingToken(i, _) => i
    case Waiting(i, _, _) => i
    case Completing(i, _) => i
    case Leaving(i, _) => i
    case FinishingStep(i) => i
    case CheckingAfterStep(i) => i
    case Resolving(i, _) => i
    case TestingConfirmed(i, _) => i
    case TestingFailed(i, _) => i
    case ReadingFailure(i, _) => i
    case CancellingStep(i) => i
    case FailingStep(i, _, _) => i
    case _ => 0
  }

  // ---- Runs ----

  predicate Enabled(operations: seq<Operation>, s: System, event: Event) {
    match event
    case Executor(choice, _) => ExecutorEnabled(operations, s, choice)
    case Canceller(choice) => CancellerEnabled(s, choice)
  }

  function Apply(operations: seq<Operation>, s: System, event: Event): System
    requires Enabled(operations, s, event)
  {
    match event
    case Executor(choice, now) => ExecutorStep(operations, s, choice, now)
    case Canceller(choice) => CancellerStep(s, choice)
  }

  /** A run: the states it visits and the events between them. */
  datatype Trace = Trace(operations: seq<Operation>, states: seq<System>, events: seq<Event>)

  ghost predicate IsRun(t: Trace) {
    && |t.states| == |t.events| + 1
    && (exists context: Context, now: Time :: t.states[0] == Initial(t.operations, context, now))
    && (forall k :: 0 <= k < |t.events| ==> StepHolds(t, k))
  }

  /** Event `k` was possible and led on. */
  predicate StepHolds(t: Trace, k: nat) {
    && k < |t.events| && k + 1 < |t.states|
    && Enabled(t.operations, t.states[k], t.events[k])
    && t.states[k + 1] == Apply(t.operations, t.states[k], t.events[k])
  }
}
