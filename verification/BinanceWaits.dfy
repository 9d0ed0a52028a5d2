/** The waits of the Binance service. A returned Err stands for the exception that leaves the call; the
    ghost result `last` is the cell read last, so that it shows what the answer was decided on. */
module BinanceWaits {
  import opened Domain
  import opened OrderStatus
  import opened PendingOrderState
  import opened PendingOrdersObject
  import opened OcoChildren
  import opened WaitContracts

  function ProcessOrderUpdate(update: Option<OrderInfo>): Result<OrderInfo> {
    if IsFilledReport(Binance, update) then Ok(update.value)
    else if IsTerminalReport(Binance, update) then Err("ended unfilled")
    else Err("stream stopped")
  }

  function ProcessOrderCancellationUpdate(update: Option<OrderInfo>): Result<OrderInfo> {
    if IsTerminalReport(Binance, update) then Ok(update.value)
    else Err("stream stopped")
  }

  method WaitUntilOrderFilled(pending: PendingOrders, symbol: string, orderId: string, stopRequested: bool)
    returns (answer: Result<OrderInfo>, ghost last: Option<PendingWait>)
    requires pending.Valid() && pending.exchanger == Binance
    modifies pending
    ensures Released(pending)
    ensures answer.Ok? <==> last.Some? && IsFilledReport(Binance, last.value.orderInfo)
    ensures answer.Ok? ==>
              && last.value.orderInfo == Some(answer.value)
              && KeyOf(answer.value) == OrderKey(symbol, orderId) && answer.value in pending.reported
    ensures answer.Err? ==>
              || symbol == "" || orderId == "" || stopRequested || SetBack(pending)
              || (last.Some? && IsTerminalReport(Binance, last.value.orderInfo))
  {
    last := None;
    if symbol == "" || orderId == "" {
      return Err("missing order id"), last;
    }
    if stopRequested {
      return Err("interrupted"), last;
    }
    var key := OrderKey(symbol, orderId);
    answer, last := WaitRegistering(pending, key);
  }

  method WaitRegistering(pending: PendingOrders, key: OrderKey)
    returns (answer: Result<OrderInfo>, ghost last: Option<PendingWait>)
    requires pending.Valid() && pending.exchanger == Binance
    modifies pending
    ensures Released(pending)
    ensures answer.Ok? <==> last.Some? && IsFilledReport(Binance, last.value.orderInfo)
    ensures answer.Ok? ==>
              last.value.orderInfo == Some(answer.value) && KeyOf(answer.value) == key
              && answer.value in pending.reported
    ensures answer.Err? ==> SetBack(pending) || (last.Some? && IsTerminalReport(Binance, last.value.orderInfo))
  {
    pending.Register(key);
    answer, last := WaitRegistered(pending, key);
    pending.Unregister(key);
  }

  method WaitRegistered(pending: PendingOrders, key: OrderKey)
    returns (answer: Result<OrderInfo>, ghost last: Option<PendingWait>)
    requires pending.Valid() && pending.exchanger == Binance && key in pending.held
    modifies pending
    ensures Released(pending)
    ensures answer.Ok? <==> last.Some? && IsFilledReport(Binance, last.value.orderInfo)
    ensures answer.Ok? ==>
              last.value.orderInfo == Some(answer.value) && KeyOf(answer.value) == key
              && answer.value in pending.reported
    ensures answer.Err? ==> SetBack(pending) || (last.Some? && IsTerminalReport(Binance, last.value.orderInfo))
  {
    last := None;
    var failure := pending.PrepareOrderSubscription(key);
    if failure.Some? {
      return Err(failure.value), last;
    }
    var completed, wait := AwaitOwn(pending, key);
    if !completed {
      return Err("interrupted"), last;
    }
    last := Some(wait);
    answer := ProcessOrderUpdate(wait.orderInfo);
  }

  method CancelOrderAndWaitUntilTerminal(pending: PendingOrders, symbol: string, orderId: Option<string>,
                                         stopRequested: bool)
    returns (answer: Result<OrderInfo>, ghost last: Option<PendingWait>)
    requires pending.Valid() && pending.exchanger == Binance
    modifies pending
    ensures Released(pending)
    ensures answer.Ok? <==> last.Some? && IsTerminalReport(Binance, last.value.orderInfo)
    ensures answer.Ok? ==>
              && last.value.orderInfo == Some(answer.value) && orderId.Some?
              && KeyOf(answer.value) == OrderKey(symbol, orderId.value) && answer.value in pending.reported
    ensures answer.Err? ==>
              || symbol == "" || orderId.None? || orderId.value == "" || stopRequested
              || SetBack(pending)
              || (Refused(pending) && pending.LookedUp(OrderKey(symbol, orderId.value), 2) && last.Some?)
    ensures SawOpen(pending) ==> SetBack(pending) || Asked(pending)
  {
    last := None;
    if symbol == "" || orderId.None? || orderId.value == "" {
      return Err("missing order id"), last;
    }
    if stopRequested {
      return Err("interrupted"), last;
    }
    var key := OrderKey(symbol, orderId.value);
    answer, last := CancelRegistering(pending, key);
  }

  method CancelRegistering(pending: PendingOrders, key: OrderKey)
    returns (answer: Result<OrderInfo>, ghost last: Option<PendingWait>)
    requires pending.Valid() && pending.exchanger == Binance
    modifies pending
    ensures Released(pending)
    ensures answer.Ok? <==> last.Some? && IsTerminalReport(Binance, last.value.orderInfo)
    ensures answer.Ok? ==>
              last.value.orderInfo == Some(answer.value) && KeyOf(answer.value) == key
              && answer.value in pending.reported
    ensures answer.Err? ==> SetBack(pending) || (Refused(pending) && pending.LookedUp(key, 2) && last.Some?)
    ensures SawOpen(pending) ==> SetBack(pending) || Asked(pending)
  {
    pending.Register(key);
    answer, last := CancelRegistered(pending, key);
    pending.Unregister(key);
  }

  method CancelRegistered(pending: PendingOrders, key: OrderKey)
    returns (answer: Result<OrderInfo>, ghost last: Option<PendingWait>)
    requires pending.Valid() && pending.exchanger == Binance && key in pending.held
    modifies pending
    ensures Released(pending)
    ensures answer.Ok? <==> last.Some? && IsTerminalReport(Binance, last.value.orderInfo)
    ensures answer.Ok? ==>
              last.value.orderInfo == Some(answer.value) && KeyOf(answer.value) == key
              && answer.value in pending.reported
    ensures answer.Err? ==> SetBack(pending) || (Refused(pending) && pending.LookedUp(key, 2) && last.Some?)
    ensures SawOpen(pending) ==> SetBack(pending) || Asked(pending)
  {
    last := None;
    var failure := pending.PrepareOrderSubscription(key);
    if failure.Some? {
      return Err(failure.value), last;
    }
    var wait := GetOwn(pending, key);
    last := Some(wait);
    if IsTerminalReport(Binance, wait.orderInfo) {
      return Ok(wait.orderInfo.value), last;
    }
    var stopRequested := pending.StopRequested();
    if stopRequested {
      return Err("interrupted"), last;
    }
    answer, last := RequestOrderCancellation(pending, key);
  }

  method RequestOrderCancellation(pending: PendingOrders, key: OrderKey)
    returns (answer: Result<OrderInfo>, ghost last: Option<PendingWait>)
    requires pending.Valid() && pending.exchanger == Binance && key in pending.held
    modifies pending
    ensures Released(pending)
    ensures answer.Ok? <==> last.Some? && IsTerminalReport(Binance, last.value.orderInfo)
    ensures answer.Ok? ==>
              last.value.orderInfo == Some(answer.value) && KeyOf(answer.value) == key
              && answer.value in pending.reported
    ensures answer.Err? ==> SetBack(pending) || (Refused(pending) && pending.LookedUp(key, 1) && last.Some?)
    ensures Asked(pending)
  {
    var cancellation := pending.CancelOrder();
    if cancellation.Err? {
      answer, last := AfterRefusedOrderCancellation(pending, key, cancellation.error);
    } else {
      answer, last := ConfirmCancellation(pending, key, cancellation.value);
    }
  }

  /** The exchange refused; the order may have ended all the same. */
  method AfterRefusedOrderCancellation(pending: PendingOrders, key: OrderKey, refusal: string)
    returns (answer: Result<OrderInfo>, ghost last: Option<PendingWait>)
    requires pending.Valid() && pending.exchanger == Binance && key in pending.held
    modifies pending
    ensures Released(pending)
    ensures answer.Ok? <==> last.Some? && IsTerminalReport(Binance, last.value.orderInfo)
    ensures answer.Ok? ==>
              last.value.orderInfo == Some(answer.value) && KeyOf(answer.value) == key
              && answer.value in pending.reported
    ensures answer.Err? ==> SetBack(pending) || (pending.LookedUp(key, 1) && last.Some?)
  {
    last := None;
    var failure := pending.ReconcileOrder(key);
    if failure.Some? {
      return Err(refusal), last;
    }
    var wait := GetOwn(pending, key);
    last := Some(wait);
    if IsTerminalReport(Binance, wait.orderInfo) {
      return Ok(wait.orderInfo.value), last;
    }
    return Err(refusal), last;
  }

  /** The exchange accepted; what counts is a terminal report, its own answer among them. */
  method ConfirmCancellation(pending: PendingOrders, key: OrderKey, cancelled: OrderInfo)
    returns (answer: Result<OrderInfo>, ghost last: Option<PendingWait>)
    requires pending.Valid() && pending.exchanger == Binance && key in pending.held
    modifies pending
    ensures Released(pending)
    ensures answer.Ok? <==> last.Some? && IsTerminalReport(Binance, last.value.orderInfo)
    ensures answer.Ok? ==>
              last.value.orderInfo == Some(answer.value) && KeyOf(answer.value) == key
              && answer.value in pending.reported
    ensures last.Some? && (answer.Err? ==> SetBack(pending))
    ensures IsTerminal(Binance, cancelled.status) ==> cancelled in pending.reported
  {
    if IsTerminal(Binance, cancelled.status) {
      pending.PublishAnswer(cancelled);
    }
    var wait := GetOwn(pending, key);
    last := Some(wait);
    if IsTerminalReport(Binance, wait.orderInfo) {
      return Ok(wait.orderInfo.value), last;
    }
    answer, last := AwaitCancelled(pending, key, wait);
  }

  method AwaitCancelled(pending: PendingOrders, key: OrderKey, ghost before: PendingWait)
    returns (answer: Result<OrderInfo>, ghost last: Option<PendingWait>)
    requires pending.Valid() && pending.exchanger == Binance && key in pending.held
    requires !IsTerminalReport(Binance, before.orderInfo)
    modifies pending
    ensures Released(pending)
    ensures answer.Ok? <==> last.Some? && IsTerminalReport(Binance, last.value.orderInfo)
    ensures answer.Ok? ==>
              last.value.orderInfo == Some(answer.value) && KeyOf(answer.value) == key
              && answer.value in pending.reported
    ensures last.Some? && (answer.Err? ==> SetBack(pending))
  {
    last := Some(before);
    var completed, wait := AwaitOwn(pending, key);
    if !completed {
      return Err("interrupted"), last;
    }
    last := Some(wait);
    if IsTerminalReport(Binance, wait.orderInfo) {
      return Ok(wait.orderInfo.value), last;
    }
    answer, last := LookUpEnd(pending, key, wait);
  }

  /** The stream was lost before the end was reported: the order is looked up. */
  method LookUpEnd(pending: PendingOrders, key: OrderKey, ghost before: PendingWait)
    returns (answer: Result<OrderInfo>, ghost last: Option<PendingWait>)
    requires pending.Valid() && pending.exchanger == Binance && key in pending.held
    requires !IsTerminalReport(Binance, before.orderInfo)
    modifies pending
    ensures Released(pending)
    ensures answer.Ok? <==> last.Some? && IsTerminalReport(Binance, last.value.orderInfo)
    ensures answer.Ok? ==>
              last.value.orderInfo == Some(answer.value) && KeyOf(answer.value) == key
              && answer.value in pending.reported
    ensures last.Some? && (SetBack(pending) || pending.LookedUp(key, 1))
  {
    last := Some(before);
    var failure := pending.ReconcileOrder(key);
    if failure.Some? {
      return Err(failure.value), last;
    }
    var wait := GetOwn(pending, key);
    last := Some(wait);
    answer := ProcessOrderCancellationUpdate(wait.orderInfo);
  }

  // ---- OCO orders ----

  /** The filled child, if there is just one; after two fills what is left of the OCO order is cancelled. */
  method GetFilledOcoOrder(pending: PendingOrders, oco: OcoInfo) returns (answer: Result<Option<OrderInfo>>)
    requires pending.Valid() && pending.exchanger == Binance && HoldsBoth(pending, oco)
    modifies pending
    ensures Released(pending)
    ensures IsFilledChild(pending, oco, answer)
    ensures (answer.Err? ==> Asked(pending)) && FillsAreNoted(pending, answer)
    ensures answer == Ok(None) ==> pending.Undisturbed()
  {
    answer := FindFilledOcoOrder(pending, oco);
    if answer.Err? {
      var _ := pending.CancelOco();
    }
  }

  method CompleteOcoWait(pending: PendingOrders, oco: OcoInfo, filledOrder: OrderInfo)
    returns (answer: Result<OcoWaitResult>, ghost last: Option<PendingWait>)
    requires pending.Valid() && pending.exchanger == Binance && HoldsBoth(pending, oco)
    requires IsStoredFill(pending, oco, filledOrder)
    modifies pending
    ensures Released(pending)
    ensures answer.Ok? <==> last.Some? && IsTerminalReport(Binance, last.value.orderInfo)
                            && !IsFilledReport(Binance, last.value.orderInfo)
    ensures answer.Ok? ==>
              && IsOcoResult(Binance, oco, answer.value)
              && answer.value.filledOrder == filledOrder
              && KeyOf(answer.value.siblingTerminalOrder) == SiblingKey(oco, filledOrder)
              && last.value.orderInfo == Some(answer.value.siblingTerminalOrder)
              && filledOrder in pending.reported && answer.value.siblingTerminalOrder in pending.reported
    ensures answer.Err? ==>
              || SetBack(pending)
              || (Asked(pending) && SawTwoFills(pending) && last.Some? && IsFilledReport(Binance, last.value.orderInfo))
  {
    last := None;
    var completed, sibling := AwaitSiblingOf(pending, oco, filledOrder);
    if !completed {
      return Err("interrupted"), last;
    }
    last := Some(sibling);
    if sibling.orderInfo.None? {
      return Err("stream stopped"), last;
    }
    if IsFilled(Binance, sibling.orderInfo.value.status) {
      var _ := pending.CancelOco();
      return Err("both filled"), last;
    }
    if !IsTerminal(Binance, sibling.orderInfo.value.status) {
      return Err("sibling still open"), last;
    }
    return Ok(OcoWaitResult(filledOrder, sibling.orderInfo.value)), last;
  }

  method ReconcileOcoAfterUnfilledTerminalChild(pending: PendingOrders, oco: OcoInfo, takeProfitFailed: bool)
    returns (answer: Result<OcoWaitResult>)
    requires pending.Valid() && pending.exchanger == Binance && HoldsBoth(pending, oco)
    modifies pending
    ensures Released(pending)
    ensures answer.Ok? ==> IsOcoResult(Binance, oco, answer.value) && BothReported(pending, answer.value)
    ensures answer.Err? ==> SetBack(pending) || Asked(pending)
    ensures SetBack(pending) || pending.LookedUp(if takeProfitFailed then StopLossKey(oco) else TakeProfitKey(oco), 1)
  {
    var _ := pending.ReconcileOrder(if takeProfitFailed then StopLossKey(oco) else TakeProfitKey(oco));
    answer := CompleteOrCancel(pending, oco);
  }

  /** Goes on with the child that is filled, or cancels what is left. */
  method CompleteOrCancel(pending: PendingOrders, oco: OcoInfo)
    returns (answer: Result<OcoWaitResult>)
    requires pending.Valid() && pending.exchanger == Binance && HoldsBoth(pending, oco)
    modifies pending
    ensures Released(pending)
    ensures answer.Ok? ==> IsOcoResult(Binance, oco, answer.value) && BothReported(pending, answer.value)
    ensures answer.Err? ==> SetBack(pending) || Asked(pending)
    ensures SawFill(pending) || old(NeitherIsFilled(pending, oco))
    ensures answer.Err? && SawFill(pending) ==> SetBack(pending) || SawTwoFills(pending)
  {
    var filledOrder := GetFilledOcoOrder(pending, oco);
    if filledOrder.Err? {
      return Err(filledOrder.error);
    }
    if filledOrder.value.Some? {
      var result, _ := CompleteOcoWait(pending, oco, filledOrder.value.value);
      return result;
    }
    var _ := pending.CancelOco();
    return Err("child ended unfilled");
  }

  method ProcessOcoOrdersUpdate(pending: PendingOrders, oco: OcoInfo, takeProfit: PendingWait, stopLoss: PendingWait)
    returns (answer: Result<OcoWaitResult>)
    requires pending.Valid() && pending.exchanger == Binance && HoldsBoth(pending, oco)
    requires IsCell(pending, TakeProfitKey(oco), takeProfit) && IsCell(pending, StopLossKey(oco), stopLoss)
    modifies pending
    ensures Released(pending)
    ensures answer.Ok? ==> IsOcoResult(Binance, oco, answer.value) && BothReported(pending, answer.value)
    ensures IsFilledReport(Binance, takeProfit.orderInfo) && IsFilledReport(Binance, stopLoss.orderInfo) ==> answer.Err?
    ensures answer.Ok? && IsFilledReport(Binance, takeProfit.orderInfo) ==>
              takeProfit.orderInfo == Some(answer.value.filledOrder)
    ensures answer.Ok? && IsFilledReport(Binance, stopLoss.orderInfo) ==>
              stopLoss.orderInfo == Some(answer.value.filledOrder)
    ensures !IsTerminalReport(Binance, takeProfit.orderInfo) && !IsTerminalReport(Binance, stopLoss.orderInfo) ==>
              answer.Err?
    ensures EndedUnfilled(Binance, takeProfit) && !IsFilledReport(Binance, stopLoss.orderInfo) ==>
              SetBack(pending) || pending.LookedUp(StopLossKey(oco), 1)
    ensures EndedUnfilled(Binance, stopLoss) && !IsTerminalReport(Binance, takeProfit.orderInfo) ==>
              SetBack(pending) || pending.LookedUp(TakeProfitKey(oco), 1)
    ensures answer.Err? ==> SetBack(pending) || Asked(pending)
    ensures IsFilledReport(Binance, takeProfit.orderInfo) != IsFilledReport(Binance, stopLoss.orderInfo) ==>
              answer.Ok? || SetBack(pending) || SawTwoFills(pending)
  {
    var takeProfitFilled := IsFilledReport(Binance, takeProfit.orderInfo);
    var stopLossFilled := IsFilledReport(Binance, stopLoss.orderInfo);
    if takeProfitFilled && stopLossFilled {
      var _ := pending.CancelOco();
      return Err("both filled");
    }
    if takeProfitFilled {
      var result, _ := CompleteOcoWait(pending, oco, takeProfit.orderInfo.value);
      return result;
    }
    if stopLossFilled {
      var result, _ := CompleteOcoWait(pending, oco, stopLoss.orderInfo.value);
      return result;
    }
    var takeProfitFailed := IsTerminalReport(Binance, takeProfit.orderInfo);
    if takeProfitFailed || IsTerminalReport(Binance, stopLoss.orderInfo) {
      answer := ReconcileOcoAfterUnfilledTerminalChild(pending, oco, takeProfitFailed);
      return;
    }
    var _ := pending.CancelOco();
    return Err("stream stopped");
  }

  method WaitUntilOcoOrderFilled(pending: PendingOrders, oco: OcoInfo, stopRequested: bool)
    returns (answer: Result<OcoWaitResult>)
    requires pending.Valid() && pending.exchanger == Binance
    modifies pending
    ensures Released(pending)
    ensures answer.Ok? ==> IsOcoResult(Binance, oco, answer.value) && BothReported(pending, answer.value)
    ensures answer.Err? ==>
              || HasNoIdentity(oco.takeProfitOrder) || HasNoIdentity(oco.stopLossOrder) || stopRequested
              || SetBack(pending) || (Asked(pending) && SawEnd(pending))
  {
    if HasNoIdentity(oco.takeProfitOrder) || HasNoIdentity(oco.stopLossOrder) {
      return Err("missing order id");
    }
    if stopRequested {
      return Err("interrupted");
    }
    answer := WaitRegisteringBoth(pending, oco);
  }

  method WaitRegisteringBoth(pending: PendingOrders, oco: OcoInfo) returns (answer: Result<OcoWaitResult>)
    requires pending.Valid() && pending.exchanger == Binance
    modifies pending
    ensures Released(pending)
    ensures answer.Ok? ==> IsOcoResult(Binance, oco, answer.value) && BothReported(pending, answer.value)
    ensures answer.Err? ==> SetBack(pending) || (Asked(pending) && SawEnd(pending))
  {
    RegisterBoth(pending, oco);
    answer := WaitOcoRegistered(pending, oco);
    UnregisterBoth(pending, oco);
  }

  method WaitOcoRegistered(pending: PendingOrders, oco: OcoInfo) returns (answer: Result<OcoWaitResult>)
    requires pending.Valid() && pending.exchanger == Binance && HoldsBoth(pending, oco)
    modifies pending
    ensures Released(pending)
    ensures answer.Ok? ==> IsOcoResult(Binance, oco, answer.value) && BothReported(pending, answer.value)
    ensures answer.Err? ==> SetBack(pending) || (Asked(pending) && SawEnd(pending))
  {
    var failure := pending.PrepareOcoSubscription(TakeProfitKey(oco), StopLossKey(oco));
    if failure.Some? {
      return Err(failure.value);
    }
    var completed, _, takeProfit, stopLoss := pending.Await(TakeProfitKey(oco), StopLossKey(oco), false);
    if !completed {
      return Err("interrupted");
    }
    answer := ProcessOcoOrdersUpdate(pending, oco, takeProfit, stopLoss);
  }

  function ProcessOcoCancellationUpdate(oco: OcoInfo, takeProfit: PendingWait, stopLoss: PendingWait)
    : (answer: Result<OcoInfo>)
    ensures BelongsTo(takeProfit, TakeProfitKey(oco)) && BelongsTo(stopLoss, StopLossKey(oco)) ==>
              && (answer.Ok?
                  <==> IsTerminalReport(Binance, takeProfit.orderInfo) && IsTerminalReport(Binance, stopLoss.orderInfo))
              && (answer.Ok? ==> IsTerminalOco(Binance, oco, answer.value))
  {
    if IsTerminalReport(Binance, takeProfit.orderInfo) && IsTerminalReport(Binance, stopLoss.orderInfo) then
      CreateTerminalOcoInfo(oco, takeProfit.orderInfo.value, stopLoss.orderInfo.value)
    else Err("stream stopped")
  }

  /** Going on after one child was found filled while cancelling. */
  method CompleteFilledCancellation(pending: PendingOrders, oco: OcoInfo, filledOrder: OrderInfo)
    returns (answer: Result<OcoInfo>)
    requires pending.Valid() && pending.exchanger == Binance && HoldsBoth(pending, oco)
    requires IsStoredFill(pending, oco, filledOrder)
    modifies pending
    ensures Released(pending)
    ensures answer.Ok? ==> IsTerminalOco(Binance, oco, answer.value)
    ensures answer.Ok? ==> filledOrder in {answer.value.takeProfitOrder, answer.value.stopLossOrder}
    ensures answer.Err? ==> SetBack(pending) || (Asked(pending) && SawTwoFills(pending))
  {
    var result, _ := CompleteOcoWait(pending, oco, filledOrder);
    if result.Err? {
      return Err(result.error);
    }
    TerminalChildrenFillSlots(Binance, oco, result.value.filledOrder, result.value.siblingTerminalOrder);
    hide CreateTerminalOcoInfo, IsTerminalOco, IsTerminal;
    answer := CreateTerminalOcoInfo(oco, result.value.filledOrder, result.value.siblingTerminalOrder);
  }

  method CancelOcoAndWaitUntilTerminal(pending: PendingOrders, oco: OcoInfo, stopRequested: bool)
    returns (answer: Result<OcoInfo>, ghost last: Option<Cells>)
    requires pending.Valid() && pending.exchanger == Binance
    modifies pending
    ensures Released(pending)
    ensures answer.Ok? ==> IsTerminalOco(Binance, oco, answer.value)
    ensures answer.Err? ==>
              || HasNoIdentity(oco.takeProfitOrder) || HasNoIdentity(oco.stopLossOrder) || stopRequested
              || EndIsUnknown(pending, oco, 2, last)
              || (oco.orderListId == "" && oco.listClientOrderId == "")
    ensures SawOpen(pending) ==> SetBack(pending) || Asked(pending) || SawFill(pending)
  {
    last := None;
    if HasNoIdentity(oco.takeProfitOrder) || HasNoIdentity(oco.stopLossOrder) {
      return Err("missing order id"), last;
    }
    if oco.orderListId == "" && oco.listClientOrderId == "" {
      return Err("missing list id"), last;
    }
    if stopRequested {
      return Err("interrupted"), last;
    }
    answer, last := CancelRegisteringBoth(pending, oco);
  }

  method CancelRegisteringBoth(pending: PendingOrders, oco: OcoInfo)
    returns (answer: Result<OcoInfo>, ghost last: Option<Cells>)
    requires pending.Valid() && pending.exchanger == Binance
    modifies pending
    ensures Released(pending)
    ensures answer.Ok? ==> IsTerminalOco(Binance, oco, answer.value)
    ensures answer.Err? ==> EndIsUnknown(pending, oco, 2, last)
    ensures SawOpen(pending) ==> SetBack(pending) || Asked(pending) || SawFill(pending)
  {
    RegisterBoth(pending, oco);
    answer, last := CancelOcoRegistered(pending, oco);
    UnregisterBoth(pending, oco);
  }

  method CancelOcoRegistered(pending: PendingOrders, oco: OcoInfo)
    returns (answer: Result<OcoInfo>, ghost last: Option<Cells>)
    requires pending.Valid() && pending.exchanger == Binance && HoldsBoth(pending, oco)
    modifies pending
    ensures Released(pending)
    ensures answer.Ok? ==> IsTerminalOco(Binance, oco, answer.value)
    ensures answer.Err? ==> EndIsUnknown(pending, oco, 2, last)
    ensures SawOpen(pending) ==> SetBack(pending) || Asked(pending) || SawFill(pending)
  {
    last := None;
    var known := EndIfKnown(pending, oco);
    if known.Some? {
      return known.value, last;
    }
    var stopRequested := pending.StopRequested();
    if stopRequested {
      return Err("interrupted"), last;
    }
    answer, last := RequestCancellation(pending, oco);
  }

  /** What is known of the two children when the stream is up: their end, a fill to go on with, or an error. */
  method EndIfKnown(pending: PendingOrders, oco: OcoInfo) returns (answer: Option<Result<OcoInfo>>)
    requires pending.Valid() && pending.exchanger == Binance && HoldsBoth(pending, oco)
    modifies pending
    ensures Released(pending)
    ensures answer.Some? && answer.value.Ok? ==> IsTerminalOco(Binance, oco, answer.value.value)
    ensures answer.Some? && answer.value.Err? ==> SetBack(pending) || (Asked(pending) && SawTwoFills(pending))
    ensures answer.None? ==> LookedUpBoth(pending, oco, 1)
    ensures answer.Some? ==> SetBack(pending) || SawFill(pending) || !SawOpen(pending)
  {
    answer := EndWhenSubscribed(pending, oco);
    if answer.Some? {
      return;
    }
    answer := EndIfFilled(pending, oco);
  }

  method EndIfFilled(pending: PendingOrders, oco: OcoInfo) returns (answer: Option<Result<OcoInfo>>)
    requires pending.Valid() && pending.exchanger == Binance && HoldsBoth(pending, oco)
    modifies pending
    ensures Released(pending)
    ensures answer.Some? && answer.value.Ok? ==> IsTerminalOco(Binance, oco, answer.value.value)
    ensures answer.Some? && answer.value.Err? ==> SetBack(pending) || (Asked(pending) && SawTwoFills(pending))
    ensures answer.Some? ==> SawFill(pending)
    ensures answer.None? ==> pending.Undisturbed() && NeitherIsFilled(pending, oco)
  {
    var filledOrder := GetFilledOcoOrder(pending, oco);
    if filledOrder.Err? {
      return Some(Err(filledOrder.error));
    }
    if filledOrder.value.None? {
      return None;
    }
    var completed := CompleteFilledCancellation(pending, oco, filledOrder.value.value);
    return Some(completed);
  }

  method RequestCancellation(pending: PendingOrders, oco: OcoInfo)
    returns (answer: Result<OcoInfo>, ghost last: Option<Cells>)
    requires pending.Valid() && pending.exchanger == Binance && HoldsBoth(pending, oco)
    modifies pending
    ensures Released(pending)
    ensures answer.Ok? ==> IsTerminalOco(Binance, oco, answer.value)
    ensures answer.Err? ==> EndIsUnknown(pending, oco, 1, last)
    ensures Asked(pending)
  {
    last := None;
    var failure := pending.CancelOco();
    if failure.Some? {
      answer, last := AfterRefusedCancellation(pending, oco, failure.value);
    } else {
      answer := AfterAcceptedCancellation(pending, oco);
    }
  }

  /** The exchange refused; the orders may have ended all the same. */
  method AfterRefusedCancellation(pending: PendingOrders, oco: OcoInfo, refusal: string)
    returns (answer: Result<OcoInfo>, ghost last: Option<Cells>)
    requires pending.Valid() && pending.exchanger == Binance && HoldsBoth(pending, oco)
    modifies pending
    ensures Released(pending)
    ensures answer.Ok? ==> IsTerminalOco(Binance, oco, answer.value)
    ensures answer.Err? ==>
              || SetBack(pending) || (Asked(pending) && SawTwoFills(pending))
              || (LookedUpBoth(pending, oco, 1) && last.Some? && StaysOpen(Binance, last.value))
  {
    last := None;
    var failure := ReconcileBoth(pending, oco);
    if failure.Some? {
      return Err(refusal), last;
    }
    var terminal, cells := GetTerminalOcoInfo(pending, oco);
    last := Some(cells);
    if terminal.value.Some? {
      return Ok(terminal.value.value), last;
    }
    var known := EndIfFilled(pending, oco);
    answer := if known.Some? then known.value else Err(refusal);
  }

  method AfterAcceptedCancellation(pending: PendingOrders, oco: OcoInfo) returns (answer: Result<OcoInfo>)
    requires pending.Valid() && pending.exchanger == Binance && HoldsBoth(pending, oco)
    modifies pending
    ensures Released(pending)
    ensures answer.Ok? ==> IsTerminalOco(Binance, oco, answer.value)
    ensures answer.Err? ==> SetBack(pending)
  {
    var completed, takeProfit, stopLoss := AwaitBoth(pending, oco);
    if !completed {
      return Err("interrupted");
    }
    answer := ProcessOcoCancellationUpdate(oco, takeProfit, stopLoss);
    if answer.Err? {
      answer := ReconcileCancelled(pending, oco);
    }
  }

  /** The stream was lost before both ends were reported: both orders are looked up. */
  method ReconcileCancelled(pending: PendingOrders, oco: OcoInfo) returns (answer: Result<OcoInfo>)
    requires pending.Valid() && pending.exchanger == Binance && HoldsBoth(pending, oco)
    modifies pending
    ensures Released(pending)
    ensures answer.Ok? ==> IsTerminalOco(Binance, oco, answer.value)
    ensures answer.Err? ==> SetBack(pending) || LookedUpBoth(pending, oco, 1)
  {
    var failure := ReconcileBoth(pending, oco);
    if failure.Some? {
      return Err(failure.value);
    }
    var takeProfit, stopLoss := GetOwnBoth(pending, oco);
    answer := ProcessOcoCancellationUpdate(oco, takeProfit, stopLoss);
  }
}
