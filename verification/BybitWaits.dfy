/** The waits of the Bybit service. They differ from Binance's in the error that another thread may put
    into a cell, and in cancelling the sibling of a filled child themselves. */
module BybitWaits {
  import opened Domain
  import opened OrderStatus
  import opened PendingOrderState
  import opened PendingOrdersObject
  import opened OcoChildren
  import opened WaitContracts
  import opened BybitOcoState
  import opened BybitOcoService

  function ProcessOrderUpdate(wait: PendingWait): Result<OrderInfo> {
    if wait.error.Some? then Err(wait.error.value)
    else if IsFilledReport(Bybit, wait.orderInfo) then Ok(wait.orderInfo.value)
    else if IsTerminalReport(Bybit, wait.orderInfo) then Err("ended unfilled")
    else Err("stream stopped")
  }

  function ProcessOrderCancellationUpdate(wait: PendingWait): Result<OrderInfo> {
    if wait.error.Some? then Err(wait.error.value)
    else if IsTerminalReport(Bybit, wait.orderInfo) then Ok(wait.orderInfo.value)
    else Err("stream stopped")
  }

  method WaitUntilOrderFilled(pending: PendingOrders, symbol: string, orderId: string, stopRequested: bool)
    returns (answer: Result<OrderInfo>, ghost last: Option<PendingWait>)
    requires pending.Valid() && pending.exchanger == Bybit
    modifies pending
    ensures Released(pending)
    ensures answer.Ok? <==> last.Some? && IsFilledReport(Bybit, last.value.orderInfo) && last.value.error.None?
    ensures answer.Ok? ==>
              && last.value.orderInfo == Some(answer.value)
              && KeyOf(answer.value) == OrderKey(symbol, orderId) && answer.value in pending.reported
    ensures answer.Err? ==>
              || symbol == "" || orderId == "" || stopRequested || SetBack(pending)
              || (last.Some? && IsTerminalReport(Bybit, last.value.orderInfo))
  {
    last := None;
    if symbol == "" || orderId == "" {
      return Err("missing order id"), last;
    }
    if stopRequested {
      return Err("interrupted"), last;
    }
    var key := OrderKey(symbol, orderId);
    answer, last := WaitRegistering(pending, key);
  }

  method WaitRegistering(pending: PendingOrders, key: OrderKey)
    returns (answer: Result<OrderInfo>, ghost last: Option<PendingWait>)
    requires pending.Valid() && pending.exchanger == Bybit
    modifies pending
    ensures Released(pending)
    ensures answer.Ok? <==> last.Some? && IsFilledReport(Bybit, last.value.orderInfo) && last.value.error.None?
    ensures answer.Ok? ==>
              last.value.orderInfo == Some(answer.value) && KeyOf(answer.value) == key
              && answer.value in pending.reported
    ensures answer.Err? ==> SetBack(pending) || (last.Some? && IsTerminalReport(Bybit, last.value.orderInfo))
  {
    pending.Register(key);
    answer, last := WaitRegistered(pending, key);
    pending.Unregister(key);
  }

  method WaitRegistered(pending: PendingOrders, key: OrderKey)
    returns (answer: Result<OrderInfo>, ghost last: Option<PendingWait>)
    requires pending.Valid() && pending.exchanger == Bybit && key in pending.held
    modifies pending
    ensures Released(pending)
    ensures answer.Ok? <==> last.Some? && IsFilledReport(Bybit, last.value.orderInfo) && last.value.error.None?
    ensures answer.Ok? ==>
              last.value.orderInfo == Some(answer.value) && KeyOf(answer.value) == key
              && answer.value in pending.reported
    ensures answer.Err? ==> SetBack(pending) || (last.Some? && IsTerminalReport(Bybit, last.value.orderInfo))
  {
    last := None;
    var failure := pending.PrepareOrderSubscription(key);
    if failure.Some? {
      return Err(failure.value), last;
    }
    var completed, wait := AwaitOwn(pending, key);
    if !completed {
      return Err("interrupted"), last;
    }
    last := Some(wait);
    answer := ProcessOrderUpdate(wait);
  }

  method CancelOrderAndWaitUntilTerminal(pending: PendingOrders, symbol: string, orderId: Option<string>,
                                         stopRequested: bool)
    returns (answer: Result<OrderInfo>, ghost last: Option<PendingWait>)
    requires pending.Valid() && pending.exchanger == Bybit
    modifies pending
    ensures Released(pending)
    ensures last.Some? && IsTerminalReport(Bybit, last.value.orderInfo) && last.value.error.None? ==> answer.Ok?
    ensures answer.Ok? ==> last.Some? && IsTerminalReport(Bybit, last.value.orderInfo)
    ensures answer.Ok? ==>
              && last.value.orderInfo == Some(answer.value) && orderId.Some?
              && KeyOf(answer.value) == OrderKey(symbol, orderId.value) && answer.value in pending.reported
    ensures answer.Err? ==>
              || symbol == "" || orderId.None? || orderId.value == "" || stopRequested
              || SetBack(pending)
              || (Refused(pending) && pending.LookedUp(OrderKey(symbol, orderId.value), 2) && last.Some?)
    ensures SawOpen(pending) ==> SetBack(pending) || Asked(pending)
  {
    last := None;
    if symbol == "" || orderId.None? || orderId.value == "" {
      return Err("missing order id"), last;
    }
    if stopRequested {
      return Err("interrupted"), last;
    }
    var key := OrderKey(symbol, orderId.value);
    answer, last := CancelRegistering(pending, key);
  }

  method CancelRegistering(pending: PendingOrders, key: OrderKey)
    returns (answer: Result<OrderInfo>, ghost last: Option<PendingWait>)
    requires pending.Valid() && pending.exchanger == Bybit
    modifies pending
    ensures Released(pending)
    ensures last.Some? && IsTerminalReport(Bybit, last.value.orderInfo) && last.value.error.None? ==> answer.Ok?
    ensures answer.Ok? ==> last.Some? && IsTerminalReport(Bybit, last.value.orderInfo)
    ensures answer.Ok? ==>
              last.value.orderInfo == Some(answer.value) && KeyOf(answer.value) == key
              && answer.value in pending.reported
    ensures answer.Err? ==> SetBack(pending) || (Refused(pending) && pending.LookedUp(key, 2) && last.Some?)
    ensures SawOpen(pending) ==> SetBack(pending) || Asked(pending)
  {
    pending.Register(key);
    answer, last := CancelRegistered(pending, key);
    pending.Unregister(key);
  }

  method CancelRegistered(pending: PendingOrders, key: OrderKey)
    returns (answer: Result<OrderInfo>, ghost last: Option<PendingWait>)
    requires pending.Valid() && pending.exchanger == Bybit && key in pending.held
    modifies pending
    ensures Released(pending)
    ensures last.Some? && IsTerminalReport(Bybit, last.value.orderInfo) && last.value.error.None? ==> answer.Ok?
    ensures answer.Ok? ==> last.Some? && IsTerminalReport(Bybit, last.value.orderInfo)
    ensures answer.Ok? ==>
              last.value.orderInfo == Some(answer.value) && KeyOf(answer.value) == key
              && answer.value in pending.reported
    ensures answer.Err? ==> SetBack(pending) || (Refused(pending) && pending.LookedUp(key, 2) && last.Some?)
    ensures SawOpen(pending) ==> SetBack(pending) || Asked(pending)
  {
    last := None;
    var failure := pending.PrepareOrderSubscription(key);
    if failure.Some? {
      return Err(failure.value), last;
    }
    var wait := GetOwn(pending, key);
    last := Some(wait);
    if IsTerminalReport(Bybit, wait.orderInfo) {
      return Ok(wait.orderInfo.value), last;
    }
    if wait.error.Some? {
      return ProcessOrderCancellationUpdate(wait), last;
    }
    var stopRequested := pending.StopRequested();
    if stopRequested {
      return Err("interrupted"), last;
    }
    answer, last := RequestOrderCancellation(pending, key);
  }

  method RequestOrderCancellation(pending: PendingOrders, key: OrderKey)
    returns (answer: Result<OrderInfo>, ghost last: Option<PendingWait>)
    requires pending.Valid() && pending.exchanger == Bybit && key in pending.held
    modifies pending
    ensures Released(pending)
    ensures last.Some? && IsTerminalReport(Bybit, last.value.orderInfo) && last.value.error.None? ==> answer.Ok?
    ensures answer.Ok? ==> last.Some? && IsTerminalReport(Bybit, last.value.orderInfo)
    ensures answer.Ok? ==>
              last.value.orderInfo == Some(answer.value) && KeyOf(answer.value) == key
              && answer.value in pending.reported
    ensures answer.Err? ==> SetBack(pending) || (Refused(pending) && pending.LookedUp(key, 1) && last.Some?)
    ensures Asked(pending)
  {
    var cancellation := pending.CancelOrder();
    if cancellation.Err? {
      answer, last := AfterRefusedOrderCancellation(pending, key, cancellation.error);
    } else {
      answer, last := ConfirmCancellation(pending, key);
    }
  }

  /** The exchange refused; the order may have ended all the same. */
  method AfterRefusedOrderCancellation(pending: PendingOrders, key: OrderKey, refusal: string)
    returns (answer: Result<OrderInfo>, ghost last: Option<PendingWait>)
    requires pending.Valid() && pending.exchanger == Bybit && key in pending.held
    modifies pending
    ensures Released(pending)
    ensures last.Some? && IsTerminalReport(Bybit, last.value.orderInfo) && last.value.error.None? ==> answer.Ok?
    ensures answer.Ok? ==> last.Some? && IsTerminalReport(Bybit, last.value.orderInfo)
    ensures answer.Ok? ==>
              last.value.orderInfo == Some(answer.value) && KeyOf(answer.value) == key
              && answer.value in pending.reported
    ensures answer.Err? ==> SetBack(pending) || (pending.LookedUp(key, 1) && last.Some?)
  {
    last := None;
    var failure := pending.ReconcileOrder(key);
    if failure.Some? {
      return Err(refusal), last;
    }
    var wait := GetOwn(pending, key);
    last := Some(wait);
    if IsTerminalReport(Bybit, wait.orderInfo) {
      return Ok(wait.orderInfo.value), last;
    }
    return Err(refusal), last;
  }

  /** The exchange accepted; what counts is the terminal report. */
  method ConfirmCancellation(pending: PendingOrders, key: OrderKey)
    returns (answer: Result<OrderInfo>, ghost last: Option<PendingWait>)
    requires pending.Valid() && pending.exchanger == Bybit && key in pending.held
    modifies pending
    ensures Released(pending)
    ensures last.Some? && IsTerminalReport(Bybit, last.value.orderInfo) && last.value.error.None? ==> answer.Ok?
    ensures answer.Ok? ==> last.Some? && IsTerminalReport(Bybit, last.value.orderInfo)
    ensures answer.Ok? ==>
              last.value.orderInfo == Some(answer.value) && KeyOf(answer.value) == key
              && answer.value in pending.reported
    ensures last.Some? && (answer.Err? ==> SetBack(pending))
  {
    var wait := GetOwn(pending, key);
    last := Some(wait);
    if IsTerminalReport(Bybit, wait.orderInfo) {
      return Ok(wait.orderInfo.value), last;
    }
    var completed, awaited := AwaitOwn(pending, key);
    if !completed {
      return Err("interrupted"), last;
    }
    wait := awaited;
    last := Some(wait);
    if wait.error.Some? || IsTerminalReport(Bybit, wait.orderInfo) {
      return ProcessOrderCancellationUpdate(wait), last;
    }
    answer, last := LookUpEnd(pending, key, wait);
  }

  /** The stream was lost before the end was reported: the order is looked up. */
  method LookUpEnd(pending: PendingOrders, key: OrderKey, ghost before: PendingWait)
    returns (answer: Result<OrderInfo>, ghost last: Option<PendingWait>)
    requires pending.Valid() && pending.exchanger == Bybit && key in pending.held
    requires !IsTerminalReport(Bybit, before.orderInfo)
    modifies pending
    ensures Released(pending)
    ensures last.Some? && IsTerminalReport(Bybit, last.value.orderInfo) && last.value.error.None? ==> answer.Ok?
    ensures answer.Ok? ==> last.Some? && IsTerminalReport(Bybit, last.value.orderInfo)
    ensures answer.Ok? ==>
              last.value.orderInfo == Some(answer.value) && KeyOf(answer.value) == key
              && answer.value in pending.reported
    ensures last.Some? && (SetBack(pending) || pending.LookedUp(key, 1))
  {
    last := Some(before);
    var failure := pending.ReconcileOrder(key);
    if failure.Some? {
      return Err(failure.value), last;
    }
    var wait := GetOwn(pending, key);
    last := Some(wait);
    answer := ProcessOrderCancellationUpdate(wait);
  }

  // ---- OCO orders ----

  function GroupIdOf(oco: OcoInfo): BybitOcoState.GroupId {
    if oco.orderListId != "" then oco.orderListId else oco.listClientOrderId
  }

  /** Cancels what is left of the OCO order, through the registry. */
  method CancelOco(pending: PendingOrders, service: OcoService, oco: OcoInfo) returns (failure: Option<string>)
    requires pending.Valid() && service.Valid()
    modifies pending, service, service.registry, service.exchange
    ensures pending.Valid() && pending.Undisturbed() && pending.NotesGrew() && service.Valid()
    ensures failure.None? ==> GroupIdOf(oco) !in service.registry.View().groups
    ensures if failure.Some? then Refused(pending) else Asked(pending)
    ensures service.handed == old(service.handed)
    ensures pending.notes.fills == old(pending.notes).fills
  {
    pending.Interfere();
    service.OthersAct();
    if GroupIdOf(oco) == "" {
      pending.NoteCancellation(true);
      return Some("missing identifier");
    }
    ghost var last;
    failure, last := service.CancelOco(GroupIdOf(oco));
    pending.NoteCancellation(failure.Some?);
  }

  /** The filled child, if there is just one; after two fills what is left of the OCO order is cancelled. */
  method GetFilledOcoOrder(pending: PendingOrders, service: OcoService, oco: OcoInfo)
    returns (answer: Result<Option<OrderInfo>>)
    requires pending.Valid() && pending.exchanger == Bybit && HoldsBoth(pending, oco) && service.Valid()
    modifies pending, service, service.registry, service.exchange
    ensures Released(pending) && service.Valid()
    ensures IsFilledChild(pending, oco, answer)
    ensures (answer.Err? ==> Asked(pending)) && FillsAreNoted(pending, answer)
    ensures answer == Ok(None) ==> pending.Undisturbed()
  {
    answer := FindFilledOcoOrder(pending, oco);
    if answer.Err? {
      var _ := CancelOco(pending, service, oco);
    }
  }

  /** What the registry held when the fill was handed to it, `begun`, and once it was dealt with, `ended`:
      if the fill was the first of its group, the other leg was cancelled and the group is gone. Otherwise
      the group is not known any more, or an earlier fill is closing it. */
  predicate SiblingIsCancelled(begun: Registry, ended: Registry, link: LinkId) {
    var start := begun.BeginFill(link).1;
    start.CancelSibling? ==> start.group !in ended.groups
  }

  /** The registry's answer to a fill, with its call to the exchange. */
  method ProcessOcoUpdate(pending: PendingOrders, service: OcoService, link: LinkId)
    returns (cancellationError: Option<string>, ghost begun: Registry, ghost ended: Registry)
    requires pending.Valid() && service.Valid()
    modifies pending, service, service.registry, service.exchange
    ensures pending.Valid() && pending.Undisturbed() && pending.NotesGrew() && service.Valid()
    ensures cancellationError.None? <==> SiblingIsCancelled(begun, ended, link)
    ensures cancellationError.Some? ==> SetBack(pending)
    ensures service.handed == old(service.handed) + multiset{link}
  {
    cancellationError, begun, ended := HandToRegistry(service, link);
    pending.Interfere();
    pending.NoteSetback(cancellationError.Some?);
  }

  method HandToRegistry(service: OcoService, link: LinkId)
    returns (cancellationError: Option<string>, ghost begun: Registry, ghost ended: Registry)
    requires service.Valid()
    modifies service, service.registry, service.exchange
    ensures service.Valid()
    ensures cancellationError.None? <==> SiblingIsCancelled(begun, ended, link)
    ensures service.handed == old(service.handed) + multiset{link}
  {
    service.OthersAct();
    begun := service.registry.View();
    cancellationError := service.ProcessOcoUpdate(link);
    ended := service.registry.View();
  }

  function OrderOf(leg: LegQuery): OrderInfo {
    OrderInfo(leg.symbol, leg.orderId, leg.clientOrderId, "", "", 0.0, 0.0, 0.0)
  }

  /** The waits of the legs that the registry knows of have been told of the error. */
  ghost predicate Tells(pending: PendingOrders, registry: Registry, link: LinkId, error: string)
    reads pending
  {
    registry.LegsOf(link).Some? ==>
      forall order | order in {OrderOf(registry.LegsOf(link).value.0), OrderOf(registry.LegsOf(link).value.1)} ::
        order.symbol == "" || order.orderId == "" || (KeyOf(order), error) in pending.errors
  }

  /** Tells the waits of both legs of the group, if the registry still knows it. */
  method PublishOcoError(pending: PendingOrders, service: OcoService, link: LinkId, error: string)
    requires pending.Valid() && service.Valid()
    modifies pending, service, service.registry, service.exchange
    ensures Released(pending) && service.Valid()
    ensures Tells(pending, service.registry.View(), link, error)
    ensures service.handed == old(service.handed)
  {
    service.OthersAct();
    var legs := service.registry.FindLegs(link);
    if legs.Some? {
      pending.PublishOrderWaitError(OrderOf(legs.value.0), error);
      pending.Interfere();
      pending.PublishOrderWaitError(OrderOf(legs.value.1), error);
    }
  }

  /** The other leg stays: both waits are told, and what is left of the OCO order is cancelled. */
  method AfterRefusedSibling(pending: PendingOrders, service: OcoService, oco: OcoInfo, link: LinkId, error: string)
    returns (ghost told: Registry)
    requires pending.Valid() && service.Valid()
    modifies pending, service, service.registry, service.exchange
    ensures Released(pending) && service.Valid() && Asked(pending)
    ensures Tells(pending, told, link, error)
    ensures service.handed == old(service.handed)
  {
    PublishOcoError(pending, service, link, error);
    told := service.registry.View();
    var _ := CancelOco(pending, service, oco);
  }

  method CompleteOcoWait(pending: PendingOrders, service: OcoService, oco: OcoInfo, filledOrder: OrderInfo)
    returns (answer: Result<OcoWaitResult>, ghost last: Option<PendingWait>, ghost begun: Registry,
             ghost ended: Registry)
    requires pending.Valid() && service.Valid() && pending.exchanger == Bybit && HoldsBoth(pending, oco)
    requires IsStoredFill(pending, oco, filledOrder)
    modifies pending, service, service.registry, service.exchange
    ensures Released(pending) && service.Valid()
    ensures answer.Ok? <==> last.Some? && IsTerminalReport(Bybit, last.value.orderInfo)
                            && !IsFilledReport(Bybit, last.value.orderInfo) && last.value.error.None?
    ensures answer.Ok? ==>
              && IsOcoResult(Bybit, oco, answer.value)
              && answer.value.filledOrder == filledOrder
              && KeyOf(answer.value.siblingTerminalOrder) == SiblingKey(oco, filledOrder)
              && last.value.orderInfo == Some(answer.value.siblingTerminalOrder)
              && filledOrder in pending.reported && answer.value.siblingTerminalOrder in pending.reported
    ensures answer.Err? ==>
              || SetBack(pending)
              || (Asked(pending) && SawTwoFills(pending) && last.Some? && IsFilledReport(Bybit, last.value.orderInfo))
    ensures !SiblingIsCancelled(begun, ended, filledOrder.clientOrderId) ==> answer.Err? && Asked(pending)
    ensures filledOrder.clientOrderId != "" ==>
              service.handed == old(service.handed) + multiset{filledOrder.clientOrderId}
  {
    last, begun, ended := None, EMPTY, EMPTY;
    if filledOrder.clientOrderId == "" {
      pending.NoteSetback(true);
      return Err("missing link id"), last, begun, ended;
    }
    var cancellationError;
    cancellationError, begun, ended := ProcessOcoUpdate(pending, service, filledOrder.clientOrderId);
    if cancellationError.Some? {
      ghost var _ := AfterRefusedSibling(pending, service, oco, filledOrder.clientOrderId, cancellationError.value);
      return Err("sibling not cancelled: " + cancellationError.value), last, begun, ended;
    }
    answer, last := AwaitSibling(pending, service, oco, filledOrder);
  }

  method AwaitSibling(pending: PendingOrders, service: OcoService, oco: OcoInfo, filledOrder: OrderInfo)
    returns (answer: Result<OcoWaitResult>, ghost last: Option<PendingWait>)
    requires pending.Valid() && service.Valid() && pending.exchanger == Bybit && HoldsBoth(pending, oco)
    requires IsStoredFill(pending, oco, filledOrder)
    modifies pending, service, service.registry, service.exchange
    ensures Released(pending) && service.Valid()
    ensures answer.Ok? <==> last.Some? && IsTerminalReport(Bybit, last.value.orderInfo)
                            && !IsFilledReport(Bybit, last.value.orderInfo) && last.value.error.None?
    ensures answer.Ok? ==>
              && IsOcoResult(Bybit, oco, answer.value)
              && answer.value.filledOrder == filledOrder
              && KeyOf(answer.value.siblingTerminalOrder) == SiblingKey(oco, filledOrder)
              && last.value.orderInfo == Some(answer.value.siblingTerminalOrder)
              && filledOrder in pending.reported && answer.value.siblingTerminalOrder in pending.reported
    ensures answer.Err? ==>
              || SetBack(pending)
              || (Asked(pending) && SawTwoFills(pending) && last.Some? && IsFilledReport(Bybit, last.value.orderInfo))
    ensures service.handed == old(service.handed)
  {
    last := None;
    var completed, sibling := AwaitSiblingOf(pending, oco, filledOrder);
    if !completed {
      return Err("interrupted"), last;
    }
    last := Some(sibling);
    if sibling.error.Some? {
      return Err(sibling.error.value), last;
    }
    if sibling.orderInfo.None? {
      return Err("stream stopped"), last;
    }
    if IsFilled(Bybit, sibling.orderInfo.value.status) {
      var _ := CancelOco(pending, service, oco);
      return Err("both filled"), last;
    }
    if !IsTerminal(Bybit, sibling.orderInfo.value.status) {
      return Err("sibling still open"), last;
    }
    return Ok(OcoWaitResult(filledOrder, sibling.orderInfo.value)), last;
  }

  method ReconcileOcoAfterUnfilledTerminalChild(pending: PendingOrders, service: OcoService, oco: OcoInfo,
                                                takeProfitFailed: bool)
    returns (answer: Result<OcoWaitResult>)
    requires pending.Valid() && service.Valid() && pending.exchanger == Bybit && HoldsBoth(pending, oco)
    modifies pending, service, service.registry, service.exchange
    ensures Released(pending) && service.Valid()
    ensures answer.Ok? ==> IsOcoResult(Bybit, oco, answer.value) && BothReported(pending, answer.value)
    ensures answer.Err? ==> SetBack(pending) || Asked(pending)
    ensures SetBack(pending) || pending.LookedUp(if takeProfitFailed then StopLossKey(oco) else TakeProfitKey(oco), 1)
  {
    var _ := pending.ReconcileOrder(if takeProfitFailed then StopLossKey(oco) else TakeProfitKey(oco));
    answer := CompleteOrCancel(pending, service, oco);
  }

  /** Goes on with the child that is filled, or cancels what is left. */
  method CompleteOrCancel(pending: PendingOrders, service: OcoService, oco: OcoInfo)
    returns (answer: Result<OcoWaitResult>)
    requires pending.Valid() && service.Valid() && pending.exchanger == Bybit && HoldsBoth(pending, oco)
    modifies pending, service, service.registry, service.exchange
    ensures Released(pending) && service.Valid()
    ensures answer.Ok? ==> IsOcoResult(Bybit, oco, answer.value) && BothReported(pending, answer.value)
    ensures answer.Err? ==> SetBack(pending) || Asked(pending)
    ensures SawFill(pending) || old(NeitherIsFilled(pending, oco))
    ensures answer.Err? && SawFill(pending) ==> SetBack(pending) || SawTwoFills(pending)
  {
    var filledOrder := GetFilledOcoOrder(pending, service, oco);
    if filledOrder.Err? {
      return Err(filledOrder.error);
    }
    if filledOrder.value.Some? {
      var result, _, _, _ := CompleteOcoWait(pending, service, oco, filledOrder.value.value);
      return result;
    }
    var _ := CancelOco(pending, service, oco);
    return Err("child ended unfilled");
  }

  method ProcessOcoOrdersUpdate(pending: PendingOrders, service: OcoService, oco: OcoInfo, takeProfit: PendingWait,
                                stopLoss: PendingWait)
    returns (answer: Result<OcoWaitResult>)
    requires pending.Valid() && service.Valid() && pending.exchanger == Bybit && HoldsBoth(pending, oco)
    requires IsCell(pending, TakeProfitKey(oco), takeProfit) && IsCell(pending, StopLossKey(oco), stopLoss)
    modifies pending, service, service.registry, service.exchange
    ensures Released(pending) && service.Valid()
    ensures answer.Ok? ==> IsOcoResult(Bybit, oco, answer.value) && BothReported(pending, answer.value)
    ensures IsFilledReport(Bybit, takeProfit.orderInfo) && IsFilledReport(Bybit, stopLoss.orderInfo) ==> answer.Err?
    ensures answer.Ok? && IsFilledReport(Bybit, takeProfit.orderInfo) ==>
              takeProfit.orderInfo == Some(answer.value.filledOrder)
    ensures answer.Ok? && IsFilledReport(Bybit, stopLoss.orderInfo) ==>
              stopLoss.orderInfo == Some(answer.value.filledOrder)
    ensures !IsTerminalReport(Bybit, takeProfit.orderInfo) && !IsTerminalReport(Bybit, stopLoss.orderInfo) ==>
              answer.Err?
    ensures (!IsFilledReport(Bybit, takeProfit.orderInfo) && !IsFilledReport(Bybit, stopLoss.orderInfo)
             && (takeProfit.error.Some? || stopLoss.error.Some?)) ==> answer.Err?
    ensures EndedUnfilled(Bybit, takeProfit) && !IsFilledReport(Bybit, stopLoss.orderInfo)
            && takeProfit.error.None? && stopLoss.error.None? ==>
              SetBack(pending) || pending.LookedUp(StopLossKey(oco), 1)
    ensures EndedUnfilled(Bybit, stopLoss) && !IsTerminalReport(Bybit, takeProfit.orderInfo)
            && takeProfit.error.None? && stopLoss.error.None? ==>
              SetBack(pending) || pending.LookedUp(TakeProfitKey(oco), 1)
    ensures answer.Err? ==> SetBack(pending) || Asked(pending)
    ensures IsFilledReport(Bybit, takeProfit.orderInfo) != IsFilledReport(Bybit, stopLoss.orderInfo) ==>
              answer.Ok? || SetBack(pending) || SawTwoFills(pending)
  {
    var takeProfitFilled := IsFilledReport(Bybit, takeProfit.orderInfo);
    var stopLossFilled := IsFilledReport(Bybit, stopLoss.orderInfo);
    if takeProfitFilled && stopLossFilled {
      var _ := CancelOco(pending, service, oco);
      return Err("both filled");
    }
    if takeProfitFilled {
      var result, _, _, _ := CompleteOcoWait(pending, service, oco, takeProfit.orderInfo.value);
      return result;
    }
    if stopLossFilled {
      var result, _, _, _ := CompleteOcoWait(pending, service, oco, stopLoss.orderInfo.value);
      return result;
    }
    if takeProfit.error.Some? || stopLoss.error.Some? {
      var _ := CancelOco(pending, service, oco);
      return Err(if takeProfit.error.Some? then takeProfit.error.value else stopLoss.error.value);
    }
    var takeProfitFailed := IsTerminalReport(Bybit, takeProfit.orderInfo);
    if takeProfitFailed || IsTerminalReport(Bybit, stopLoss.orderInfo) {
      answer := ReconcileOcoAfterUnfilledTerminalChild(pending, service, oco, takeProfitFailed);
      return;
    }
    var _ := CancelOco(pending, service, oco);
    return Err("stream stopped");
  }

  method WaitUntilOcoOrderFilled(pending: PendingOrders, service: OcoService, oco: OcoInfo, stopRequested: bool)
    returns (answer: Result<OcoWaitResult>)
    requires pending.Valid() && service.Valid() && pending.exchanger == Bybit
    modifies pending, service, service.registry, service.exchange
    ensures Released(pending) && service.Valid()
    ensures answer.Ok? ==> IsOcoResult(Bybit, oco, answer.value) && BothReported(pending, answer.value)
    ensures answer.Err? ==>
              || HasNoIdentity(oco.takeProfitOrder) || HasNoIdentity(oco.stopLossOrder) || stopRequested
              || SetBack(pending) || (Asked(pending) && SawEnd(pending))
  {
    if HasNoIdentity(oco.takeProfitOrder) || HasNoIdentity(oco.stopLossOrder) {
      return Err("missing order id");
    }
    if stopRequested {
      return Err("interrupted");
    }
    answer := WaitRegisteringBoth(pending, service, oco);
  }

  method WaitRegisteringBoth(pending: PendingOrders, service: OcoService, oco: OcoInfo)
    returns (answer: Result<OcoWaitResult>)
    requires pending.Valid() && service.Valid() && pending.exchanger == Bybit
    modifies pending, service, service.registry, service.exchange
    ensures Released(pending) && service.Valid()
    ensures answer.Ok? ==> IsOcoResult(Bybit, oco, answer.value) && BothReported(pending, answer.value)
    ensures answer.Err? ==> SetBack(pending) || (Asked(pending) && SawEnd(pending))
  {
    RegisterBoth(pending, oco);
    answer := WaitOcoRegistered(pending, service, oco);
    UnregisterBoth(pending, oco);
  }

  method WaitOcoRegistered(pending: PendingOrders, service: OcoService, oco: OcoInfo)
    returns (answer: Result<OcoWaitResult>)
    requires pending.Valid() && service.Valid() && pending.exchanger == Bybit && HoldsBoth(pending, oco)
    modifies pending, service, service.registry, service.exchange
    ensures Released(pending) && service.Valid()
    ensures answer.Ok? ==> IsOcoResult(Bybit, oco, answer.value) && BothReported(pending, answer.value)
    ensures answer.Err? ==> SetBack(pending) || (Asked(pending) && SawEnd(pending))
  {
    var failure := pending.PrepareOcoSubscription(TakeProfitKey(oco), StopLossKey(oco));
    if failure.Some? {
      return Err(failure.value);
    }
    var completed, _, takeProfit, stopLoss := pending.Await(TakeProfitKey(oco), StopLossKey(oco), false);
    if !completed {
      return Err("interrupted");
    }
    answer := ProcessOcoOrdersUpdate(pending, service, oco, takeProfit, stopLoss);
  }

  function ProcessOcoCancellationUpdate(oco: OcoInfo, takeProfit: PendingWait, stopLoss: PendingWait)
    : (answer: Result<OcoInfo>)
    ensures BelongsTo(takeProfit, TakeProfitKey(oco)) && BelongsTo(stopLoss, StopLossKey(oco)) ==>
              && (answer.Ok? ==> takeProfit.error.None? && stopLoss.error.None?)
              && (takeProfit.error.None? && stopLoss.error.None? ==>
                    (answer.Ok?
                     <==> IsTerminalReport(Bybit, takeProfit.orderInfo) && IsTerminalReport(Bybit, stopLoss.orderInfo)))
              && (answer.Ok? ==> IsTerminalOco(Bybit, oco, answer.value))
  {
    if takeProfit.error.Some? then Err(takeProfit.error.value)
    else if stopLoss.error.Some? then Err(stopLoss.error.value) else
    if IsTerminalReport(Bybit, takeProfit.orderInfo) && IsTerminalReport(Bybit, stopLoss.orderInfo) then
      CreateTerminalOcoInfo(oco, takeProfit.orderInfo.value, stopLoss.orderInfo.value)
    else Err("stream stopped")
  }

  /** Going on after one child was found filled while cancelling. */
  method CompleteFilledCancellation(pending: PendingOrders, service: OcoService, oco: OcoInfo, filledOrder: OrderInfo)
    returns (answer: Result<OcoInfo>)
    requires pending.Valid() && service.Valid() && pending.exchanger == Bybit && HoldsBoth(pending, oco)
    requires IsStoredFill(pending, oco, filledOrder)
    modifies pending, service, service.registry, service.exchange
    ensures Released(pending) && service.Valid()
    ensures answer.Ok? ==> IsTerminalOco(Bybit, oco, answer.value)
    ensures answer.Ok? ==> filledOrder in {answer.value.takeProfitOrder, answer.value.stopLossOrder}
    ensures answer.Err? ==> SetBack(pending) || (Asked(pending) && SawTwoFills(pending))
  {
    var result, _, _, _ := CompleteOcoWait(pending, service, oco, filledOrder);
    if result.Err? {
      return Err(result.error);
    }
    TerminalChildrenFillSlots(Bybit, oco, result.value.filledOrder, result.value.siblingTerminalOrder);
    hide CreateTerminalOcoInfo, IsTerminalOco, IsTerminal;
    answer := CreateTerminalOcoInfo(oco, result.value.filledOrder, result.value.siblingTerminalOrder);
  }

  method CancelOcoAndWaitUntilTerminal(pending: PendingOrders, service: OcoService, oco: OcoInfo, stopRequested: bool)
    returns (answer: Result<OcoInfo>, ghost last: Option<Cells>)
    requires pending.Valid() && service.Valid() && pending.exchanger == Bybit
    modifies pending, service, service.registry, service.exchange
    ensures Released(pending) && service.Valid()
    ensures answer.Ok? ==> IsTerminalOco(Bybit, oco, answer.value)
    ensures answer.Err? ==>
              || HasNoIdentity(oco.takeProfitOrder) || HasNoIdentity(oco.stopLossOrder) || stopRequested
              || EndIsUnknown(pending, oco, 2, last)
              || (oco.orderListId == "" && oco.listClientOrderId == "")
    ensures SawOpen(pending) ==> SetBack(pending) || Asked(pending) || SawFill(pending)
  {
    last := None;
    if HasNoIdentity(oco.takeProfitOrder) || HasNoIdentity(oco.stopLossOrder) {
      return Err("missing order id"), last;
    }
    if oco.orderListId == "" && oco.listClientOrderId == "" {
      return Err("missing list id"), last;
    }
    if stopRequested {
      return Err("interrupted"), last;
    }
    answer, last := CancelRegisteringBoth(pending, service, oco);
  }

  method CancelRegisteringBoth(pending: PendingOrders, service: OcoService, oco: OcoInfo)
    returns (answer: Result<OcoInfo>, ghost last: Option<Cells>)
    requires pending.Valid() && service.Valid() && pending.exchanger == Bybit
    modifies pending, service, service.registry, service.exchange
    ensures Released(pending) && service.Valid()
    ensures answer.Ok? ==> IsTerminalOco(Bybit, oco, answer.value)
    ensures answer.Err? ==> EndIsUnknown(pending, oco, 2, last)
    ensures SawOpen(pending) ==> SetBack(pending) || Asked(pending) || SawFill(pending)
  {
    RegisterBoth(pending, oco);
    answer, last := CancelOcoRegistered(pending, service, oco);
    UnregisterBoth(pending, oco);
  }

  method CancelOcoRegistered(pending: PendingOrders, service: OcoService, oco: OcoInfo)
    returns (answer: Result<OcoInfo>, ghost last: Option<Cells>)
    requires pending.Valid() && service.Valid() && pending.exchanger == Bybit && HoldsBoth(pending, oco)
    modifies pending, service, service.registry, service.exchange
    ensures Released(pending) && service.Valid()
    ensures answer.Ok? ==> IsTerminalOco(Bybit, oco, answer.value)
    ensures answer.Err? ==> EndIsUnknown(pending, oco, 2, last)
    ensures SawOpen(pending) ==> SetBack(pending) || Asked(pending) || SawFill(pending)
  {
    last := None;
    var known := EndIfKnown(pending, service, oco);
    if known.Some? {
      return known.value, last;
    }
    var stopRequested := pending.StopRequested();
    if stopRequested {
      return Err("interrupted"), last;
    }
    answer, last := RequestCancellation(pending, service, oco);
  }

  /** What is known of the two children when the stream is up: their end, a fill to go on with, or an error. */
  method EndIfKnown(pending: PendingOrders, service: OcoService, oco: OcoInfo) returns (answer: Option<Result<OcoInfo>>)
    requires pending.Valid() && service.Valid() && pending.exchanger == Bybit && HoldsBoth(pending, oco)
    modifies pending, service, service.registry, service.exchange
    ensures Released(pending) && service.Valid()
    ensures answer.Some? && answer.value.Ok? ==> IsTerminalOco(Bybit, oco, answer.value.value)
    ensures answer.Some? && answer.value.Err? ==> SetBack(pending) || (Asked(pending) && SawTwoFills(pending))
    ensures answer.None? ==> LookedUpBoth(pending, oco, 1)
    ensures answer.Some? ==> SetBack(pending) || SawFill(pending) || !SawOpen(pending)
  {
    answer := EndWhenSubscribed(pending, oco);
    if answer.Some? {
      return;
    }
    var error := FirstError(pending, oco);
    if error.Some? {
      return Some(Err(error.value));
    }
    answer := EndIfFilled(pending, service, oco);
  }

  method FirstError(pending: PendingOrders, oco: OcoInfo) returns (error: Option<string>)
    requires pending.Valid() && HoldsBoth(pending, oco)
    modifies pending
    ensures Released(pending) && (error.Some? ==> SetBack(pending))
  {
    var takeProfit := GetOwn(pending, TakeProfitKey(oco));
    var stopLoss := GetOwn(pending, StopLossKey(oco));
    error := if takeProfit.error.Some? then takeProfit.error else stopLoss.error;
  }

  method EndIfFilled(pending: PendingOrders, service: OcoService, oco: OcoInfo)
    returns (answer: Option<Result<OcoInfo>>)
    requires pending.Valid() && service.Valid() && pending.exchanger == Bybit && HoldsBoth(pending, oco)
    modifies pending, service, service.registry, service.exchange
    ensures Released(pending) && service.Valid()
    ensures answer.Some? && answer.value.Ok? ==> IsTerminalOco(Bybit, oco, answer.value.value)
    ensures answer.Some? && answer.value.Err? ==> SetBack(pending) || (Asked(pending) && SawTwoFills(pending))
    ensures answer.Some? ==> SawFill(pending)
    ensures answer.None? ==> pending.Undisturbed() && NeitherIsFilled(pending, oco)
  {
    var filledOrder := GetFilledOcoOrder(pending, service, oco);
    if filledOrder.Err? {
      return Some(Err(filledOrder.error));
    }
    if filledOrder.value.None? {
      return None;
    }
    var completed := CompleteFilledCancellation(pending, service, oco, filledOrder.value.value);
    return Some(completed);
  }

  method RequestCancellation(pending: PendingOrders, service: OcoService, oco: OcoInfo)
    returns (answer: Result<OcoInfo>, ghost last: Option<Cells>)
    requires pending.Valid() && service.Valid() && pending.exchanger == Bybit && HoldsBoth(pending, oco)
    modifies pending, service, service.registry, service.exchange
    ensures Released(pending) && service.Valid()
    ensures answer.Ok? ==> IsTerminalOco(Bybit, oco, answer.value)
    ensures answer.Err? ==> EndIsUnknown(pending, oco, 1, last)
    ensures Asked(pending)
  {
    last := None;
    var failure := CancelOco(pending, service, oco);
    if failure.Some? {
      answer, last := AfterRefusedCancellation(pending, service, oco, failure.value);
    } else {
      answer := AfterAcceptedCancellation(pending, oco);
    }
  }

  /** The exchange refused; the orders may have ended all the same. */
  method AfterRefusedCancellation(pending: PendingOrders, service: OcoService, oco: OcoInfo, refusal: string)
    returns (answer: Result<OcoInfo>, ghost last: Option<Cells>)
    requires pending.Valid() && service.Valid() && pending.exchanger == Bybit && HoldsBoth(pending, oco)
    modifies pending, service, service.registry, service.exchange
    ensures Released(pending) && service.Valid()
    ensures answer.Ok? ==> IsTerminalOco(Bybit, oco, answer.value)
    ensures answer.Err? ==>
              || SetBack(pending) || (Asked(pending) && SawTwoFills(pending))
              || (LookedUpBoth(pending, oco, 1) && last.Some? && StaysOpen(Bybit, last.value))
  {
    last := None;
    var failure := ReconcileBoth(pending, oco);
    if failure.Some? {
      return Err(refusal), last;
    }
    var terminal, cells := GetTerminalOcoInfo(pending, oco);
    last := Some(cells);
    if terminal.value.Some? {
      return Ok(terminal.value.value), last;
    }
    var known := EndIfFilled(pending, service, oco);
    answer := if known.Some? then known.value else Err(refusal);
  }

  method AfterAcceptedCancellation(pending: PendingOrders, oco: OcoInfo) returns (answer: Result<OcoInfo>)
    requires pending.Valid() && pending.exchanger == Bybit && HoldsBoth(pending, oco)
    modifies pending
    ensures Released(pending)
    ensures answer.Ok? ==> IsTerminalOco(Bybit, oco, answer.value)
    ensures answer.Err? ==> SetBack(pending)
  {
    var completed, takeProfit, stopLoss := AwaitBoth(pending, oco);
    if !completed {
      return Err("interrupted");
    }
    answer := ProcessOcoCancellationUpdate(oco, takeProfit, stopLoss);
    if answer.Err? && takeProfit.error.None? && stopLoss.error.None? {
      answer := ReconcileCancelled(pending, oco);
    }
  }

  /** The stream was lost before both ends were reported: both orders are looked up. */
  method ReconcileCancelled(pending: PendingOrders, oco: OcoInfo) returns (answer: Result<OcoInfo>)
    requires pending.Valid() && pending.exchanger == Bybit && HoldsBoth(pending, oco)
    modifies pending
    ensures Released(pending)
    ensures answer.Ok? ==> IsTerminalOco(Bybit, oco, answer.value)
    ensures answer.Err? ==> SetBack(pending) || LookedUpBoth(pending, oco, 1)
  {
    var failure := ReconcileBoth(pending, oco);
    if failure.Some? {
      return Err(failure.value);
    }
    var takeProfit := GetOwn(pending, TakeProfitKey(oco));
    var stopLoss := GetOwn(pending, StopLossKey(oco));
    answer := ProcessOcoCancellationUpdate(oco, takeProfit, stopLoss);
  }
}
