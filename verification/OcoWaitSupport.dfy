/** What both services compute about the two children of an OCO order. */
module OcoChildren {
  import opened Domain
  import opened OrderStatus
  import opened PendingOrderState

  predicate HasNoIdentity(order: OrderInfo) {
    order.symbol == "" || order.orderId == ""
  }

  function TakeProfitKey(oco: OcoInfo): OrderKey {
    KeyOf(oco.takeProfitOrder)
  }

  function StopLossKey(oco: OcoInfo): OrderKey {
    KeyOf(oco.stopLossOrder)
  }

  /** The child to wait for after the other one was filled, found by the order id alone. */
  function SiblingKey(oco: OcoInfo, filledOrder: OrderInfo): OrderKey {
    if filledOrder.orderId == oco.takeProfitOrder.orderId then StopLossKey(oco) else TakeProfitKey(oco)
  }

  function CreateTerminalOcoInfo(oco: OcoInfo, firstOrder: OrderInfo, secondOrder: OrderInfo): Result<OcoInfo> {
    if firstOrder.orderId != oco.takeProfitOrder.orderId && secondOrder.orderId != oco.takeProfitOrder.orderId then
      Err("OCO terminal result is missing the take-profit order")
    else if firstOrder.orderId != oco.stopLossOrder.orderId && secondOrder.orderId != oco.stopLossOrder.orderId then
      Err("OCO terminal result is missing the stop-loss order")
    else Ok(oco.(takeProfitOrder := if firstOrder.orderId == oco.takeProfitOrder.orderId then firstOrder
                                    else secondOrder,
                 stopLossOrder := if firstOrder.orderId == oco.stopLossOrder.orderId then firstOrder else secondOrder))
  }

  /** The two children can be told apart by their ids, or are the same order. */
  predicate ChildrenAreDistinguishable(oco: OcoInfo) {
    oco.takeProfitOrder.orderId != oco.stopLossOrder.orderId || oco.takeProfitOrder.symbol == oco.stopLossOrder.symbol
  }

  /** Two records that belong to the two children, in either order. */
  predicate AreChildren(oco: OcoInfo, firstOrder: OrderInfo, secondOrder: OrderInfo) {
    || (KeyOf(firstOrder) == TakeProfitKey(oco) && KeyOf(secondOrder) == StopLossKey(oco))
    || (KeyOf(firstOrder) == StopLossKey(oco) && KeyOf(secondOrder) == TakeProfitKey(oco))
  }

  predicate SlotsAreRight(oco: OcoInfo, answer: Result<OcoInfo>) {
    answer.Ok? && KeyOf(answer.value.takeProfitOrder) == TakeProfitKey(oco)
    && KeyOf(answer.value.stopLossOrder) == StopLossKey(oco)
  }

  /** Each child's record lands in its own slot, whichever comes first, exactly when the children are
      distinguishable: two children of different symbols that share an order id confuse the slots. */
  lemma SlotsAreExact(oco: OcoInfo)
    ensures ChildrenAreDistinguishable(oco)
            <==> forall firstOrder, secondOrder :: AreChildren(oco, firstOrder, secondOrder)
                   ==> SlotsAreRight(oco, CreateTerminalOcoInfo(oco, firstOrder, secondOrder))
  {
    if !ChildrenAreDistinguishable(oco) {
      var tp, sl := oco.takeProfitOrder, oco.stopLossOrder;
      assert AreChildren(oco, tp, sl);
      assert !SlotsAreRight(oco, CreateTerminalOcoInfo(oco, tp, sl));
    }
  }

  /** So two children that differ in their symbols only are confused: both slots get the take-profit
      child's record. */
  lemma SlotsCanBeConfused(oco: OcoInfo)
    requires oco.takeProfitOrder.symbol == "A" && oco.stopLossOrder.symbol == "B"
    requires oco.takeProfitOrder.orderId == "1" == oco.stopLossOrder.orderId
    ensures AreChildren(oco, oco.takeProfitOrder, oco.stopLossOrder)
    ensures var answer := CreateTerminalOcoInfo(oco, oco.takeProfitOrder, oco.stopLossOrder);
      && !SlotsAreRight(oco, answer)
      && answer.Ok? && answer.value.takeProfitOrder == oco.takeProfitOrder == answer.value.stopLossOrder
  {
  }

  /** The records of the two children of a filled order are a fill and the other child's end without one. */
  predicate IsOcoResult(exchanger: Exchanger, oco: OcoInfo, answer: OcoWaitResult) {
    && IsFilled(exchanger, answer.filledOrder.status)
    && IsTerminal(exchanger, answer.siblingTerminalOrder.status)
    && !IsFilled(exchanger, answer.siblingTerminalOrder.status)
    && AreChildren(oco, answer.filledOrder, answer.siblingTerminalOrder)
    && KeyOf(answer.filledOrder) != KeyOf(answer.siblingTerminalOrder)
  }

  /** Both slots are terminal and hold the records of their own orders. The stop-loss slot is exempt for
      indistinguishable children. */
  predicate IsTerminalOco(exchanger: Exchanger, oco: OcoInfo, answer: OcoInfo) {
    && answer == oco.(takeProfitOrder := answer.takeProfitOrder, stopLossOrder := answer.stopLossOrder)
    && IsTerminal(exchanger, answer.takeProfitOrder.status) && IsTerminal(exchanger, answer.stopLossOrder.status)
    && KeyOf(answer.takeProfitOrder) == TakeProfitKey(oco)
    && (ChildrenAreDistinguishable(oco) ==> KeyOf(answer.stopLossOrder) == StopLossKey(oco))
  }

  /** Two terminal records of the two children, the take-profit child's first or the fill's first. */
  lemma TerminalChildrenFillSlots(exchanger: Exchanger, oco: OcoInfo, firstOrder: OrderInfo, secondOrder: OrderInfo)
    requires IsTerminal(exchanger, firstOrder.status) && IsTerminal(exchanger, secondOrder.status)
    requires || (KeyOf(firstOrder) == TakeProfitKey(oco) && KeyOf(secondOrder) == StopLossKey(oco))
             || (KeyOf(firstOrder) == StopLossKey(oco) && KeyOf(secondOrder) == TakeProfitKey(oco)
                 && firstOrder.orderId != oco.takeProfitOrder.orderId)
    ensures var answer := CreateTerminalOcoInfo(oco, firstOrder, secondOrder);
      && answer.Ok? && IsTerminalOco(exchanger, oco, answer.value)
      && {answer.value.takeProfitOrder, answer.value.stopLossOrder} <= {firstOrder, secondOrder}
      && firstOrder in {answer.value.takeProfitOrder, answer.value.stopLossOrder}
  {
  }

  predicate BelongsTo(wait: PendingWait, key: OrderKey) {
    wait.orderInfo.Some? ==> KeyOf(wait.orderInfo.value) == key
  }

  /** What is built from two terminal cells of the children is the end of the whole OCO order. */
  lemma BothCellsFillSlots(exchanger: Exchanger, oco: OcoInfo, takeProfit: PendingWait, stopLoss: PendingWait)
    requires BelongsTo(takeProfit, TakeProfitKey(oco)) && BelongsTo(stopLoss, StopLossKey(oco))
    requires IsTerminalReport(exchanger, takeProfit.orderInfo) && IsTerminalReport(exchanger, stopLoss.orderInfo)
    ensures var answer := CreateTerminalOcoInfo(oco, takeProfit.orderInfo.value, stopLoss.orderInfo.value);
      answer.Ok? && IsTerminalOco(exchanger, oco, answer.value)
  {
    TerminalChildrenFillSlots(exchanger, oco, takeProfit.orderInfo.value, stopLoss.orderInfo.value);
  }
}

/** The contracts and steps that the waits of both services share. */
module WaitContracts {
  import opened Domain
  import opened OrderStatus
  import opened PendingOrderState
  import opened PendingOrdersObject
  import opened OcoChildren

  /** What every wait leaves behind: the table is sound and this call's registrations are gone again. */
  twostate predicate Released(pending: PendingOrders)
    reads pending
  {
    && pending.Valid() && pending.held == old(pending.held) && old(pending.reported) <= pending.reported
    && old(pending.errors) <= pending.errors && pending.NotesGrew()
  }

  twostate predicate SetBack(pending: PendingOrders)
    reads pending
  {
    pending.SetBack()
  }

  twostate predicate Refused(pending: PendingOrders)
    reads pending
  {
    old(pending.notes).refused < pending.notes.refused
  }

  /** The call asked the exchange to cancel, and was answered. */
  twostate predicate Asked(pending: PendingOrders)
    reads pending
  {
    Refused(pending) || old(pending.notes).accepted < pending.notes.accepted
  }

  /** Each child was looked up this often. */
  twostate predicate LookedUpBoth(pending: PendingOrders, oco: OcoInfo, count: nat)
    reads pending
  {
    pending.LookedUp(TakeProfitKey(oco), count) && pending.LookedUp(StopLossKey(oco), count)
  }

  /** An order had not ended when it was looked at. */
  twostate predicate SawOpen(pending: PendingOrders)
    reads pending
  {
    pending.SawOpen()
  }

  twostate predicate SawEnd(pending: PendingOrders)
    reads pending
  {
    old(pending.notes).ends < pending.notes.ends
  }

  twostate predicate SawFill(pending: PendingOrders)
    reads pending
  {
    old(pending.notes).fills < pending.notes.fills
  }

  /** Both children were read as filled, or the sibling of one that was known to be. */
  twostate predicate SawTwoFills(pending: PendingOrders)
    reads pending
  {
    old(pending.notes).fills + 2 <= pending.notes.fills
  }

  predicate EndedUnfilled(exchanger: Exchanger, wait: PendingWait) {
    IsTerminalReport(exchanger, wait.orderInfo) && !IsFilledReport(exchanger, wait.orderInfo)
  }

  predicate StaysOpen(exchanger: Exchanger, cells: Cells) {
    && !AreTerminal(exchanger, cells)
    && !IsFilledReport(exchanger, cells.first.orderInfo) && !IsFilledReport(exchanger, cells.second.orderInfo)
  }

  /** Why a cancelled OCO order's end is not known: a setback; two fills, after which what is left was asked to be
      cancelled; or the exchange refused, and the orders, looked up once more, were not both found terminal and
      neither was found filled. */
  twostate predicate EndIsUnknown(pending: PendingOrders, oco: OcoInfo, lookups: nat, new last: Option<Cells>)
    reads pending
  {
    || SetBack(pending)
    || (Asked(pending) && SawTwoFills(pending))
    || (Refused(pending) && LookedUpBoth(pending, oco, lookups)
        && last.Some? && StaysOpen(pending.exchanger, last.value))
  }

  /** The fill that a wait goes on with is one of the two children's and sits in its cell. */
  ghost predicate IsStoredFill(pending: PendingOrders, oco: OcoInfo, filledOrder: OrderInfo)
    reads pending
  {
    && KeyOf(filledOrder) in {TakeProfitKey(oco), StopLossKey(oco)}
    && IsFilled(pending.exchanger, filledOrder.status)
    && KeyOf(filledOrder) in pending.waits && pending.waits[KeyOf(filledOrder)].orderInfo == Some(filledOrder)
    && filledOrder in pending.reported
  }

  /** What was read as the order's cell is its cell. */
  ghost predicate IsCell(pending: PendingOrders, key: OrderKey, wait: PendingWait)
    reads pending
  {
    key in pending.waits && pending.waits[key] == wait && IsOwnCell(wait, key, pending.reported)
  }

  ghost predicate AreCells(pending: PendingOrders, oco: OcoInfo, cells: Cells)
    reads pending
  {
    IsCell(pending, TakeProfitKey(oco), cells.first) && IsCell(pending, StopLossKey(oco), cells.second)
  }

  ghost predicate HoldsBoth(pending: PendingOrders, oco: OcoInfo)
    reads pending
  {
    TakeProfitKey(oco) in pending.held && StopLossKey(oco) in pending.held
  }

  ghost predicate BothReported(pending: PendingOrders, answer: OcoWaitResult)
    reads pending
  {
    answer.filledOrder in pending.reported && answer.siblingTerminalOrder in pending.reported
  }

  function BothKeys(oco: OcoInfo): multiset<OrderKey> {
    multiset{TakeProfitKey(oco), StopLossKey(oco)}
  }

  lemma KeysTakenBack(held: multiset<OrderKey>, oco: OcoInfo)
    ensures var n := held + multiset{TakeProfitKey(oco)} + multiset{StopLossKey(oco)};
      TakeProfitKey(oco) in n && StopLossKey(oco) in n && BothKeys(oco) <= n && n - BothKeys(oco) == held
  {
  }

  lemma KeysTakenOneByOne(held: multiset<OrderKey>, oco: OcoInfo)
    requires BothKeys(oco) <= held
    ensures StopLossKey(oco) in held && TakeProfitKey(oco) in held - multiset{StopLossKey(oco)}
    ensures held - multiset{StopLossKey(oco)} - multiset{TakeProfitKey(oco)} == held - BothKeys(oco)
  {
    assert BothKeys(oco)[StopLossKey(oco)] >= 1 && BothKeys(oco)[TakeProfitKey(oco)] >= 1;
    if TakeProfitKey(oco) == StopLossKey(oco) {
      assert BothKeys(oco)[StopLossKey(oco)] == 2;
    }
  }

  /** The two registrations of an OCO wait; taking them back leaves what was held before. */
  method RegisterBoth(pending: PendingOrders, oco: OcoInfo)
    requires pending.Valid()
    modifies pending
    ensures pending.Valid() && HoldsBoth(pending, oco)
    ensures BothKeys(oco) <= pending.held && pending.held - BothKeys(oco) == old(pending.held)
    ensures pending.reported == old(pending.reported)
    ensures pending.notes == old(pending.notes) && pending.errors == old(pending.errors)
  {
    KeysTakenBack(pending.held, oco);
    pending.Register(TakeProfitKey(oco));
    pending.Register(StopLossKey(oco));
  }

  method UnregisterBoth(pending: PendingOrders, oco: OcoInfo)
    requires pending.Valid() && BothKeys(oco) <= pending.held
    modifies pending
    ensures pending.Valid()
    ensures pending.held == old(pending.held) - BothKeys(oco) && pending.reported == old(pending.reported)
    ensures pending.notes == old(pending.notes) && pending.errors == old(pending.errors)
  {
    KeysTakenOneByOne(pending.held, oco);
    pending.Unregister(StopLossKey(oco));
    pending.Unregister(TakeProfitKey(oco));
  }

  ghost predicate IsCellFilled(pending: PendingOrders, key: OrderKey)
    reads pending
  {
    key in pending.waits && IsFilledReport(pending.exchanger, pending.waits[key].orderInfo)
  }

  ghost predicate NeitherIsFilled(pending: PendingOrders, oco: OcoInfo)
    reads pending
  {
    !IsCellFilled(pending, TakeProfitKey(oco)) && !IsCellFilled(pending, StopLossKey(oco))
  }

  twostate predicate FillsAreNoted(pending: PendingOrders, new answer: Result<Option<OrderInfo>>)
    reads pending
  {
    && (answer == Ok(None) <==> !SawFill(pending))
    && (answer.Err? <==> SawTwoFills(pending))
  }

  /** The one child that is filled, or None when neither is; two fills are an error. */
  ghost predicate IsFilledChild(pending: PendingOrders, oco: OcoInfo, answer: Result<Option<OrderInfo>>)
    reads pending
  {
    && (answer.Err? <==> IsCellFilled(pending, TakeProfitKey(oco)) && IsCellFilled(pending, StopLossKey(oco)))
    && (answer == Ok(None) <==> NeitherIsFilled(pending, oco))
    && (answer.Ok? && answer.value.Some? ==> IsStoredFill(pending, oco, answer.value.value))
  }

  /** Both cells, read at one moment. */
  method FindFilledOcoOrder(pending: PendingOrders, oco: OcoInfo) returns (answer: Result<Option<OrderInfo>>)
    requires pending.Valid() && HoldsBoth(pending, oco)
    modifies pending
    ensures pending.Valid() && pending.Undisturbed() && pending.NotesGrew()
    ensures IsFilledChild(pending, oco, answer) && FillsAreNoted(pending, answer)
  {
    var takeProfit, stopLoss := pending.GetBoth(TakeProfitKey(oco), StopLossKey(oco));
    var takeProfitFilled := IsFilledReport(pending.exchanger, takeProfit.orderInfo);
    var stopLossFilled := IsFilledReport(pending.exchanger, stopLoss.orderInfo);
    if takeProfitFilled && stopLossFilled {
      return Err("both filled");
    }
    if takeProfitFilled {
        return Ok(takeProfit.orderInfo);
    }
    if stopLossFilled {
        return Ok(stopLoss.orderInfo);
    }
    return Ok(None);
  }

  /** Both children's ends, read at one moment; None unless both are terminal. */
  method GetTerminalOcoInfo(pending: PendingOrders, oco: OcoInfo)
    returns (answer: Result<Option<OcoInfo>>, ghost cells: Cells)
    requires pending.Valid() && HoldsBoth(pending, oco)
    modifies pending
    ensures Released(pending) && pending.Undisturbed() && AreCells(pending, oco, cells)
    ensures answer.Ok? && (answer.value.Some? ==> IsTerminalOco(pending.exchanger, oco, answer.value.value))
    ensures answer.Ok? ==> (answer.value.Some? <==> AreTerminal(pending.exchanger, cells))
    ensures SawOpen(pending) <==> !AreTerminal(pending.exchanger, cells)
  {
    var takeProfit, stopLoss := GetOwnBoth(pending, oco);
    cells := Cells(takeProfit, stopLoss);
    if !IsTerminalReport(pending.exchanger, takeProfit.orderInfo)
       || !IsTerminalReport(pending.exchanger, stopLoss.orderInfo) {
      return Ok(None), cells;
    }
    BothCellsFillSlots(pending.exchanger, oco, takeProfit, stopLoss);
    hide CreateTerminalOcoInfo, IsTerminalOco;
    var terminal := CreateTerminalOcoInfo(oco, takeProfit.orderInfo.value, stopLoss.orderInfo.value);
    return Ok(Some(terminal.value)), cells;
  }

  /** One order's cell, read on its own. */
  method GetOwn(pending: PendingOrders, key: OrderKey) returns (wait: PendingWait)
    requires pending.Valid() && key in pending.held
    modifies pending
    ensures Released(pending)
    ensures IsOwnCell(wait, key, pending.reported) && (wait.error.Some? ==> SetBack(pending))
    ensures SawOpen(pending) <==> !IsTerminalReport(pending.exchanger, wait.orderInfo)
  {
    wait := pending.Get(key);
  }

  /** One order's cell once its end is reported, or an error or the stream's loss ended the wait. */
  method AwaitOwn(pending: PendingOrders, key: OrderKey)
    returns (completed: bool, wait: PendingWait)
    requires pending.Valid() && key in pending.held
    modifies pending
    ensures Released(pending) && IsOwnCell(wait, key, pending.reported)
    ensures completed && !IsTerminalReport(pending.exchanger, wait.orderInfo) ==> SetBack(pending)
    ensures !completed || wait.error.Some? ==> SetBack(pending)
  {
    var connected: bool, same: PendingWait;
    completed, connected, wait, same := pending.Await(key, key, false);
  }

  /** The same for the child to wait for after the other one was filled. */
  method AwaitSiblingOf(pending: PendingOrders, oco: OcoInfo, filledOrder: OrderInfo)
    returns (completed: bool, wait: PendingWait)
    requires pending.Valid() && HoldsBoth(pending, oco) && IsStoredFill(pending, oco, filledOrder)
    modifies pending
    ensures Released(pending) && IsOwnCell(wait, SiblingKey(oco, filledOrder), pending.reported)
    ensures SiblingKey(oco, filledOrder) == KeyOf(filledOrder) ==> IsFilledReport(pending.exchanger, wait.orderInfo)
    ensures IsFilledReport(pending.exchanger, wait.orderInfo) ==> SawTwoFills(pending)
    ensures completed && !IsTerminalReport(pending.exchanger, wait.orderInfo) ==> SetBack(pending)
    ensures !completed || wait.error.Some? ==> SetBack(pending)
  {
    var connected: bool, same: PendingWait;
    var key := SiblingKey(oco, filledOrder);
    completed, connected, wait, same := pending.Await(key, key, false);
  }

  /** Both children's cells, read at one moment. */
  method GetOwnBoth(pending: PendingOrders, oco: OcoInfo) returns (takeProfit: PendingWait, stopLoss: PendingWait)
    requires pending.Valid() && HoldsBoth(pending, oco)
    modifies pending
    ensures Released(pending) && pending.Undisturbed()
    ensures AreCells(pending, oco, Cells(takeProfit, stopLoss))
    ensures BelongsTo(takeProfit, TakeProfitKey(oco)) && BelongsTo(stopLoss, StopLossKey(oco))
    ensures SawOpen(pending) <==> !AreTerminal(pending.exchanger, Cells(takeProfit, stopLoss))
  {
    takeProfit, stopLoss := pending.GetBoth(TakeProfitKey(oco), StopLossKey(oco));
  }

  /** Both children's cells once both ends are reported, or an error or the stream's loss ended the wait. */
  method AwaitBoth(pending: PendingOrders, oco: OcoInfo)
    returns (completed: bool, takeProfit: PendingWait, stopLoss: PendingWait)
    requires pending.Valid() && HoldsBoth(pending, oco)
    modifies pending
    ensures Released(pending)
    ensures BelongsTo(takeProfit, TakeProfitKey(oco)) && BelongsTo(stopLoss, StopLossKey(oco))
    ensures completed ==> pending.IsAwaited(takeProfit, stopLoss, true) || SetBack(pending)
    ensures !completed || takeProfit.error.Some? || stopLoss.error.Some? ==> SetBack(pending)
  {
    var connected;
    completed, connected, takeProfit, stopLoss := pending.Await(TakeProfitKey(oco), StopLossKey(oco), true);
  }

  /** Looks up both children, one after the other. */
  method ReconcileBoth(pending: PendingOrders, oco: OcoInfo) returns (failure: Option<string>)
    requires pending.Valid()
    modifies pending
    ensures Released(pending)
    ensures if failure.Some? then SetBack(pending) else LookedUpBoth(pending, oco, 1)
  {
    failure := pending.ReconcileOrder(TakeProfitKey(oco));
    if failure.None? {
      failure := pending.ReconcileOrder(StopLossKey(oco));
    }
  }

  /** What is known when the stream is up: that it could not be brought up, or both ends; None unless the wait
      is over. */
  method EndWhenSubscribed(pending: PendingOrders, oco: OcoInfo) returns (answer: Option<Result<OcoInfo>>)
    requires pending.Valid() && HoldsBoth(pending, oco)
    modifies pending
    ensures Released(pending)
    ensures answer.Some? && answer.value.Ok? ==> IsTerminalOco(pending.exchanger, oco, answer.value.value)
    ensures answer.Some? && answer.value.Err? ==> SetBack(pending)
    ensures answer.Some? ==> !SawOpen(pending)
    ensures answer.None? ==> LookedUpBoth(pending, oco, 1)
  {
    var failure := pending.PrepareOcoSubscription(TakeProfitKey(oco), StopLossKey(oco));
    if failure.Some? {
      return Some(Err(failure.value));
    }
    var terminal, _ := GetTerminalOcoInfo(pending, oco);
    answer := if terminal.value.Some? then Some(Ok(terminal.value.value)) else None;
  }

  /** An error in either cell ends a wait of the Bybit service, and none of the Binance service. */
  lemma OnlyBybitHeedsErrors(pending: PendingOrders, first: PendingWait, second: PendingWait, both: bool)
    ensures pending.exchanger == Bybit && (first.error.Some? || second.error.Some?) ==>
              pending.IsAwaited(first, second, both)
    ensures pending.exchanger == Binance ==>
              (pending.IsAwaited(first, second, both)
               <==> AreTerminal(Binance, Cells(first, second))
                    || (!both && (IsTerminalReport(Binance, first.orderInfo)
                                  || IsTerminalReport(Binance, second.orderInfo))))
  {
  }
}
