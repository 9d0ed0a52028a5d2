/** The contracts under which the cancellation protocol runs are what the exchange services' waits deliver. */
module ServiceContracts {
  import opened Domain
  import opened OrderStatus
  import opened CoordinatorState
  import opened CancellationProtocol
  import opened PendingOrderState
  import opened OcoChildren

  /** A fill returned for an order's own key, and the fill of an OCO wait, are fills the protocol accepts. */
  lemma WaitsMeetContract(exchanger: Exchanger, order: OrderInfo, filled: OrderInfo, oco: OcoInfo,
                          answer: OcoWaitResult)
    ensures KeyOf(filled) == OrderKey(order.symbol, order.orderId) && IsFilled(exchanger, filled.status) ==>
              WaitContract(OrdinaryOrder(exchanger, order), filled)
    ensures IsOcoResult(exchanger, oco, answer) ==> WaitContract(OcoOrder(exchanger, oco), answer.filledOrder)
  {
  }

  /** What the cancelling thread concludes from the end of a single order: a fill is a natural completion, a
      cancelled order a confirmed cancellation, anything else a failure; so is a call that threw, with its own
      text. */
  lemma OrderVerdictIsHonest(exchanger: Exchanger, order: OrderInfo, terminal: OrderInfo, error: string)
    ensures var report := ReportOf(OrdinaryOrder(exchanger, order), ReportsOrder(terminal));
      && (report == FoundFilled <==> IsFilled(exchanger, terminal.status))
      && (report == FoundCancelled <==> Classify(exchanger, terminal.status) == Cancelled)
      && (report.Failure? <==> Classify(exchanger, terminal.status) !in {Filled, Cancelled})
    ensures ReportOf(OrdinaryOrder(exchanger, order), Throws(error)) == Failure(error)
  {
  }

  /** What the cancelling thread concludes from the end of a whole OCO order is decided by both children:
      a confirmed cancellation needs both cancelled, and one fill is enough for a natural completion. */
  lemma OcoVerdictIsHonest(exchanger: Exchanger, oco: OcoInfo, terminal: OcoInfo)
    requires IsTerminalOco(exchanger, oco, terminal)
    ensures ReportOf(OcoOrder(exchanger, oco), ReportsOco(terminal)) == ReportOnOco(exchanger, terminal)
    ensures var takeProfit := Classify(exchanger, terminal.takeProfitOrder.status);
            var stopLoss := Classify(exchanger, terminal.stopLossOrder.status);
      && (ReportOnOco(exchanger, terminal) == FoundCancelled <==> takeProfit == Cancelled && stopLoss == Cancelled)
      && (ReportOnOco(exchanger, terminal) == FoundFilled <==> takeProfit == Filled || stopLoss == Filled)
      && (ReportOnOco(exchanger, terminal).Failure? <==>
            takeProfit != Filled && stopLoss != Filled && OtherTerminal in {takeProfit, stopLoss})
  {
  }
}
