/** Values shared by every component: optional values, fallible results and the order records
    that both exchange services exchange with the rest of the program. */
module Domain {

  datatype Option<+T> = None | Some(value: T)

  /** A call that either returns a value or leaves by a standard exception carrying a message. */
  datatype Result<+T> = Ok(value: T) | Err(error: string)

  datatype Exchanger = Binance | Bybit

  datatype Side = BuySide | SellSide

  /** The part of an order record the modelled code reads. */
  datatype OrderInfo = OrderInfo(
    symbol: string,
    orderId: string,
    clientOrderId: string,
    status: string,
    statusReason: string,
    origQty: real,
    executedQty: real,
    cumQuoteQty: real)

  datatype OcoInfo = OcoInfo(
    orderListId: string,
    listClientOrderId: string,
    takeProfitOrder: OrderInfo,
    stopLossOrder: OrderInfo)

  datatype OcoWaitResult = OcoWaitResult(filledOrder: OrderInfo, siblingTerminalOrder: OrderInfo)
}

/** Classification of exchange status texts; every verdict in the program rests on it. */
module OrderStatus {
  import opened Domain

  datatype StatusState = Unavailable | Active | Filled | Cancelled | OtherTerminal

  const BINANCE_CANCELLED := {"CANCELED"}
  const BINANCE_OTHER_TERMINAL := {"REJECTED", "EXPIRED", "EXPIRED_IN_MATCH"}
  const BYBIT_CANCELLED := {"Cancelled", "PartiallyFilledCanceled"}
  const BYBIT_OTHER_TERMINAL := {"Rejected", "Deactivated"}

  function Classify(exchanger: Exchanger, status: string): StatusState {
    if status == "" then Unavailable
    else match exchanger {
      case Binance =>
        if status == "FILLED" then Filled
        else if status in BINANCE_CANCELLED then Cancelled
        else if status in BINANCE_OTHER_TERMINAL then OtherTerminal
        else Active
      case Bybit =>
        if status == "Filled" then Filled
        else if status in BYBIT_CANCELLED then Cancelled
        else if status in BYBIT_OTHER_TERMINAL then OtherTerminal
        else Active
    }
  }

  predicate IsFilled(exchanger: Exchanger, status: string) {
    Classify(exchanger, status) == Filled
  }

  predicate IsTerminal(exchanger: Exchanger, status: string) {
    Classify(exchanger, status) in {Filled, Cancelled, OtherTerminal}
  }

  /** Which status texts mean what: a fill, a cancellation or another end by these names only, on each
      exchange by its own; a missing text tells nothing, and any other name means that the order lives. */
  lemma StatusNames(status: string)
    ensures IsFilled(Binance, status) <==> status == "FILLED"
    ensures IsFilled(Bybit, status) <==> status == "Filled"
    ensures Classify(Binance, status) == Cancelled <==> status == "CANCELED"
    ensures Classify(Bybit, status) == Cancelled <==> status in {"Cancelled", "PartiallyFilledCanceled"}
    ensures IsTerminal(Binance, status)
            <==> status in {"FILLED", "CANCELED", "REJECTED", "EXPIRED", "EXPIRED_IN_MATCH"}
    ensures IsTerminal(Bybit, status)
            <==> status in {"Filled", "Cancelled", "PartiallyFilledCanceled", "Rejected", "Deactivated"}
    ensures forall exchanger :: Classify(exchanger, status) == Unavailable <==> status == ""
    ensures forall exchanger ::
              (Classify(exchanger, status) == Active <==> status != "" && !IsTerminal(exchanger, status))
  {
  }

  /** How far an order has come: nothing known, known active, ended without a full fill, filled. */
  function Rank(exchanger: Exchanger, report: Option<OrderInfo>): nat {
    if report.None? then 0
    else if IsFilled(exchanger, report.value.status) then 3
    else if IsTerminal(exchanger, report.value.status) then 2
    else 1
  }
}
