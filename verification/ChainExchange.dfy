/** The calls that a run makes to the exchange and to the system, recorded with their answers as they are made:
    nothing but a call writes the record, so what the run says about it is what happened, and no call is made
    before the answer of the last one was heard. The answers are arbitrary within the exchange's contract. */
module ChainExchange {
  import opened Domain
  import opened CoordinatorState
  import opened ChainState
  import opened CancellationProtocol

  datatype PlaceAnswer = Placed(action: Action) | PlaceThrew(error: string) | PlaceThrewNonStandard

  datatype WaitAnswer =
    WaitFilled(order: OrderInfo) | WaitInterrupted(error: string) | WaitThrew(error: string) | WaitThrewNonStandard

  datatype Call =
    | OrderAsked(request: OrderRequest, placed: PlaceAnswer)
    | FillAwaited(action: Action, waited: WaitAnswer)
    | CancelAsked(action: Action, answer: Choice)
    | ThreadAsked(error: Option<string>)

  predicate LastCall(calls: seq<Call>, call: Call) {
    calls != [] && calls[|calls| - 1] == call
  }

  method AnyChoice() returns (choice: Choice) {
    choice := *;
  }

  class Exchange {
    ghost var calls: seq<Call>
    ghost var heard: bool

    constructor ()
      ensures calls == [] && heard
    {
      calls, heard := [], true;
    }

    /** The last answer was taken into account. */
    ghost method Hear()
      modifies this`heard
      ensures heard
    {
      heard := true;
    }

    method PlaceOrder(operation: Operation, context: Context) returns (answer: PlaceAnswer)
      requires !operation.SendTo? && heard
      modifies this
      ensures !heard && calls == old(calls) + [OrderAsked(RequestOf(operation, context), answer)]
      ensures answer.Placed? ==> PlacementContract(operation, answer.action)
      ensures answer.Placed? ==> answer.action.exchanger == context.exchanger
    {
      var choice := AnyChoice();
      match choice {
        case Accepts(action) =>
          if PlacementContract(operation, action) && action.exchanger == context.exchanger {
            answer := Placed(action);
          } else {
            answer := PlaceThrew("refused");
          }
        case Throws(error) => answer := PlaceThrew(error);
        case _ => answer := PlaceThrewNonStandard;
      }
      calls, heard := calls + [OrderAsked(RequestOf(operation, context), answer)], false;
    }

    method WaitUntilFilled(action: Action, stopRequested: bool) returns (answer: WaitAnswer)
      requires heard
      modifies this
      ensures !heard && calls == old(calls) + [FillAwaited(action, answer)]
      ensures answer.WaitFilled? ==> WaitContract(action, answer.order)
      ensures answer.WaitInterrupted? ==> stopRequested
    {
      var choice := AnyChoice();
      match choice {
        case Fills(order) =>
          answer := if WaitContract(action, order) then WaitFilled(order) else WaitThrew("ended without a fill");
        case Interrupts(error) =>
          answer := if stopRequested then WaitInterrupted(error) else WaitThrew(error);
        case Throws(error) => answer := WaitThrew(error);
        case _ => answer := WaitThrewNonStandard;
      }
      calls, heard := calls + [FillAwaited(action, answer)], false;
    }

    /** Cancels the order and waits for its end; any exception comes back as its text. */
    method CancelAndWait(action: Action) returns (answer: Choice)
      requires heard
      modifies this
      ensures !heard && calls == old(calls) + [CancelAsked(action, answer)]
      ensures answer.Throws? || (if action.OcoOrder? then answer.ReportsOco? else answer.ReportsOrder?)
    {
      answer := AnyChoice();
      if !answer.Throws? && !(if action.OcoOrder? then answer.ReportsOco? else answer.ReportsOrder?) {
        answer := Throws("failed");
      }
      calls, heard := calls + [CancelAsked(action, answer)], false;
    }

    /** Starting the cancelling thread either works or throws. */
    method StartThread() returns (error: Option<string>)
      requires heard
      modifies this
      ensures !heard && calls == old(calls) + [ThreadAsked(error)]
    {
      error := *;
      calls, heard := calls + [ThreadAsked(error)], false;
    }
  }
}
