/** The calls that the registry's operations make to the exchange, recorded with their answers as they are
    made: nothing but a call writes the record, so what an operation says about it is what happened. */
module BybitExchange {
  import opened Domain
  import opened OrderStatus
  import opened BybitOcoState

  datatype Call =
    | PlaceLeg(link: LinkId, orderId: Result<string>)
    | CancelLeg(leg: LegQuery, error: Option<string>)
    | LookUpLeg(leg: LegQuery, status: Result<string>)

  /** The calls are one attempt to end the leg, and `done` says whether it ended: its cancellation was
      accepted, or it was looked up after a refusal and found terminal. */
  predicate Answered(leg: LegQuery, done: bool, made: seq<Call>) {
    || (made == [CancelLeg(leg, None)] && done)
    || (|made| == 2 && made[0].CancelLeg? && made[0].leg == leg && made[0].error.Some?
        && made[1].LookUpLeg? && made[1].leg == leg
        && (done <==> made[1].status.Ok? && IsTerminal(Bybit, made[1].status.value)))
  }

  lemma AnsweredOnce(leg: LegQuery, made: seq<Call>)
    ensures !(Answered(leg, true, made) && Answered(leg, false, made))
  {
  }

  class Exchange {
    ghost var calls: seq<Call>

    constructor ()
      ensures calls == []
    {
      calls := [];
    }

    method PlaceOrder(link: LinkId) returns (orderId: Result<string>)
      modifies this
      ensures calls == old(calls) + [PlaceLeg(link, orderId)]
    {
      orderId := *;
      calls := calls + [PlaceLeg(link, orderId)];
    }

    method CancelOrder(leg: LegQuery) returns (error: Option<string>)
      modifies this
      ensures calls == old(calls) + [CancelLeg(leg, error)]
    {
      error := *;
      calls := calls + [CancelLeg(leg, error)];
    }

    method GetOrder(leg: LegQuery) returns (status: Result<string>)
      modifies this
      ensures calls == old(calls) + [LookUpLeg(leg, status)]
    {
      status := *;
      calls := calls + [LookUpLeg(leg, status)];
    }

    /** Cancels a leg; a refusal counts as done when the leg turns out to be terminal. */
    method EndLeg(leg: LegQuery) returns (error: Option<string>)
      modifies this
      ensures old(calls) <= calls && Answered(leg, error.None?, calls[|old(calls)|..])
    {
      error := CancelOrder(leg);
      if error.None? {
        return;
      }
      var status := GetOrder(leg);
      if status.Ok? && IsTerminal(Bybit, status.value) {
        return None;
      }
    }
  }
}
