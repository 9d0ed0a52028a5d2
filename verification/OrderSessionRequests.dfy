/** What the session asks the exchange about an entry, what it does with the answers, and when a user can
    ask for what. */
module OrderSessionRequests {
  import opened Domain
  import opened OrderStatus
  import opened OrderSessionState
  import opened OrderSessionProtocol
  import opened OrderSessionTheorems

  // ---- Queries ----

  /** The query is about this order: same symbol, and the identifiers that it names. */
  predicate IsAbout(query: OrderQuery, order: OrderInfo) {
    && query.symbol == order.symbol
    && (query.orderId.Some? ==> query.orderId.value == order.orderId)
    && (query.clientOrderId.Some? ==> query.clientOrderId.value == order.clientOrderId)
  }

  /** The query made for an order is about that order, names exactly one identifier, which is not empty, and
      is about no other order that differs in the exchange's identifier, where that is known. */
  lemma QueryFindsItsOrder(order: OrderInfo, other: OrderInfo)
    requires Identifies(order)
    ensures var query := CreateOrderQuery(order);
      && IsAbout(query, order) && (query.orderId.Some? <==> query.clientOrderId.None?)
      && query.orderId != Some("") && query.clientOrderId != Some("")
      && (IsAbout(query, other) && order.orderId != "" ==> other.orderId == order.orderId)
      && (IsAbout(query, other) && order.orderId == "" ==> other.clientOrderId == order.clientOrderId)
  {
  }

  /** The order that an entry shows: for a basic one its last record. */
  function ShownOrder(e: Entry): Option<OrderInfo> {
    if e.terminalOrder.Some? then e.terminalOrder else e.acceptedOrder
  }

  /** The exchange can be asked about the entry. */
  predicate IsIdentified(e: Entry) {
    if e.kind == BasicOrder then ShownOrder(e).Some? && Identifies(ShownOrder(e).value)
    else e.acceptedOco.Some? && Identifies(e.acceptedOco.value.takeProfitOrder)
         && Identifies(e.acceptedOco.value.stopLossOrder)
  }

  /** A refresh asks about the entry's own order, or about each child of its own OCO order in its own slot,
      and about nothing else; it is possible exactly for an identified entry. */
  lemma RequestAsksForOwnOrders(e: Entry)
    ensures var request := CreateEntryRefreshRequest(e);
      && (request.Some? <==> IsIdentified(e))
      && (request.Some? ==>
            && request.value.entryId == e.id && request.value.revision == e.revision && request.value.kind == e.kind
            && (e.kind == BasicOrder ==>
                  && request.value.basicOrder.Some? && IsAbout(request.value.basicOrder.value, ShownOrder(e).value)
                  && request.value.takeProfitOrder.None? && request.value.stopLossOrder.None?)
            && (e.kind == OcoGroup ==>
                  && request.value.basicOrder.None?
                  && request.value.takeProfitOrder.Some? && request.value.stopLossOrder.Some?
                  && IsAbout(request.value.takeProfitOrder.value, e.acceptedOco.value.takeProfitOrder)
                  && IsAbout(request.value.stopLossOrder.value, e.acceptedOco.value.stopLossOrder)))
  {
  }

  /** Each answer reaches the order it was given for, and only what was asked for is answered. */
  lemma AnswersReachTheirOrders(request: RefreshRequest, answers: seq<Answers>, i: nat)
    requires i < |answers|
    ensures var result := AnswerTo(request, answers, i);
      && result.request == request
      && (request.basicOrder.Some? ==> result.basicOrder == answers[i].basicOrder)
      && (request.basicOrder.None? ==>
            && result.basicOrder.None?
            && (request.takeProfitOrder.Some? ==> result.takeProfitOrder == answers[i].takeProfitOrder)
            && (request.stopLossOrder.Some? ==> result.stopLossOrder == answers[i].stopLossOrder)
            && (request.takeProfitOrder.None? ==> result.takeProfitOrder.None?)
            && (request.stopLossOrder.None? ==> result.stopLossOrder.None?))
  {
  }

  // ---- What a user can ask for ----

  /** Over every run, an entry can be cancelled exactly if it was accepted, has not settled, can be named to the
      exchange, and has no action in flight. */
  lemma CancelIsAvailable(events: seq<Event>, id: EntryId)
    requires id in Run(INITIAL, events).entries
    ensures var es := Run(INITIAL, events).entries; var e := es[id];
      CanCancel(es, id) <==> IsAccepted(e) && !IsSettled(e.status) && IsIdentified(e) && e.action == NoAction
  {
    hide Run, Inv;
    InitialHolds();
    SessionsKeepTheirPromises(INITIAL, events);
    EntryOf(Run(INITIAL, events), id);
    RequestAsksForOwnOrders(Run(INITIAL, events).entries[id]);
  }

  predicate SamePair(a: Entry, b: Entry) {
    a.exchanger == b.exchanger && a.symbol == b.symbol
  }

  /** No entry of the pair is still being submitted or has an action in flight. */
  predicate PairIsIdle(es: Entries, id: EntryId)
    requires id in es
  {
    forall other :: other in es && SamePair(es[other], es[id]) ==>
      es[other].status != Submitting && es[other].action == NoAction
  }

  /** Over every run, all orders of an entry's pair can be cancelled exactly if the pair is named and idle; then
      the entries on the same exchange with the same symbol are marked, whatever their state, and no others. */
  lemma CancelAllTakesThePair(events: seq<Event>, id: EntryId, requests: seq<RefreshRequest>)
    requires var es := Run(INITIAL, events).entries;
      id in es && ArePairRequests(es, es[id].exchanger, es[id].symbol, requests)
    ensures var s := Run(INITIAL, events); var es, n := s.entries, Apply(s, StartCancelAll(id, requests));
      if es[id].symbol != "" && PairIsIdle(es, id) then
        && n.entries.Keys == es.Keys
        && (forall other :: other in es ==>
              n.entries[other] == if SamePair(es[other], es[id]) then es[other].(action := CancellingAll)
                                  else es[other])
      else n == s
  {
    hide Run, Inv, StartPairAction, EntriesTake;
    InitialHolds();
    SessionsKeepTheirPromises(INITIAL, events);
    var s := Run(INITIAL, events);
    if CanCancelAll(s.entries, id) {
      AllEntries(s);
      PairActionTakes(s.entries, id, requests);
      PairIsCovered(s.entries, id, requests, StartPairAction(s.entries, requests));
    }
  }

  lemma PairIsCovered(es: Entries, id: EntryId, requests: seq<RefreshRequest>, fs: Entries)
    requires id in es && ArePairRequests(es, es[id].exchanger, es[id].symbol, requests)
    requires EntriesTake(es, fs, CoveredIds(CancelAllTask(requests)), CancellingAll)
    ensures fs.Keys == es.Keys
    ensures forall other :: other in es ==>
              fs[other] == if SamePair(es[other], es[id]) then es[other].(action := CancellingAll) else es[other]
  {
    forall other | other in es
      ensures other in CoveredIds(CancelAllTask(requests)) <==> SamePair(es[other], es[id])
    {
      if SamePair(es[other], es[id]) {
        assert InPair(es[other], es[id].exchanger, es[id].symbol);
        assert Mentions(requests, other);
      }
    }
  }

  // ---- From acceptance to the wait ----

  /** The exchange's stream can report on the accepted order. */
  predicate IsMonitorable(e: Entry) {
    if e.kind == BasicOrder then
      e.acceptedOrder.Some? && e.acceptedOrder.value.symbol != "" && e.acceptedOrder.value.orderId != ""
    else
      && e.acceptedOco.Some? && e.acceptedOco.value.orderListId != ""
      && e.acceptedOco.value.takeProfitOrder.symbol != "" && e.acceptedOco.value.takeProfitOrder.orderId != ""
      && e.acceptedOco.value.stopLossOrder.symbol != "" && e.acceptedOco.value.stopLossOrder.orderId != ""
  }

  predicate FilledAtOnce(e: Entry) {
    e.kind == BasicOrder && e.acceptedOrder.Some? && IsFilled(e.exchanger, e.acceptedOrder.value.status)
  }

  lemma AcceptedOrderGoesOn(es: Entries, id: EntryId)
    requires id in es && EntryShaped(es[id]) && es[id].status == Accepted
    ensures var e := es[id]; var fs := Continue(es, id);
      && id in fs && fs[id].revision == e.revision + 1
      && (FilledAtOnce(e) ==> fs[id].status == FilledEntry && fs[id].terminalOrder == e.acceptedOrder)
      && (!FilledAtOnce(e) ==> fs[id].status == if IsMonitorable(e) then Waiting else MonitoringFailed)
  {
  }

  /** Going on after the acceptance: a basic order that is filled already settles with its own record, a
      monitorable order is waited for by a task at the entry's new revision, and any other one is shown as not
      monitored. */
  lemma AcceptedOrderIsWaitedFor(s: System, task: nat)
    requires Inv(s) && task in s.tasks && s.tasks[task].ContinuationTask?
    requires s.tasks[task].entryId in s.entries && s.entries[s.tasks[task].entryId].status == Accepted
    ensures var id := s.tasks[task].entryId; var e := s.entries[id]; var n := Apply(s, Continued(task, true));
      && id in n.entries && n.entries[id].revision == e.revision + 1
      && (FilledAtOnce(e) ==> n.entries[id].status == FilledEntry && n.entries[id].terminalOrder == e.acceptedOrder)
      && (!FilledAtOnce(e) && !IsMonitorable(e) ==> n.entries[id].status == MonitoringFailed)
      && (!FilledAtOnce(e) && IsMonitorable(e) ==>
            && n.entries[id].status == Waiting && id in n.driver && n.driver[id] in n.tasks
            && n.tasks[n.driver[id]] == WaitTask(id, n.entries[id].revision))
  {
    hide Inv, EntryShaped, Continue, IsMonitorable, FilledAtOnce;
    EntryOf(s, s.tasks[task].entryId);
    AcceptedOrderGoesOn(s.entries, s.tasks[task].entryId);
  }

  /** What the exchange accepted is what the entry keeps. */
  lemma AcceptanceIsKept(es: Entries, id: EntryId, order: OrderInfo, oco: OcoInfo)
    requires id in es && es[id].status == Submitting
    ensures var e := Accept(es, id, order, oco)[id];
      && e.status == Accepted && e.revision == es[id].revision + 1
      && (es[id].kind == BasicOrder ==> e.acceptedOrder == Some(order))
      && (es[id].kind == OcoGroup ==> e.acceptedOco == Some(oco))
  {
  }

  // ---- The end of an OCO wait ----

  predicate SameOrder(a: OrderInfo, b: OrderInfo) {
    a.orderId == b.orderId
  }

  /** The wait's two records are told apart by order id and put into the slots of the orders they are about; the
      entry then shows the fill. If they are not about the two children, monitoring has failed. */
  lemma OcoWaitFillsSlots(es: Entries, id: EntryId, revision: nat, result: OcoWaitResult)
    requires IsCurrentWait(es, id, revision) && es[id].acceptedOco.Some?
    ensures var oco := es[id].acceptedOco.value; var f := FinishOcoWait(es, id, revision, result)[id];
      var inOrder := SameOrder(oco.takeProfitOrder, result.filledOrder)
                     && SameOrder(oco.stopLossOrder, result.siblingTerminalOrder);
      var crosswise := SameOrder(oco.stopLossOrder, result.filledOrder)
                       && SameOrder(oco.takeProfitOrder, result.siblingTerminalOrder);
      && f.revision == es[id].revision + 1
      && (f.status == FilledEntry <==> inOrder || crosswise)
      && (f.status != FilledEntry ==> f.status == MonitoringFailed)
      && (f.status == FilledEntry ==>
            && f.terminalOrder == Some(result.filledOrder) && f.acceptedOco.Some?
            && SameOrder(f.acceptedOco.value.takeProfitOrder, oco.takeProfitOrder)
            && SameOrder(f.acceptedOco.value.stopLossOrder, oco.stopLossOrder)
            && {f.acceptedOco.value.takeProfitOrder, f.acceptedOco.value.stopLossOrder}
               == {result.filledOrder, result.siblingTerminalOrder})
  {
  }
}
