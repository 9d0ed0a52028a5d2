/** The order session: entries for submitted orders, moved by callbacks that arrive in any order. Here are
    the effects of each callback on the entries, keyed by id. */
module OrderSessionState {
  import opened Domain
  import opened OrderStatus

  type EntryId = nat

  datatype EntryType = BasicOrder | OcoGroup

  datatype EntryStatus =
    Submitting | Accepted | Waiting | FilledEntry | TerminalEntry | SubmissionFailed | MonitoringFailed

  datatype Action = NoAction | Refreshing | Cancelling | CancellingAll

  datatype Entry = Entry(
    id: EntryId,
    kind: EntryType,
    exchanger: Exchanger,
    symbol: string,
    status: EntryStatus,
    action: Action,
    acceptedOrder: Option<OrderInfo>,
    acceptedOco: Option<OcoInfo>,
    terminalOrder: Option<OrderInfo>,
    revision: nat)

  type Entries = map<EntryId, Entry>

  datatype OrderQuery = OrderQuery(symbol: string, orderId: Option<string>, clientOrderId: Option<string>)

  datatype RefreshRequest = RefreshRequest(
    entryId: EntryId,
    revision: nat,
    kind: EntryType,
    basicOrder: Option<OrderQuery>,
    takeProfitOrder: Option<OrderQuery>,
    stopLossOrder: Option<OrderQuery>)

  /** What the exchange answers for the orders a request asks about; None for a call that threw. */
  datatype Answers = Answers(basicOrder: Option<OrderInfo>, takeProfitOrder: Option<OrderInfo>,
                             stopLossOrder: Option<OrderInfo>)

  datatype RefreshResult = RefreshResult(
    request: RefreshRequest,
    basicOrder: Option<OrderInfo>,
    takeProfitOrder: Option<OrderInfo>,
    stopLossOrder: Option<OrderInfo>)

  predicate IsSettled(status: EntryStatus) {
    status == FilledEntry || status == TerminalEntry
  }

  function NewEntry(id: EntryId, kind: EntryType, exchanger: Exchanger, symbol: string): Entry {
    Publish(DraftEntry(id, kind, exchanger, symbol))
  }

  function DraftEntry(id: EntryId, kind: EntryType, exchanger: Exchanger, symbol: string): Entry {
    Entry(id, kind, exchanger, symbol, Submitting, NoAction, None, None, None, 0)
  }

  /** A change of the entry itself gets a new revision; a change of its action does not. */
  function Publish(e: Entry): Entry {
    e.(revision := e.revision + 1)
  }

  // ---- Requests ----

  predicate Identifies(order: OrderInfo) {
    order.symbol != "" && (order.orderId != "" || order.clientOrderId != "")
  }

  function CreateOrderQuery(order: OrderInfo): OrderQuery {
    OrderQuery(order.symbol,
               if order.orderId != "" then Some(order.orderId) else None,
               if order.orderId == "" && order.clientOrderId != "" then Some(order.clientOrderId) else None)
  }

  function BlankRequest(e: Entry): RefreshRequest {
    RefreshRequest(e.id, e.revision, e.kind, None, None, None)
  }

  function CreateEntryRefreshRequest(e: Entry): Option<RefreshRequest> {
    if e.kind == BasicOrder then
      var order := if e.terminalOrder.Some? then e.terminalOrder else e.acceptedOrder;
      if order.None? || !Identifies(order.value) then None
      else Some(BlankRequest(e).(basicOrder := Some(CreateOrderQuery(order.value))))
    else if e.acceptedOco.None? then None
    else if !Identifies(e.acceptedOco.value.takeProfitOrder) || !Identifies(e.acceptedOco.value.stopLossOrder) then None
    else Some(BlankRequest(e).(takeProfitOrder := Some(CreateOrderQuery(e.acceptedOco.value.takeProfitOrder)),
                               stopLossOrder := Some(CreateOrderQuery(e.acceptedOco.value.stopLossOrder))))
  }

  function PairRequest(e: Entry): RefreshRequest {
    match CreateEntryRefreshRequest(e)
    case Some(request) => request
    case None => BlankRequest(e)
  }

  /** Only what was asked for is answered. */
  function GetEntryRefreshResult(request: RefreshRequest, answers: Answers): RefreshResult {
    if request.basicOrder.Some? then RefreshResult(request, answers.basicOrder, None, None)
    else RefreshResult(request, None,
                       if request.takeProfitOrder.Some? then answers.takeProfitOrder else None,
                       if request.stopLossOrder.Some? then answers.stopLossOrder else None)
  }

  predicate CanRefresh(es: Entries, id: EntryId) {
    id in es && es[id].action == NoAction && CreateEntryRefreshRequest(es[id]).Some?
  }

  predicate CanCancel(es: Entries, id: EntryId) {
    CanRefresh(es, id) && es[id].status in {Accepted, Waiting, MonitoringFailed}
  }

  predicate InPair(e: Entry, exchanger: Exchanger, symbol: string) {
    e.exchanger == exchanger && e.symbol == symbol
  }

  predicate CanCancelAll(es: Entries, id: EntryId) {
    && id in es && es[id].symbol != ""
    && forall other :: other in es && InPair(es[other], es[id].exchanger, es[id].symbol) ==>
         es[other].status != Submitting && es[other].action == NoAction
  }

  // ---- Submission and waiting ----

  function AcceptBasicOrder(es: Entries, id: EntryId, order: OrderInfo): Entries {
    if id !in es || es[id].status != Submitting || es[id].kind != BasicOrder then es
    else es[id := Publish(es[id].(acceptedOrder := Some(order), status := Accepted))]
  }

  function AcceptOco(es: Entries, id: EntryId, oco: OcoInfo): Entries {
    if id !in es || es[id].status != Submitting || es[id].kind != OcoGroup then es
    else es[id := Publish(es[id].(acceptedOco := Some(oco), status := Accepted))]
  }

  function FailSubmission(es: Entries, id: EntryId): Entries {
    if id !in es || es[id].status != Submitting then es
    else es[id := Publish(es[id].(status := SubmissionFailed))]
  }

  /** An accepted basic order is done at once if it is filled, cannot be monitored without its
      identifiers, and is waited for otherwise. */
  function ContinueAfterBasicAcceptance(es: Entries, id: EntryId): Entries {
    if id !in es || es[id].status != Accepted || es[id].acceptedOrder.None? || es[id].kind != BasicOrder then es
    else
      var e := es[id];
      var order := e.acceptedOrder.value;
      if IsFilled(e.exchanger, order.status) then
        es[id := Publish(e.(terminalOrder := Some(order), status := FilledEntry))]
      else if order.symbol == "" || order.orderId == "" then es[id := Publish(e.(status := MonitoringFailed))]
      else es[id := Publish(e.(status := Waiting))]
  }

  predicate CanMonitor(oco: OcoInfo) {
    && oco.orderListId != ""
    && oco.takeProfitOrder.symbol != "" && oco.takeProfitOrder.orderId != ""
    && oco.stopLossOrder.symbol != "" && oco.stopLossOrder.orderId != ""
  }

  function ContinueAfterOcoAcceptance(es: Entries, id: EntryId): Entries {
    if id !in es || es[id].status != Accepted || es[id].acceptedOco.None? || es[id].kind != OcoGroup then es
    else es[id := Publish(es[id].(status := if CanMonitor(es[id].acceptedOco.value) then Waiting
                                            else MonitoringFailed))]
  }

  function Continue(es: Entries, id: EntryId): Entries {
    if id in es && es[id].kind == OcoGroup then ContinueAfterOcoAcceptance(es, id)
    else ContinueAfterBasicAcceptance(es, id)
  }

  predicate IsCurrentWait(es: Entries, id: EntryId, revision: nat) {
    id in es && es[id].status == Waiting && es[id].revision == revision
  }

  function FinishOrderWait(es: Entries, id: EntryId, revision: nat, order: OrderInfo): Entries {
    if !IsCurrentWait(es, id, revision) then es
    else es[id := Publish(es[id].(terminalOrder := Some(order), status := FilledEntry))]
  }

  /** The accepted OCO order with the final records of its children, if both can be told. */
  function WithFinalChildren(oco: OcoInfo, result: OcoWaitResult): Option<OcoInfo> {
    if oco.takeProfitOrder.orderId == result.filledOrder.orderId
       && oco.stopLossOrder.orderId == result.siblingTerminalOrder.orderId then
      Some(oco.(takeProfitOrder := result.filledOrder, stopLossOrder := result.siblingTerminalOrder))
    else if oco.stopLossOrder.orderId == result.filledOrder.orderId
            && oco.takeProfitOrder.orderId == result.siblingTerminalOrder.orderId then
      Some(oco.(stopLossOrder := result.filledOrder, takeProfitOrder := result.siblingTerminalOrder))
    else None
  }

  function FinishOcoWait(es: Entries, id: EntryId, revision: nat, result: OcoWaitResult): Entries {
    if !IsCurrentWait(es, id, revision) then es
    else
      var oco := if es[id].acceptedOco.Some? then WithFinalChildren(es[id].acceptedOco.value, result) else None;
      if oco.None? then es[id := Publish(es[id].(status := MonitoringFailed))]
      else es[id := Publish(es[id].(acceptedOco := oco, terminalOrder := Some(result.filledOrder),
                                    status := FilledEntry))]
  }

  /** A monitoring failure during a cancellation keeps the revision that the cancellation started from. */
  function FailOrderWait(es: Entries, id: EntryId, revision: nat): Entries {
    if !IsCurrentWait(es, id, revision) then es
    else
      var failed := es[id].(status := MonitoringFailed);
      if failed.action == Cancelling || failed.action == CancellingAll then es[id := failed]
      else es[id := Publish(failed)]
  }

  // ---- Results of actions ----

  /** The entry with an exchange record applied, and whether that settled it anew. */
  function ApplyBasicOrderRefresh(e: Entry, order: OrderInfo): (Entry, bool) {
    if IsSettled(e.status) && !IsTerminal(e.exchanger, order.status) then (e, false)
    else
      var updated := e.(acceptedOrder := Some(order));
      match Classify(e.exchanger, order.status)
      case Filled => (updated.(terminalOrder := Some(order), status := FilledEntry), e.status != FilledEntry)
      case Cancelled => (updated.(terminalOrder := Some(order), status := TerminalEntry), e.status != TerminalEntry)
      case OtherTerminal => (updated.(terminalOrder := Some(order), status := TerminalEntry), e.status != TerminalEntry)
      case Unavailable => (updated, false)
      case Active => (updated, false)
  }

  function UpdateChild(child: OrderInfo, refreshed: Option<OrderInfo>, exchanger: Exchanger): OrderInfo {
    if refreshed.None? || refreshed.value.orderId != child.orderId then child
    else if IsTerminal(exchanger, child.status) && !IsTerminal(exchanger, refreshed.value.status) then child
    else refreshed.value
  }

  function ApplyOcoRefresh(e: Entry, result: RefreshResult): (Entry, bool) {
    if e.acceptedOco.None? then (e, false)
    else
      var takeProfit := UpdateChild(e.acceptedOco.value.takeProfitOrder, result.takeProfitOrder, e.exchanger);
      var stopLoss := UpdateChild(e.acceptedOco.value.stopLossOrder, result.stopLossOrder, e.exchanger);
      var updated := e.(acceptedOco := Some(e.acceptedOco.value.(takeProfitOrder := takeProfit,
                                                                 stopLossOrder := stopLoss)));
      if !IsTerminal(e.exchanger, takeProfit.status) || !IsTerminal(e.exchanger, stopLoss.status) then (updated, false)
      else if IsFilled(e.exchanger, takeProfit.status) then
        (updated.(terminalOrder := Some(takeProfit), status := FilledEntry), e.status != FilledEntry)
      else if IsFilled(e.exchanger, stopLoss.status) then
        (updated.(terminalOrder := Some(stopLoss), status := FilledEntry), e.status != FilledEntry)
      else (updated.(terminalOrder := None, status := TerminalEntry), e.status != TerminalEntry)
  }

  function ApplyEntryRefreshResult(e: Entry, result: RefreshResult): (Entry, bool) {
    if e.kind == BasicOrder && result.basicOrder.Some? then ApplyBasicOrderRefresh(e, result.basicOrder.value)
    else if e.kind == OcoGroup then ApplyOcoRefresh(e, result)
    else (e, false)
  }

  predicate IsActionCurrent(e: Entry, revision: nat, action: Action) {
    e.revision == revision && e.action == action
  }

  /** A result that is still current is applied and ends the action. */
  function Settle(e: Entry, result: RefreshResult): Entry {
    var (applied, becameTerminal) := ApplyEntryRefreshResult(e, result);
    var ended := applied.(action := NoAction);
    if becameTerminal then Publish(ended) else ended
  }

  /** The end of a refresh or of one order's cancellation; a result of an older revision only ends the action. */
  function FinishEntryRefresh(es: Entries, result: RefreshResult, action: Action): Entries {
    var id := result.request.entryId;
    if id !in es then es
    else if IsActionCurrent(es[id], result.request.revision, action) then es[id := Settle(es[id], result)]
    else if es[id].action == action then es[id := es[id].(action := NoAction)]
    else es
  }

  function FailEntryAction(es: Entries, id: EntryId, action: Action): Entries {
    if id !in es || es[id].action != action then es else es[id := es[id].(action := NoAction)]
  }

  // ---- Cancelling all orders of a pair ----

  function StartPairAction(es: Entries, requests: seq<RefreshRequest>): Entries {
    if requests == [] then es
    else StartOne(StartPairAction(es, requests[..|requests| - 1]), requests[|requests| - 1])
  }

  function StartOne(es: Entries, request: RefreshRequest): Entries {
    if request.entryId !in es || es[request.entryId].revision != request.revision then es
    else es[request.entryId := es[request.entryId].(action := CancellingAll)]
  }

  function ApplyCancelAll(es: Entries, results: seq<RefreshResult>): Entries {
    if results == [] then es
    else ApplyOne(ApplyCancelAll(es, results[..|results| - 1]), results[|results| - 1])
  }

  function ApplyOne(es: Entries, result: RefreshResult): Entries {
    var id := result.request.entryId;
    if id !in es || !IsActionCurrent(es[id], result.request.revision, CancellingAll) then es
    else es[id := Settle(es[id], result)]
  }

  function FinishPairAction(es: Entries, requests: seq<RefreshRequest>): Entries {
    if requests == [] then es
    else FailEntryAction(FinishPairAction(es, requests[..|requests| - 1]), requests[|requests| - 1].entryId,
                         CancellingAll)
  }

  function FinishCancelAll(es: Entries, requests: seq<RefreshRequest>, results: seq<RefreshResult>): Entries {
    FinishPairAction(ApplyCancelAll(es, results), requests)
  }

  // ---- The pair actions, entry by entry ----

  predicate Mentions(requests: seq<RefreshRequest>, id: EntryId) {
    exists i :: 0 <= i < |requests| && requests[i].entryId == id
  }

  lemma {:induction false} StartPairActionAt(es: Entries, requests: seq<RefreshRequest>)
    requires forall i :: 0 <= i < |requests| && requests[i].entryId in es ==>
               requests[i].revision == es[requests[i].entryId].revision
    ensures StartPairAction(es, requests).Keys == es.Keys
    ensures forall id :: id in es ==>
              StartPairAction(es, requests)[id] == if Mentions(requests, id) then es[id].(action := CancellingAll)
                                                   else es[id]
  {
    if requests != [] {
      var init := requests[..|requests| - 1];
      StartPairActionAt(es, init);
      MentionsGrows(requests);
    }
  }

  lemma MentionsGrows(requests: seq<RefreshRequest>)
    requires requests != []
    ensures forall id :: Mentions(requests, id)
                         <==> Mentions(requests[..|requests| - 1], id) || requests[|requests| - 1].entryId == id
  {
    var init := requests[..|requests| - 1];
    forall id | Mentions(requests, id) && requests[|requests| - 1].entryId != id
      ensures Mentions(init, id)
    {
      var i :| 0 <= i < |requests| && requests[i].entryId == id;
      assert init[i].entryId == id;
    }
    forall id | Mentions(init, id)
      ensures Mentions(requests, id)
    {
      var i :| 0 <= i < |init| && init[i].entryId == id;
      assert requests[i].entryId == id;
    }
  }

  lemma {:induction false} FinishPairActionAt(es: Entries, requests: seq<RefreshRequest>)
    ensures FinishPairAction(es, requests).Keys == es.Keys
    ensures forall id :: id in es ==>
              FinishPairAction(es, requests)[id]
              == if Mentions(requests, id) && es[id].action == CancellingAll then es[id].(action := NoAction)
                 else es[id]
  {
    if requests != [] {
      FinishPairActionAt(es, requests[..|requests| - 1]);
      MentionsGrows(requests);
    }
  }

  lemma ApplyOneAt(es: Entries, result: RefreshResult)
    ensures ApplyOne(es, result).Keys == es.Keys
    ensures forall id :: id in es && id != result.request.entryId ==> ApplyOne(es, result)[id] == es[id]
    ensures forall fs: Entries :: result.request.entryId in es && result.request.entryId in fs
                                  && fs[result.request.entryId] == es[result.request.entryId]
              ==> ApplyOne(fs, result)[result.request.entryId] == ApplyOne(es, result)[result.request.entryId]
  {
    hide Settle;
  }

  /** One result per entry: each entry takes the effect of its own result only. */
  lemma {:induction false} ApplyCancelAllAt(es: Entries, results: seq<RefreshResult>)
    requires forall i, j :: 0 <= i < j < |results| ==> results[i].request.entryId != results[j].request.entryId
    ensures ApplyCancelAll(es, results).Keys == es.Keys
    ensures forall i :: 0 <= i < |results| && results[i].request.entryId in es ==>
              ApplyCancelAll(es, results)[results[i].request.entryId]
              == ApplyOne(es, results[i])[results[i].request.entryId]
    ensures forall id :: id in es && (forall i :: 0 <= i < |results| ==> results[i].request.entryId != id) ==>
              ApplyCancelAll(es, results)[id] == es[id]
  {
    if results != [] {
      hide ApplyOne;
      var init := results[..|results| - 1];
      var last := results[|results| - 1];
      var before := ApplyCancelAll(es, init);
      ApplyCancelAllAt(es, init);
      ApplyOneAt(before, last);
      ApplyOneAt(es, last);
      assert forall i :: 0 <= i < |init| ==> init[i] == results[i];
      assert last.request.entryId in es ==> before[last.request.entryId] == es[last.request.entryId];
    }
  }
}
