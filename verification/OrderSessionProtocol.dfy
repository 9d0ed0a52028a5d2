/** Every order in which the session's callbacks can arrive. Tasks are started by user commands and by
    earlier callbacks, and each completes once, at any time. */
module OrderSessionProtocol {
  import opened Domain
  import opened OrderStatus
  import opened OrderSessionState

  datatype Task =
    | SubmissionTask(entryId: EntryId)
    | ContinuationTask(entryId: EntryId)
    | WaitTask(entryId: EntryId, revision: nat)
    | RefreshTask(request: RefreshRequest)
    | CancelTask(request: RefreshRequest)
    | CancelAllTask(requests: seq<RefreshRequest>)

  /** `driver` names the task that moves an entry on by itself, and `owner` the refresh or cancellation
      that covers it; both only record what the tasks say. */
  datatype System = System(
    entries: Entries,
    tasks: map<nat, Task>,
    nextTask: nat,
    nextEntryId: EntryId,
    driver: map<EntryId, nat>,
    owner: map<EntryId, nat>)

  const INITIAL := System(map[], map[], 0, 1, map[], map[])

  datatype Event =
    | Place(kind: EntryType, exchanger: Exchanger, symbol: string, started: bool)
    | SubmissionAccepted(task: nat, order: OrderInfo, oco: OcoInfo)
    | SubmissionRefused(task: nat)
    | Continued(task: nat, started: bool)
    | WaitEnded(task: nat, order: OrderInfo, result: OcoWaitResult)
    | WaitFailed(task: nat)
    | StartRefresh(entryId: EntryId)
    | StartCancel(entryId: EntryId)
    | StartCancelAll(entryId: EntryId, requests: seq<RefreshRequest>)
    | ActionEnded(task: nat, answers: seq<Answers>)
    | ActionFailed(task: nat)

  function CoveredIds(task: Task): set<EntryId> {
    match task
    case RefreshTask(request) => {request.entryId}
    case CancelTask(request) => {request.entryId}
    case CancelAllTask(requests) => set i | 0 <= i < |requests| :: requests[i].entryId
    case _ => {}
  }

  function ActionOf(task: Task): Action {
    match task
    case RefreshTask(_) => Refreshing
    case CancelTask(_) => Cancelling
    case CancelAllTask(_) => CancellingAll
    case _ => NoAction
  }

  predicate IsDriver(task: Task) {
    task.SubmissionTask? || task.ContinuationTask? || task.WaitTask?
  }

  /** One request for each entry of the pair, in whatever order the entries are kept. */
  predicate ArePairRequests(es: Entries, exchanger: Exchanger, symbol: string, requests: seq<RefreshRequest>) {
    && (forall i :: 0 <= i < |requests| ==>
          requests[i].entryId in es && InPair(es[requests[i].entryId], exchanger, symbol)
          && requests[i] == PairRequest(es[requests[i].entryId]))
    && (forall i, j :: 0 <= i < j < |requests| ==> requests[i].entryId != requests[j].entryId)
    && (forall id :: id in es && InPair(es[id], exchanger, symbol) ==> Mentions(requests, id))
  }

  function Drive(s: System, id: EntryId, task: Task): System {
    s.(tasks := s.tasks[s.nextTask := task], nextTask := s.nextTask + 1, driver := s.driver[id := s.nextTask])
  }

  function EndDriver(s: System, task: nat, id: EntryId): System {
    s.(tasks := s.tasks - {task}, driver := s.driver - {id})
  }

  function StartAction(s: System, es: Entries, task: Task): System {
    s.(entries := es, tasks := s.tasks[s.nextTask := task], nextTask := s.nextTask + 1,
       owner := s.owner + map id | id in CoveredIds(task) :: s.nextTask)
  }

  function EndAction(s: System, es: Entries, task: nat): System
    requires task in s.tasks
  {
    s.(entries := es, tasks := s.tasks - {task}, owner := s.owner - CoveredIds(s.tasks[task]))
  }

  function AnswerTo(request: RefreshRequest, answers: seq<Answers>, i: nat): RefreshResult {
    GetEntryRefreshResult(request, if i < |answers| then answers[i] else Answers(None, None, None))
  }

  function EndedEntries(es: Entries, task: Task, answers: seq<Answers>): Entries {
    match task
    case RefreshTask(request) => FinishEntryRefresh(es, AnswerTo(request, answers, 0), Refreshing)
    case CancelTask(request) => FinishEntryRefresh(es, AnswerTo(request, answers, 0), Cancelling)
    case CancelAllTask(requests) =>
      FinishCancelAll(es, requests,
                      seq(|requests|, i requires 0 <= i < |requests| => AnswerTo(requests[i], answers, i)))
    case _ => es
  }

  function FailedEntries(es: Entries, task: Task): Entries {
    match task
    case RefreshTask(request) => FailEntryAction(es, request.entryId, Refreshing)
    case CancelTask(request) => FailEntryAction(es, request.entryId, Cancelling)
    case CancelAllTask(requests) => FinishPairAction(es, requests)
    case _ => es
  }

  function Accept(es: Entries, id: EntryId, order: OrderInfo, oco: OcoInfo): Entries {
    if id in es && es[id].kind == OcoGroup then AcceptOco(es, id, oco) else AcceptBasicOrder(es, id, order)
  }

  function FinishWait(es: Entries, id: EntryId, revision: nat, order: OrderInfo, result: OcoWaitResult): Entries {
    if id in es && es[id].kind == OcoGroup then FinishOcoWait(es, id, revision, result)
    else FinishOrderWait(es, id, revision, order)
  }

  function ContinueTask(s: System, task: nat, id: EntryId, started: bool): System {
    var es := Continue(s.entries, id);
    var ended := EndDriver(s, task, id);
    if id in s.entries && s.entries[id].status == Accepted && id in es && es[id].status == Waiting then
      if started then Drive(ended.(entries := es), id, WaitTask(id, es[id].revision))
      else ended.(entries := FailOrderWait(es, id, es[id].revision))
    else ended.(entries := es)
  }

  // ---- Callbacks and commands. An event that names no task of its kind, a command that is not
  // available, and an answer outside the wait's contract change nothing ----

  /** The new entry is submitted by a task of its own, or refused at once when that could not start. */
  function PlaceEntry(s: System, kind: EntryType, exchanger: Exchanger, symbol: string, started: bool): System {
    var id := s.nextEntryId;
    var placed := s.(entries := s.entries[id := NewEntry(id, kind, exchanger, symbol)], nextEntryId := id + 1);
    if started then Drive(placed, id, SubmissionTask(id)) else placed.(entries := FailSubmission(placed.entries, id))
  }

  function AcceptSubmission(s: System, task: nat, order: OrderInfo, oco: OcoInfo): System {
    if task in s.tasks && s.tasks[task].SubmissionTask? then
      var id := s.tasks[task].entryId;
      var es := Accept(s.entries, id, order, oco);
      var ended := EndDriver(s, task, id).(entries := es);
      if es == s.entries then ended else Drive(ended, id, ContinuationTask(id))
    else s
  }

  function RefuseSubmission(s: System, task: nat): System {
    if task in s.tasks && s.tasks[task].SubmissionTask? then
      EndDriver(s, task, s.tasks[task].entryId).(entries := FailSubmission(s.entries, s.tasks[task].entryId))
    else s
  }

  function EndContinuation(s: System, task: nat, started: bool): System {
    if task in s.tasks && s.tasks[task].ContinuationTask? then ContinueTask(s, task, s.tasks[task].entryId, started)
    else s
  }

  predicate CanEndWait(s: System, task: nat, order: OrderInfo, result: OcoWaitResult) {
    && task in s.tasks && s.tasks[task].WaitTask?
    && (s.tasks[task].entryId in s.entries ==> IsWaitAnswer(s.entries[s.tasks[task].entryId], order, result))
  }

  function EndWait(s: System, task: nat, order: OrderInfo, result: OcoWaitResult): System {
    if CanEndWait(s, task, order, result) then
      var id := s.tasks[task].entryId;
      EndDriver(s, task, id).(entries := FinishWait(s.entries, id, s.tasks[task].revision, order, result))
    else s
  }

  function FailWait(s: System, task: nat): System {
    if task in s.tasks && s.tasks[task].WaitTask? then
      var id := s.tasks[task].entryId;
      EndDriver(s, task, id).(entries := FailOrderWait(s.entries, id, s.tasks[task].revision))
    else s
  }

  function BeginRefresh(s: System, id: EntryId): System {
    if CanRefresh(s.entries, id) then
      StartAction(s, s.entries[id := s.entries[id].(action := Refreshing)],
                  RefreshTask(CreateEntryRefreshRequest(s.entries[id]).value))
    else s
  }

  function BeginCancel(s: System, id: EntryId): System {
    if CanCancel(s.entries, id) then
      StartAction(s, s.entries[id := s.entries[id].(action := Cancelling)],
                  CancelTask(CreateEntryRefreshRequest(s.entries[id]).value))
    else s
  }

  function BeginCancelAll(s: System, id: EntryId, requests: seq<RefreshRequest>): System {
    if CanCancelAll(s.entries, id)
       && ArePairRequests(s.entries, s.entries[id].exchanger, s.entries[id].symbol, requests) then
      StartAction(s, StartPairAction(s.entries, requests), CancelAllTask(requests))
    else s
  }

  function FinishAction(s: System, task: nat, answers: seq<Answers>): System {
    if task in s.tasks && !IsDriver(s.tasks[task]) then
      EndAction(s, EndedEntries(s.entries, s.tasks[task], answers), task)
    else s
  }

  function FailAction(s: System, task: nat): System {
    if task in s.tasks && !IsDriver(s.tasks[task]) then EndAction(s, FailedEntries(s.entries, s.tasks[task]), task)
    else s
  }

  function Apply(s: System, event: Event): System {
    match event
    case Place(kind, exchanger, symbol, started) => PlaceEntry(s, kind, exchanger, symbol, started)
    case SubmissionAccepted(task, order, oco) => AcceptSubmission(s, task, order, oco)
    case SubmissionRefused(task) => RefuseSubmission(s, task)
    case Continued(task, started) => EndContinuation(s, task, started)
    case WaitEnded(task, order, result) => EndWait(s, task, order, result)
    case WaitFailed(task) => FailWait(s, task)
    case StartRefresh(id) => BeginRefresh(s, id)
    case StartCancel(id) => BeginCancel(s, id)
    case StartCancelAll(id, requests) => BeginCancelAll(s, id, requests)
    case ActionEnded(task, answers) => FinishAction(s, task, answers)
    case ActionFailed(task) => FailAction(s, task)
  }

  function Run(s: System, events: seq<Event>): System
    decreases |events|
  {
    if events == [] then s else Run(Apply(s, events[0]), events[1..])
  }

  // ---- What every run keeps ----

  predicate Numbered(s: System) {
    && (forall id :: id in s.entries ==> s.entries[id].id == id && id < s.nextEntryId)
    && (forall t :: t in s.tasks ==> t < s.nextTask)
  }

  predicate IsAccepted(e: Entry) {
    e.acceptedOrder.Some? || e.acceptedOco.Some?
  }

  /** A settled OCO entry has two ended children: it is filled exactly if one of them is, and then shows a
      filled one. */
  predicate OcoShaped(e: Entry) {
    e.kind == OcoGroup && IsSettled(e.status) ==>
      && e.acceptedOco.Some?
      && var takeProfit, stopLoss := e.acceptedOco.value.takeProfitOrder, e.acceptedOco.value.stopLossOrder;
      && IsTerminal(e.exchanger, takeProfit.status) && IsTerminal(e.exchanger, stopLoss.status)
      && (e.status == FilledEntry
          <==> IsFilled(e.exchanger, takeProfit.status) || IsFilled(e.exchanger, stopLoss.status))
      && (e.status == FilledEntry ==> e.terminalOrder in {Some(takeProfit), Some(stopLoss)})
  }

  /** What an entry stores fits its status. */
  predicate EntryShaped(e: Entry) {
    && (IsAccepted(e) <==> e.status != Submitting && e.status != SubmissionFailed)
    && (if e.kind == BasicOrder then e.acceptedOco.None? else e.acceptedOrder.None?)
    && OcoShaped(e)
    && (e.terminalOrder.Some? ==> IsSettled(e.status))
    && (e.status == FilledEntry ==> e.terminalOrder.Some? && IsFilled(e.exchanger, e.terminalOrder.value.status))
    && (e.status == TerminalEntry ==>
          if e.kind == OcoGroup then e.terminalOrder.None?
          else e.terminalOrder.Some? && IsTerminal(e.exchanger, e.terminalOrder.value.status)
               && !IsFilled(e.exchanger, e.terminalOrder.value.status))
  }

  /** The contract of the services' waits: they return a fill, for an OCO order with the other child's end. */
  predicate IsWaitAnswer(e: Entry, order: OrderInfo, result: OcoWaitResult) {
    if e.kind == OcoGroup then
      IsFilled(e.exchanger, result.filledOrder.status) && IsTerminal(e.exchanger, result.siblingTerminalOrder.status)
    else IsFilled(e.exchanger, order.status)
  }

  predicate Shaped(s: System) {
    forall id :: id in s.entries ==> EntryShaped(s.entries[id])
  }

  predicate RequestFollows(es: Entries, request: RefreshRequest) {
    && request.entryId in es
    && request.kind == es[request.entryId].kind
    && request.revision <= es[request.entryId].revision
    && (request.basicOrder.Some? ==> IsAccepted(es[request.entryId]))
  }

  predicate TaskFollows(es: Entries, task: Task) {
    match task
    case RefreshTask(request) => RequestFollows(es, request)
    case CancelTask(request) => RequestFollows(es, request)
    case CancelAllTask(requests) =>
      && (forall i :: 0 <= i < |requests| ==> RequestFollows(es, requests[i]))
      && (forall i, j :: 0 <= i < j < |requests| ==> requests[i].entryId != requests[j].entryId)
    case _ => task.entryId in es
  }

  predicate TasksFollow(s: System) {
    forall t :: t in s.tasks ==> TaskFollows(s.entries, s.tasks[t])
  }

  predicate OwnersCover(s: System) {
    forall id :: id in s.owner ==>
      && id in s.entries && s.owner[id] in s.tasks && id in CoveredIds(s.tasks[s.owner[id]])
      && s.entries[id].action == ActionOf(s.tasks[s.owner[id]])
  }

  predicate CoveringOwns(s: System) {
    forall t :: t in s.tasks ==> forall id :: id in CoveredIds(s.tasks[t]) ==> id in s.owner && s.owner[id] == t
  }

  /** An entry's action is the kind of the one task that covers it. */
  predicate Covered(s: System) {
    && OwnersCover(s)
    && CoveringOwns(s)
    && (forall id :: id in s.entries && s.entries[id].action != NoAction ==> id in s.owner)
  }

  predicate Drives(task: Task, e: Entry) {
    match e.status
    case Submitting => task.SubmissionTask?
    case Accepted => task.ContinuationTask?
    case Waiting => task.WaitTask? && task.revision == e.revision
    case _ => true
  }

  predicate IsPending(status: EntryStatus) {
    status == Submitting || status == Accepted || status == Waiting
  }

  predicate DriversDrive(s: System) {
    forall id :: id in s.driver ==>
      && id in s.entries && s.driver[id] in s.tasks
      && IsDriver(s.tasks[s.driver[id]]) && s.tasks[s.driver[id]].entryId == id
      && (s.tasks[s.driver[id]].SubmissionTask? ==> s.entries[id].status == Submitting)
      && Drives(s.tasks[s.driver[id]], s.entries[id])
  }

  predicate DrivingOwns(s: System) {
    forall t :: t in s.tasks && IsDriver(s.tasks[t]) ==>
          s.tasks[t].entryId in s.driver && s.driver[s.tasks[t].entryId] == t
  }

  /** An entry that is being submitted, was just accepted or is waited for has one task that will move it
      on, and that task's result is current. */
  predicate Driven(s: System) {
    && DriversDrive(s)
    && DrivingOwns(s)
    && (forall id :: id in s.entries && IsPending(s.entries[id].status) ==> id in s.driver)
  }

  predicate Inv(s: System) {
    Numbered(s) && Shaped(s) && TasksFollow(s) && Covered(s) && Driven(s)
  }

  // ---- How entries change ----

  function Progress(status: EntryStatus): nat {
    match status
    case Submitting => 0
    case Accepted => 1
    case Waiting => 2
    case MonitoringFailed => 3
    case FilledEntry => 4
    case TerminalEntry => 4
    case SubmissionFailed => 5
  }

  /** An entry keeps its identity; its revision and its progress never fall; a settled entry stays
      settled and a refused one stays as it is, for good. */
  predicate EntryEvolves(e: Entry, f: Entry) {
    && f.id == e.id && f.kind == e.kind && f.exchanger == e.exchanger && f.symbol == e.symbol
    && e.revision <= f.revision
    && Progress(e.status) <= Progress(f.status)
    && (IsSettled(e.status) ==> IsSettled(f.status))
    && (IsAccepted(e) ==> IsAccepted(f))
    && (e.status == SubmissionFailed ==> f == e.(action := f.action))
  }

  predicate Evolves(es: Entries, fs: Entries) {
    forall id :: id in es ==> id in fs && EntryEvolves(es[id], fs[id])
  }
}
