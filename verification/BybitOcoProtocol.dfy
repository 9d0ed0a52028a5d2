/** Any number of concurrent placements, fills and cancellations over one OCO registry. A step is one
    critical section; the network calls between the two sections of an operation are the time during
    which its task is in flight and any other step may happen. */
module BybitOcoProtocol {
  import opened Domain
  import opened BybitOcoState

  /** An operation between two of its critical sections. `generation` counts group creations and tells
      apart two groups that used the same id; the service itself does not keep it. */
  datatype Task =
    | PlacingLegs(group: GroupId)
    | FilledEarly(group: GroupId, link: LinkId, generation: nat)
    | CancellingSibling(group: GroupId, filled: LinkId, sibling: LegQuery, generation: nat)
    | CancellingGroup(copy: Group, generation: nat)

  datatype Event =
    | StartPlacement(group: GroupId)
    | FailPlacement(task: nat)
    | LegsPlaced(task: nat, symbol: string, takeProfitOrderId: string, stopLossOrderId: string)
    | ProcessEarlyFill(task: nat)
    | LegFilled(link: LinkId)
    | SiblingAnswered(task: nat, cancelError: Option<string>)
    | StartGroupCancel(group: GroupId)
    | GroupAnswered(task: nat, takeProfitDone: bool, stopLossDone: bool)

  /** `known` holds the legs, by generation, that were reported filled, were seen terminal, or had their
      cancellation accepted; `filled` those that were reported filled; `refused` the last error with which
      the exchange refused to cancel a leg of a generation; `succeeded` the generations whose sibling was
      cancelled after a fill; `unjustified` the generations removed while something about one of their
      legs was not known. */
  datatype System = System(
    registry: Registry,
    tasks: map<nat, Task>,
    nextTask: nat,
    generations: map<GroupId, nat>,
    nextGeneration: nat,
    known: set<(nat, LinkId)>,
    filled: set<(nat, LinkId)>,
    refused: map<nat, string>,
    succeeded: set<nat>,
    unjustified: set<nat>)

  const INITIAL := System(EMPTY, map[], 0, map[], 0, {}, {}, map[], {}, {})

  function AddTask(s: System, task: Task): System {
    s.(tasks := s.tasks[s.nextTask := task], nextTask := s.nextTask + 1)
  }

  function DropTask(s: System, task: nat): System {
    s.(tasks := s.tasks - {task})
  }

  predicate FullyKnown(s: System, group: GroupId)
    requires group in s.generations
  {
    (s.generations[group], TakeProfitLink(group)) in s.known && (s.generations[group], StopLossLink(group)) in s.known
  }

  /** The registry after a group left it, with the generation that left judged by what is known. */
  function Remove(s: System, next: Registry, group: GroupId): System {
    if group !in s.registry.groups || group !in s.generations then s.(registry := next)
    else
      s.(registry := next, generations := s.generations - {group},
         unjustified := s.unjustified + if FullyKnown(s, group) then {} else {s.generations[group]})
  }

  /** First half of a fill: it may start the cancellation of the sibling. */
  function Fill(s: System, link: LinkId): System {
    var (next, start) := s.registry.BeginFill(link);
    match start
    case NothingToDo => s.(registry := next)
    case CancelSibling(group, sibling) =>
      if group !in s.generations then s.(registry := next)
      else AddTask(s.(registry := next), CancellingSibling(group, link, sibling, s.generations[group]))
  }

  function LearnFill(s: System, link: LinkId): System {
    if link in s.registry.legToGroup && s.registry.legToGroup[link] in s.generations then
      var fact := (s.generations[s.registry.legToGroup[link]], link);
      s.(known := s.known + {fact}, filled := s.filled + {fact})
    else s
  }

  function EarlyFacts(s: System, id: GroupId): set<(nat, LinkId)> {
    set link | link in {TakeProfitLink(id), StopLossLink(id)} && link in s.registry.pendingFilled
      :: (s.nextGeneration, link)
  }

  function Create(s: System, group: Group): System {
    var id := group.groupId;
    s.(registry := s.registry.CreateGroup(group),
       generations := s.generations[id := s.nextGeneration],
       nextGeneration := s.nextGeneration + 1,
       known := s.known + EarlyFacts(s, id),
       filled := s.filled + EarlyFacts(s, id))
  }

  /** The group, if it is there, is reopened with the error. */
  function Refuse(s: System, group: GroupId, error: string): System {
    s.(registry := s.registry.EndFill(group, Some(error)),
       refused := if group in s.registry.groups && group in s.generations then s.refused[s.generations[group] := error]
                  else s.refused)
  }

  // ---- The critical sections. One that names no task of its kind changes nothing ----

  function StartPlacing(s: System, group: GroupId): System {
    match s.registry.RegisterPlacement(group)
    case Ok(next) => AddTask(s.(registry := next), PlacingLegs(group))
    case Err(_) => s
  }

  function FailPlacing(s: System, task: nat): System {
    if task in s.tasks && s.tasks[task].PlacingLegs? then
      DropTask(s.(registry := s.registry.ClearPlacement(s.tasks[task].group)), task)
    else s
  }

  function PlaceLegs(s: System, task: nat, symbol: string, takeProfitOrderId: string, stopLossOrderId: string): System {
    if task in s.tasks && s.tasks[task].PlacingLegs? then
      var id := s.tasks[task].group;
      var created := Create(DropTask(s, task), NewGroup(id, symbol, takeProfitOrderId, stopLossOrderId));
      match s.registry.EarlyFill(id)
      case Some(link) => AddTask(created, FilledEarly(id, link, s.nextGeneration))
      case None => created
    else s
  }

  function ProcessEarly(s: System, task: nat): System {
    if task in s.tasks && s.tasks[task].FilledEarly? then Fill(DropTask(s, task), s.tasks[task].link) else s
  }

  function FillLeg(s: System, link: LinkId): System {
    Fill(LearnFill(s, link), link)
  }

  function AnswerSibling(s: System, task: nat, cancelError: Option<string>): System {
    if task in s.tasks && s.tasks[task].CancellingSibling? then
      match cancelError
      case Some(error) => DropTask(Refuse(s, s.tasks[task].group, error), task)
      case None => DropTask(RemoveFilled(s, s.tasks[task]), task)
    else s
  }

  /** What is known once the cancellation of the sibling was accepted. */
  function LearnSibling(s: System, t: Task): System
    requires t.CancellingSibling?
  {
    s.(known := s.known + {(t.generation, t.sibling.clientOrderId)}, succeeded := s.succeeded + {t.generation})
  }

  function RemoveFilled(s: System, t: Task): System
    requires t.CancellingSibling?
  {
    Remove(LearnSibling(s, t), s.registry.EndFill(t.group, None), t.group)
  }

  function StartCancel(s: System, group: GroupId): System {
    if group in s.registry.groups && group in s.generations then
      AddTask(s, CancellingGroup(s.registry.groups[group], s.generations[group]))
    else s
  }

  function LearnLegs(s: System, t: Task, takeProfitDone: bool, stopLossDone: bool): System
    requires t.CancellingGroup?
  {
    s.(known := s.known
                + (if takeProfitDone then {(t.generation, t.copy.tpOrderLinkId)} else {})
                + (if stopLossDone then {(t.generation, t.copy.slOrderLinkId)} else {}))
  }

  function AnswerGroup(s: System, task: nat, takeProfitDone: bool, stopLossDone: bool): System {
    if task in s.tasks && s.tasks[task].CancellingGroup? then
      var t := s.tasks[task];
      var learnt := LearnLegs(s, t, takeProfitDone, stopLossDone);
      if takeProfitDone && stopLossDone then
        DropTask(Remove(learnt, s.registry.EndCancel(t.copy, t.copy.groupId), t.copy.groupId), task)
      else DropTask(learnt, task)
    else s
  }

  function Apply(s: System, event: Event): System {
    match event
    case StartPlacement(group) => StartPlacing(s, group)
    case FailPlacement(task) => FailPlacing(s, task)
    case LegsPlaced(task, symbol, takeProfitOrderId, stopLossOrderId) =>
      PlaceLegs(s, task, symbol, takeProfitOrderId, stopLossOrderId)
    case ProcessEarlyFill(task) => ProcessEarly(s, task)
    case LegFilled(link) => FillLeg(s, link)
    case SiblingAnswered(task, cancelError) => AnswerSibling(s, task, cancelError)
    case StartGroupCancel(group) => StartCancel(s, group)
    case GroupAnswered(task, takeProfitDone, stopLossDone) => AnswerGroup(s, task, takeProfitDone, stopLossDone)
  }

  function Run(s: System, events: seq<Event>): System
    decreases |events|
  {
    if events == [] then s else Run(Apply(s, events[0]), events[1..])
  }

  // ---- What every run keeps ----

  function GroupOf(task: Task): GroupId {
    match task
    case PlacingLegs(group) => group
    case FilledEarly(group, _, _) => group
    case CancellingSibling(group, _, _, _) => group
    case CancellingGroup(copy, _) => copy.groupId
  }

  predicate GenerationsFollow(s: System) {
    && s.generations.Keys == s.registry.groups.Keys
    && (forall id :: id in s.generations ==> s.generations[id] < s.nextGeneration)
    && (forall a, b :: a in s.generations && b in s.generations && a != b ==> s.generations[a] != s.generations[b])
    && (forall fact :: fact in s.known ==> fact.0 < s.nextGeneration)
  }

  predicate IsLinkOf(link: LinkId, group: GroupId) {
    link == TakeProfitLink(group) || link == StopLossLink(group)
  }

  predicate TaskShaped(s: System, task: Task) {
    match task
    case PlacingLegs(group) =>
      TakeProfitLink(group) in s.registry.placing && StopLossLink(group) in s.registry.placing
    case FilledEarly(group, link, generation) =>
      IsLinkOf(link, group) && generation < s.nextGeneration && OnlyAt(s, generation, group)
    case CancellingSibling(group, filled, sibling, generation) =>
      && {filled, sibling.clientOrderId} == {TakeProfitLink(group), StopLossLink(group)}
      && generation < s.nextGeneration && OnlyAt(s, generation, group)
    case CancellingGroup(copy, generation) =>
      && copy.tpOrderLinkId == TakeProfitLink(copy.groupId) && copy.slOrderLinkId == StopLossLink(copy.groupId)
      && generation < s.nextGeneration && OnlyAt(s, generation, copy.groupId)
  }

  predicate OnlyAt(s: System, generation: nat, group: GroupId) {
    forall id :: id in s.generations && s.generations[id] == generation ==> id == group
  }

  predicate TasksFollow(s: System) {
    forall t :: t in s.tasks ==> t < s.nextTask && TaskShaped(s, s.tasks[t])
  }

  /** No two placements share a group: a placement in flight owns its two links alone. */
  predicate PlacementsFollow(s: System) {
    forall t, u :: t in s.tasks && u in s.tasks && t != u && s.tasks[t].PlacingLegs? && s.tasks[u].PlacingLegs? ==>
      s.tasks[t].group != s.tasks[u].group
  }

  /** A generation whose sibling was cancelled after a fill has left the registry for good. */
  predicate SuccessIsFinal(s: System) {
    && (forall id :: id in s.generations ==> s.generations[id] !in s.succeeded)
    && (forall g :: g in s.succeeded ==> g < s.nextGeneration)
  }

  predicate Inv(s: System) {
    && s.registry.Consistent()
    && GenerationsFollow(s)
    && TasksFollow(s)
    && PlacementsFollow(s)
    && SuccessIsFinal(s)
  }

  // ---- What runs keep that do not place a group while its id is still being worked on ----

  /** No operation on the group is between its two critical sections. */
  predicate PlacementIsSafe(s: System, group: GroupId) {
    forall t :: t in s.tasks ==> GroupOf(s.tasks[t]) != group
  }

  predicate IsCareful(s: System, event: Event) {
    event.StartPlacement? ==> s.registry.PlacementConflicts(event.group) || PlacementIsSafe(s, event.group)
  }

  predicate Careful(s: System, events: seq<Event>)
    decreases |events|
  {
    events == [] || (IsCareful(s, events[0]) && Careful(Apply(s, events[0]), events[1..]))
  }

  /** Every operation in flight still works on the generation it started from, and on known facts. */
  predicate TaskCurrent(s: System, task: Task) {
    && (!task.PlacingLegs? && GroupOf(task) in s.generations ==> s.generations[GroupOf(task)] == task.generation)
    && (task.FilledEarly? ==> (task.generation, task.link) in s.known)
    && (task.CancellingSibling? ==>
          (task.generation, task.filled) in s.known
          && (task.group in s.registry.groups ==> s.registry.groups[task.group].closing))
  }

  predicate TasksCurrent(s: System) {
    && (forall t :: t in s.tasks ==> TaskCurrent(s, s.tasks[t]))
    && (forall t, u :: t in s.tasks && u in s.tasks && t != u && s.tasks[t].PlacingLegs? ==>
          GroupOf(s.tasks[u]) != s.tasks[t].group)
  }

  predicate OneCancellationEach(s: System) {
    forall t, u :: t in s.tasks && u in s.tasks && t != u
                   && s.tasks[t].CancellingSibling? && s.tasks[u].CancellingSibling? ==>
      s.tasks[t].group != s.tasks[u].group
  }

  predicate Fresh(s: System) {
    TasksCurrent(s) && OneCancellationEach(s) && s.unjustified == {}
  }
}
