/** What the OCO registry guarantees over every order of placements, fills, answers and cancellations. */
module BybitOcoTheorems {
  import opened Domain
  import opened BybitOcoState
  import opened BybitOcoProtocol

  lemma InitialHolds()
    ensures Inv(INITIAL) && Fresh(INITIAL)
  {
  }

  // ---- What depends on the tasks and generations only ----

  /** The part of the invariant that is not about the registry's own indexes. */
  ghost predicate Bookkeeping(s: System) {
    TasksFollow(s) && PlacementsFollow(s) && SuccessIsFinal(s)
  }

  /** Dropping tasks and groups and adding placing links keeps the bookkeeping. */
  lemma BookkeepingFrame(s: System, n: System)
    requires Bookkeeping(s)
    requires n.tasks.Keys <= s.tasks.Keys && (forall t :: t in n.tasks ==> n.tasks[t] == s.tasks[t])
    requires n.nextTask >= s.nextTask && n.nextGeneration == s.nextGeneration
    requires n.generations.Keys <= s.generations.Keys
    requires forall id :: id in n.generations ==> n.generations[id] == s.generations[id]
    requires s.registry.placing <= n.registry.placing
    requires n.succeeded == s.succeeded
    ensures Bookkeeping(n)
  {
  }

  /** So does adding a task of the right shape that is not a placement. */
  lemma AddTaskKeeps(s: System, task: Task)
    requires Bookkeeping(s) && !task.PlacingLegs? && TaskShaped(s, task)
    ensures Bookkeeping(AddTask(s, task))
  {
  }

  lemma StartPlacingKeepsBookkeeping(s: System, group: GroupId)
    requires Inv(s)
    ensures Bookkeeping(StartPlacing(s, group))
  {
    hide GenerationsFollow, Registry.Consistent;
  }

  lemma StartPlacingKeeps(s: System, group: GroupId)
    requires Inv(s)
    ensures Inv(StartPlacing(s, group))
  {
    hide TasksFollow, PlacementsFollow, SuccessIsFinal, Registry.Consistent;
    PlacementKeepsConsistent(s.registry, group);
    StartPlacingKeepsBookkeeping(s, group);
  }

  lemma ClearKeepsOthers(s: System, task: nat)
    requires TasksFollow(s) && PlacementsFollow(s)
    requires task in s.tasks && s.tasks[task].PlacingLegs?
    ensures TasksFollow(DropTask(s.(registry := s.registry.ClearPlacement(s.tasks[task].group)), task))
  {
    var n := DropTask(s.(registry := s.registry.ClearPlacement(s.tasks[task].group)), task);
    forall t | t in n.tasks
      ensures t < n.nextTask && TaskShaped(n, n.tasks[t])
    {
      if n.tasks[t].PlacingLegs? {
        LinksAreDistinct(n.tasks[t].group, s.tasks[task].group);
        LinksAreDistinct(s.tasks[task].group, n.tasks[t].group);
      }
    }
  }

  lemma ClearKeepsPlacements(s: System, task: nat)
    requires PlacementsFollow(s) && SuccessIsFinal(s) && GenerationsFollow(s)
    requires task in s.tasks && s.tasks[task].PlacingLegs?
    ensures var n := DropTask(s.(registry := s.registry.ClearPlacement(s.tasks[task].group)), task);
      PlacementsFollow(n) && SuccessIsFinal(n) && GenerationsFollow(n)
  {
  }

  lemma FailPlacingKeeps(s: System, task: nat)
    requires Inv(s)
    ensures Inv(FailPlacing(s, task))
  {
    hide TasksFollow, PlacementsFollow, SuccessIsFinal, GenerationsFollow, Registry.Consistent;
    if task in s.tasks && s.tasks[task].PlacingLegs? {
      PlacementKeepsConsistent(s.registry, s.tasks[task].group);
      ClearKeepsOthers(s, task);
      ClearKeepsPlacements(s, task);
    }
  }

  /** A fill closes at most one group, and then starts the cancellation of the sibling in it. */
  lemma FillMoves(s: System, link: LinkId)
    requires s.registry.Consistent() && GenerationsFollow(s)
    ensures var (next, start) := s.registry.BeginFill(link);
      match start
      case NothingToDo => Fill(s, link) == s.(registry := next)
      case CancelSibling(group, sibling) =>
        && group in s.generations
        && Fill(s, link) == AddTask(s.(registry := next), CancellingSibling(group, link, sibling, s.generations[group]))
        && {link, sibling.clientOrderId} == {TakeProfitLink(group), StopLossLink(group)}
  {
    if s.registry.BeginFill(link).1.CancelSibling? {
      FillCancelsSibling(s.registry, link);
    }
  }

  lemma FillKeepsKeys(s: System, link: LinkId)
    requires s.registry.Consistent()
    ensures var next := s.registry.BeginFill(link).0;
      next.groups.Keys == s.registry.groups.Keys && next.placing == s.registry.placing
  {
  }

  lemma FillStartIsShaped(s: System, n: System, task: Task)
    requires GenerationsFollow(s) && n.generations == s.generations && n.nextGeneration == s.nextGeneration
    requires task.CancellingSibling? && task.group in s.generations && task.generation == s.generations[task.group]
    requires {task.filled, task.sibling.clientOrderId} == {TakeProfitLink(task.group), StopLossLink(task.group)}
    ensures TaskShaped(n, task)
  {
  }

  lemma FillKeepsBookkeeping(s: System, link: LinkId)
    requires Inv(s)
    ensures Bookkeeping(Fill(s, link)) && GenerationsFollow(Fill(s, link))
  {
    var (next, start) := s.registry.BeginFill(link);
    var n := s.(registry := next);
    hide TasksFollow, PlacementsFollow, SuccessIsFinal, Registry.Consistent, Registry.BeginFill, Fill, TaskShaped;
    FillKeepsKeys(s, link);
    FillMoves(s, link);
    BookkeepingFrame(s, n);
    assert GenerationsFollow(n);
    hide GenerationsFollow;
    if start.CancelSibling? {
      var task := CancellingSibling(start.group, link, start.sibling, s.generations[start.group]);
      FillStartIsShaped(s, n, task);
      AddTaskKeeps(n, task);
      assert GenerationsFollow(AddTask(n, task)) by { SameGenerations(n, AddTask(n, task)); }
    }
  }

  lemma SameGenerations(s: System, n: System)
    requires GenerationsFollow(s)
    requires n.generations == s.generations && n.nextGeneration == s.nextGeneration
    requires n.registry.groups.Keys == s.registry.groups.Keys
    requires forall fact :: fact in n.known ==> fact in s.known || fact.0 < s.nextGeneration
    ensures GenerationsFollow(n)
  {
  }

  lemma FillKeepsRegistry(s: System, link: LinkId)
    requires s.registry.Consistent() && GenerationsFollow(s)
    ensures Fill(s, link).registry.Consistent()
  {
    hide Registry.Consistent;
    FillKeepsConsistent(s.registry, link);
    FillMoves(s, link);
  }

  lemma FillKeeps(s: System, link: LinkId)
    requires Inv(s)
    ensures Inv(Fill(s, link))
  {
    hide TasksFollow, PlacementsFollow, SuccessIsFinal, GenerationsFollow, Registry.Consistent, Fill;
    FillKeepsRegistry(s, link);
    FillKeepsBookkeeping(s, link);
  }

  lemma LearnFillKeeps(s: System, link: LinkId)
    requires Inv(s)
    ensures Inv(LearnFill(s, link))
  {
    var n := LearnFill(s, link);
    hide TasksFollow, PlacementsFollow, SuccessIsFinal, Registry.Consistent;
    BookkeepingFrame(s, n);
    SameGenerations(s, n);
  }

  lemma FillLegKeeps(s: System, link: LinkId)
    requires Inv(s)
    ensures Inv(FillLeg(s, link))
  {
    hide Inv, Fill, LearnFill;
    LearnFillKeeps(s, link);
    FillKeeps(LearnFill(s, link), link);
  }

  /** The group that a placement in flight is about to create does not exist yet. */
  lemma PlacedGroupIsNew(s: System, task: nat)
    requires Inv(s) && task in s.tasks && s.tasks[task].PlacingLegs?
    ensures s.tasks[task].group !in s.registry.groups && s.tasks[task].group !in s.generations
  {
    hide PlacementsFollow, SuccessIsFinal;
  }

  /** What was already in flight keeps its shape when a placement ends in a group. */
  lemma CreateKeepsTasks(s: System, task: nat, group: Group)
    requires TasksFollow(s) && PlacementsFollow(s) && GenerationsFollow(s)
    requires task in s.tasks && s.tasks[task] == PlacingLegs(group.groupId)
    ensures TasksFollow(Create(DropTask(s, task), group))
  {
    hide PlacementsFollow, GenerationsFollow, TasksFollow;
    var cleared := DropTask(s.(registry := s.registry.ClearPlacement(group.groupId)), task);
    ClearKeepsOthers(s, task);
    LaterGenerationKeepsTasks(cleared, Create(DropTask(s, task), group), group.groupId);
  }

  lemma LaterGenerationKeepsTasks(s: System, n: System, id: GroupId)
    requires TasksFollow(s)
    requires n.tasks == s.tasks && n.nextTask == s.nextTask && n.registry.placing == s.registry.placing
    requires n.generations == s.generations[id := s.nextGeneration] && n.nextGeneration == s.nextGeneration + 1
    ensures TasksFollow(n)
  {
    forall t | t in n.tasks
      ensures t < n.nextTask && TaskShaped(n, n.tasks[t])
    {
      assert TaskShaped(s, s.tasks[t]);
    }
  }

  lemma CreateKeepsBookkeeping(s: System, task: nat, group: Group)
    requires Bookkeeping(s) && GenerationsFollow(s)
    requires task in s.tasks && s.tasks[task] == PlacingLegs(group.groupId)
    ensures Bookkeeping(Create(DropTask(s, task), group))
  {
    CreateKeepsTasks(s, task, group);
    hide TasksFollow, GenerationsFollow;
  }

  lemma CreateKeepsGenerations(s: System, group: Group)
    requires GenerationsFollow(s)
    ensures GenerationsFollow(Create(s, group))
  {
  }

  lemma NewGenerationIsOnlyHere(s: System, group: Group)
    requires GenerationsFollow(s)
    ensures OnlyAt(Create(s, group), s.nextGeneration, group.groupId)
  {
  }

  lemma CreateKeeps(s: System, task: nat, group: Group)
    requires Inv(s) && task in s.tasks && s.tasks[task] == PlacingLegs(group.groupId)
    requires group == NewGroup(group.groupId, group.takeProfit.symbol, group.takeProfit.orderId, group.stopLeg.orderId)
    ensures Inv(Create(DropTask(s, task), group))
  {
    hide TasksFollow, PlacementsFollow, SuccessIsFinal, GenerationsFollow, Registry.Consistent, NewGroup;
    CreateKeepsConsistent(s.registry, group);
    CreateKeepsBookkeeping(s, task, group);
    assert GenerationsFollow(DropTask(s, task)) by { SameGenerations(s, DropTask(s, task)); }
    CreateKeepsGenerations(DropTask(s, task), group);
  }

  lemma EarlyFillIsShaped(s: System, group: Group, link: LinkId)
    requires GenerationsFollow(s) && s.registry.EarlyFill(group.groupId) == Some(link)
    ensures TaskShaped(Create(s, group), FilledEarly(group.groupId, link, s.nextGeneration))
  {
    NewGenerationIsOnlyHere(s, group);
    hide GenerationsFollow;
  }

  /** A task of the right shape that is not a placement keeps the invariant. */
  lemma AddTaskKeepsInv(s: System, task: Task)
    requires Inv(s) && !task.PlacingLegs? && TaskShaped(s, task)
    ensures Inv(AddTask(s, task))
  {
    hide TasksFollow, PlacementsFollow, SuccessIsFinal, GenerationsFollow, Registry.Consistent, TaskShaped;
    AddTaskKeeps(s, task);
    SameGenerations(s, AddTask(s, task));
  }

  lemma PlaceLegsKeeps(s: System, task: nat, symbol: string, takeProfitOrderId: string, stopLossOrderId: string)
    requires Inv(s)
    ensures Inv(PlaceLegs(s, task, symbol, takeProfitOrderId, stopLossOrderId))
  {
    hide Inv, Create, TaskShaped, Registry.EarlyFill;
    if task in s.tasks && s.tasks[task].PlacingLegs? {
      var id := s.tasks[task].group;
      var group := NewGroup(id, symbol, takeProfitOrderId, stopLossOrderId);
      CreateKeeps(s, task, group);
      if s.registry.EarlyFill(id).Some? {
        DropKeeps(s, task);
        InvHasGenerations(DropTask(s, task));
        EarlyFillIsShaped(DropTask(s, task), group, s.registry.EarlyFill(id).value);
        AddTaskKeepsInv(Create(DropTask(s, task), group),
                        FilledEarly(id, s.registry.EarlyFill(id).value, s.nextGeneration));
      }
    }
  }

  lemma InvHasGenerations(s: System)
    requires Inv(s)
    ensures GenerationsFollow(s) && s.registry.Consistent()
  {
  }

  lemma RemoveKeepsGenerations(s: System, learnt: System, id: GroupId, next: Registry)
    requires GenerationsFollow(s)
    requires learnt == s.(known := learnt.known, succeeded := learnt.succeeded)
    requires forall fact :: fact in learnt.known ==> fact.0 < s.nextGeneration
    requires next == if id in s.registry.groups then s.registry.RemoveGroup(id) else s.registry
    ensures GenerationsFollow(Remove(learnt, next, id))
  {
  }

  lemma RemoveKeepsBookkeeping(s: System, learnt: System, id: GroupId, next: Registry)
    requires Bookkeeping(s) && s.generations.Keys == s.registry.groups.Keys
    requires learnt == s.(known := learnt.known, succeeded := learnt.succeeded)
    requires forall g :: g in learnt.succeeded ==> g < s.nextGeneration && (g in s.succeeded || OnlyAt(s, g, id))
    requires next == if id in s.registry.groups then s.registry.RemoveGroup(id) else s.registry
    ensures Bookkeeping(Remove(learnt, next, id))
  {
    var n := Remove(learnt, next, id);
    assert id !in n.generations;
    BookkeepingFrame(s, n.(succeeded := s.succeeded));
    assert SuccessIsFinal(n) by {
      hide TasksFollow, PlacementsFollow;
    }
    assert TasksFollow(n);
    hide SuccessIsFinal, TasksFollow;
  }

  /** Removing a group takes its generation out for good. */
  lemma RemoveKeeps(s: System, learnt: System, id: GroupId, next: Registry)
    requires Inv(s)
    requires learnt == s.(known := learnt.known, succeeded := learnt.succeeded)
    requires forall fact :: fact in learnt.known ==> fact.0 < s.nextGeneration
    requires forall g :: g in learnt.succeeded ==> g < s.nextGeneration && (g in s.succeeded || OnlyAt(s, g, id))
    requires next == if id in s.registry.groups then s.registry.RemoveGroup(id) else s.registry
    ensures Inv(Remove(learnt, next, id))
  {
    hide TasksFollow, PlacementsFollow, SuccessIsFinal, GenerationsFollow, Registry.Consistent, OnlyAt;
    if id in s.registry.groups {
      RemovalKeepsConsistent(s.registry, id);
    }
    RemoveKeepsGenerations(s, learnt, id, next);
    KeysAreGroups(s);
    RemoveKeepsBookkeeping(s, learnt, id, next);
  }

  lemma KeysAreGroups(s: System)
    requires GenerationsFollow(s)
    ensures s.generations.Keys == s.registry.groups.Keys
  {
  }

  lemma DropKeeps(s: System, task: nat)
    requires Inv(s)
    ensures Inv(DropTask(s, task))
  {
    hide TasksFollow, PlacementsFollow, SuccessIsFinal, GenerationsFollow, Registry.Consistent;
    BookkeepingFrame(s, DropTask(s, task));
    SameGenerations(s, DropTask(s, task));
  }

  lemma RefuseKeeps(s: System, group: GroupId, error: string)
    requires Inv(s)
    ensures Inv(Refuse(s, group, error))
  {
    hide TasksFollow, PlacementsFollow, SuccessIsFinal, GenerationsFollow, Registry.Consistent;
    var n := Refuse(s, group, error);
    EndsKeepConsistent(s.registry, group, Some(error), NewGroup(group, "", "", ""));
    BookkeepingFrame(s, n);
    SameGenerations(s, n);
  }

  lemma KnownIsOld(s: System)
    requires Inv(s)
    ensures forall fact :: fact in s.known ==> fact.0 < s.nextGeneration
    ensures forall g :: g in s.succeeded ==> g < s.nextGeneration
    ensures forall task :: task in s.tasks ==> TaskShaped(s, s.tasks[task])
  {
  }

  lemma RemoveFilledKeeps(s: System, t: Task)
    requires Inv(s) && t.CancellingSibling? && TaskShaped(s, t)
    ensures Inv(RemoveFilled(s, t))
  {
    hide Inv, OnlyAt;
    KnownIsOld(s);
    RemoveKeeps(s, LearnSibling(s, t), t.group, s.registry.EndFill(t.group, None));
  }

  lemma AnswerSiblingKeeps(s: System, task: nat, cancelError: Option<string>)
    requires Inv(s)
    ensures Inv(AnswerSibling(s, task, cancelError))
  {
    hide Inv, TaskShaped, Refuse, RemoveFilled;
    if task in s.tasks && s.tasks[task].CancellingSibling? {
      match cancelError
      case Some(error) =>
        RefuseKeeps(s, s.tasks[task].group, error);
        DropKeeps(Refuse(s, s.tasks[task].group, error), task);
      case None =>
        KnownIsOld(s);
        RemoveFilledKeeps(s, s.tasks[task]);
        DropKeeps(RemoveFilled(s, s.tasks[task]), task);
    }
  }

  lemma LearnLegsKeeps(s: System, t: Task, takeProfitDone: bool, stopLossDone: bool)
    requires Inv(s) && t.CancellingGroup? && t.generation < s.nextGeneration
    ensures Inv(LearnLegs(s, t, takeProfitDone, stopLossDone))
  {
    hide TasksFollow, PlacementsFollow, SuccessIsFinal, GenerationsFollow, Registry.Consistent;
    var n := LearnLegs(s, t, takeProfitDone, stopLossDone);
    BookkeepingFrame(s, n);
    SameGenerations(s, n);
  }

  lemma GroupRemovalKeeps(s: System, t: Task)
    requires Inv(s) && t.CancellingGroup? && TaskShaped(s, t)
    ensures Inv(Remove(LearnLegs(s, t, true, true), s.registry.EndCancel(t.copy, t.copy.groupId), t.copy.groupId))
  {
    hide Inv, OnlyAt, Remove, Registry.Consistent;
    InvHasGenerations(s);
    KnownIsOld(s);
    EndsKeepConsistent(s.registry, t.copy.groupId, None, t.copy);
    RemoveKeeps(s, LearnLegs(s, t, true, true), t.copy.groupId, s.registry.EndCancel(t.copy, t.copy.groupId));
  }

  lemma AnswerGroupKeeps(s: System, task: nat, takeProfitDone: bool, stopLossDone: bool)
    requires Inv(s)
    ensures Inv(AnswerGroup(s, task, takeProfitDone, stopLossDone))
  {
    hide Inv, LearnLegs, Remove;
    if task in s.tasks && s.tasks[task].CancellingGroup? {
      var t := s.tasks[task];
      KnownIsOld(s);
      if takeProfitDone && stopLossDone {
        GroupRemovalKeeps(s, t);
        DropKeeps(Remove(LearnLegs(s, t, true, true), s.registry.EndCancel(t.copy, t.copy.groupId), t.copy.groupId),
                  task);
      } else {
        LearnLegsKeeps(s, t, takeProfitDone, stopLossDone);
        DropKeeps(LearnLegs(s, t, takeProfitDone, stopLossDone), task);
      }
    }
  }

  lemma CancelIsShaped(s: System, group: GroupId)
    requires s.registry.Consistent() && GenerationsFollow(s) && group in s.registry.groups
    ensures group in s.generations
    ensures TaskShaped(s, CancellingGroup(s.registry.groups[group], s.generations[group]))
  {
  }

  lemma StartCancelKeeps(s: System, group: GroupId)
    requires Inv(s)
    ensures Inv(StartCancel(s, group))
  {
    hide Inv, TaskShaped, Registry.Consistent, GenerationsFollow;
    if group in s.registry.groups && group in s.generations {
      InvHasGenerations(s);
      CancelIsShaped(s, group);
      AddTaskKeepsInv(s, CancellingGroup(s.registry.groups[group], s.generations[group]));
    }
  }

  lemma ProcessEarlyKeeps(s: System, task: nat)
    requires Inv(s)
    ensures Inv(ProcessEarly(s, task))
  {
    hide Inv, Fill;
    if task in s.tasks && s.tasks[task].FilledEarly? {
      DropKeeps(s, task);
      FillKeeps(DropTask(s, task), s.tasks[task].link);
    }
  }

  lemma EventKeeps(s: System, event: Event)
    requires Inv(s)
    ensures Inv(Apply(s, event))
  {
    hide Inv, StartPlacing, FailPlacing, PlaceLegs, ProcessEarly, FillLeg, AnswerSibling, StartCancel, AnswerGroup;
    match event
    case StartPlacement(group) => StartPlacingKeeps(s, group);
    case FailPlacement(task) => FailPlacingKeeps(s, task);
    case LegsPlaced(task, symbol, takeProfitOrderId, stopLossOrderId) =>
      PlaceLegsKeeps(s, task, symbol, takeProfitOrderId, stopLossOrderId);
    case ProcessEarlyFill(task) => ProcessEarlyKeeps(s, task);
    case LegFilled(link) => FillLegKeeps(s, link);
    case SiblingAnswered(task, cancelError) => AnswerSiblingKeeps(s, task, cancelError);
    case StartGroupCancel(group) => StartCancelKeeps(s, group);
    case GroupAnswered(task, takeProfitDone, stopLossDone) => AnswerGroupKeeps(s, task, takeProfitDone, stopLossDone);
  }

  /** Whatever is placed, filled, answered or cancelled, and in whatever order: the registry's indexes
      stay consistent, placements in flight own their links, and a group whose sibling cancellation
      succeeded is gone. */
  lemma {:induction false} RegistryStaysConsistent(s: System, events: seq<Event>)
    requires Inv(s)
    ensures Inv(Run(s, events))
    decreases |events|
  {
    hide Inv, Apply;
    if events != [] {
      EventKeeps(s, events[0]);
      RegistryStaysConsistent(Apply(s, events[0]), events[1..]);
    }
  }
}
