/** Removal safety of the OCO registry: exactly when a group leaves it only after both of its legs are
    accounted for. */
module BybitOcoRemoval {
  import opened Domain
  import opened BybitOcoState
  import opened BybitOcoProtocol
  import opened BybitOcoTheorems

  // ---- Frames ----

  lemma FreshFrame(s: System, n: System)
    requires Fresh(s)
    requires n.tasks.Keys <= s.tasks.Keys && (forall t :: t in n.tasks ==> n.tasks[t] == s.tasks[t])
    requires n.generations.Keys <= s.generations.Keys
    requires forall id :: id in n.generations ==> n.generations[id] == s.generations[id]
    requires forall id :: id in n.registry.groups ==> id in s.registry.groups
    requires forall id :: id in n.registry.groups && s.registry.groups[id].closing ==> n.registry.groups[id].closing
    requires s.known <= n.known && n.unjustified == s.unjustified
    ensures Fresh(n)
  {
  }

  /** A task on a group that no placement and no other sibling cancellation is working on. */
  lemma AddTaskKeepsFresh(s: System, task: Task)
    requires Fresh(s) && TasksFollow(s) && TaskCurrent(s, task)
    requires forall t :: t in s.tasks && (s.tasks[t].PlacingLegs? || task.PlacingLegs?) ==>
              GroupOf(s.tasks[t]) != GroupOf(task)
    requires task.CancellingSibling? ==>
               forall t :: t in s.tasks && s.tasks[t].CancellingSibling? ==> GroupOf(s.tasks[t]) != GroupOf(task)
    ensures Fresh(AddTask(s, task))
  {
    hide TaskShaped;
    var n := AddTask(s, task);
    forall t | t in n.tasks ensures TaskCurrent(n, n.tasks[t]) {
      assert t in s.tasks ==> TaskCurrent(s, s.tasks[t]);
    }
  }

  // ---- Events ----

  lemma PlacementsAreNotGroups(s: System, t: nat)
    requires Inv(s) && t in s.tasks && s.tasks[t].PlacingLegs?
    ensures s.tasks[t].group !in s.registry.groups && s.registry.PlacementConflicts(s.tasks[t].group)
  {
    hide PlacementsFollow, SuccessIsFinal, GenerationsFollow, Registry.Consistent;
    PlacedGroupIsNew(s, t);
  }

  lemma StartPlacingIsAlone(s: System, group: GroupId)
    requires Inv(s) && IsCareful(s, StartPlacement(group)) && s.registry.RegisterPlacement(group).Ok?
    ensures PlacementIsSafe(s, group)
    ensures TasksFollow(s.(registry := s.registry.RegisterPlacement(group).value))
  {
  }

  lemma StartPlacingKeepsFresh(s: System, group: GroupId)
    requires Inv(s) && Fresh(s) && IsCareful(s, StartPlacement(group))
    ensures Fresh(StartPlacing(s, group))
  {
    hide Inv, Fresh, IsCareful, TasksFollow;
    if s.registry.RegisterPlacement(group).Ok? {
      StartPlacingIsAlone(s, group);
      var n := s.(registry := s.registry.RegisterPlacement(group).value);
      FreshFrame(s, n);
      AddTaskKeepsFresh(n, PlacingLegs(group));
    }
  }

  lemma FillKeepsClosing(r: Registry, link: LinkId)
    requires r.Consistent()
    ensures var next := r.BeginFill(link).0;
      && next.groups.Keys == r.groups.Keys && next.placing == r.placing
      && (forall id :: id in r.groups && r.groups[id].closing ==> next.groups[id].closing)
  {
  }

  lemma FillBeginsFresh(s: System, link: LinkId)
    requires Inv(s) && Fresh(s)
    ensures var n := s.(registry := s.registry.BeginFill(link).0);
      Fresh(n) && TasksFollow(n)
  {
    var n := s.(registry := s.registry.BeginFill(link).0);
    hide Fresh, TasksFollow, PlacementsFollow, SuccessIsFinal, GenerationsFollow, Registry.Consistent;
    hide Registry.BeginFill;
    FillKeepsClosing(s.registry, link);
    FreshFrame(s, n);
    BookkeepingFrame(s, n);
  }

  /** The sibling cancellation that a fill starts is the only work on its group that excludes others. */
  lemma FillStartIsCurrent(s: System, link: LinkId)
    requires Inv(s) && Fresh(s) && s.registry.BeginFill(link).1.CancelSibling?
    requires link in s.registry.legToGroup && s.registry.legToGroup[link] in s.generations ==>
               (s.generations[s.registry.legToGroup[link]], link) in s.known
    ensures var (next, start) := s.registry.BeginFill(link);
      && start.group in s.generations
      && TaskCurrent(s.(registry := next),
                     CancellingSibling(start.group, link, start.sibling, s.generations[start.group]))
      && (forall t :: t in s.tasks && (s.tasks[t].PlacingLegs? || s.tasks[t].CancellingSibling?) ==>
            GroupOf(s.tasks[t]) != start.group)
  {
    hide Inv, GenerationsFollow, OneCancellationEach, Registry.Consistent, Registry.PlacementConflicts;
    InvHasGenerations(s);
    KeysAreGroups(s);
    var group := s.registry.BeginFill(link).1.group;
    forall t | t in s.tasks && (s.tasks[t].PlacingLegs? || s.tasks[t].CancellingSibling?)
      ensures GroupOf(s.tasks[t]) != group
    {
      assert TaskCurrent(s, s.tasks[t]);
      if s.tasks[t].PlacingLegs? {
        PlacementsAreNotGroups(s, t);
      }
    }
  }

  lemma FillKeepsFresh(s: System, link: LinkId)
    requires Inv(s) && Fresh(s)
    requires link in s.registry.legToGroup && s.registry.legToGroup[link] in s.generations ==>
               (s.generations[s.registry.legToGroup[link]], link) in s.known
    ensures Fresh(Fill(s, link))
  {
    hide Inv, Fresh, Fill, TaskCurrent, TasksFollow, GenerationsFollow, Registry.Consistent, Registry.BeginFill;
    var (next, start) := s.registry.BeginFill(link);
    InvHasGenerations(s);
    FillMoves(s, link);
    FillBeginsFresh(s, link);
    if start.CancelSibling? {
      FillStartIsCurrent(s, link);
      AddTaskKeepsFresh(s.(registry := next),
                        CancellingSibling(start.group, link, start.sibling, s.generations[start.group]));
    }
  }

  lemma CreateKeepsFresh(s: System, task: nat, group: Group)
    requires Inv(s) && Fresh(s)
    requires task in s.tasks && s.tasks[task] == PlacingLegs(group.groupId)
    ensures Fresh(Create(DropTask(s, task), group))
    ensures PlacementIsSafe(Create(DropTask(s, task), group), group.groupId)
  {
    var n := Create(DropTask(s, task), group);
    hide Inv;
    forall t | t in n.tasks
      ensures TaskCurrent(n, n.tasks[t])
    {
      assert TaskCurrent(s, s.tasks[t]) && GroupOf(s.tasks[t]) != group.groupId;
    }
  }

  lemma EarlyFillIsCurrent(s: System, group: Group, link: LinkId)
    requires s.registry.EarlyFill(group.groupId) == Some(link)
    ensures TaskCurrent(Create(s, group), FilledEarly(group.groupId, link, s.nextGeneration))
  {
  }

  lemma PlaceLegsKeepsFresh(s: System, task: nat, symbol: string, takeProfitOrderId: string, stopLossOrderId: string)
    requires Inv(s) && Fresh(s)
    ensures Fresh(PlaceLegs(s, task, symbol, takeProfitOrderId, stopLossOrderId))
  {
    hide Inv, Fresh, Create, TaskCurrent, Registry.EarlyFill;
    if task in s.tasks && s.tasks[task].PlacingLegs? {
      var id := s.tasks[task].group;
      var group := NewGroup(id, symbol, takeProfitOrderId, stopLossOrderId);
      var n := Create(DropTask(s, task), group);
      CreateKeepsFresh(s, task, group);
      CreateKeeps(s, task, group);
      if s.registry.EarlyFill(id).Some? {
        EarlyFillIsCurrent(DropTask(s, task), group, s.registry.EarlyFill(id).value);
        InvHasTasks(n);
        AddTaskKeepsFresh(n, FilledEarly(id, s.registry.EarlyFill(id).value, s.nextGeneration));
      }
    }
  }

  lemma InvHasTasks(s: System)
    requires Inv(s)
    ensures TasksFollow(s)
  {
  }

  /** A group that leaves while its generation is fully known leaves nothing unjustified. */
  lemma RemoveKeepsFresh(s: System, learnt: System, id: GroupId, next: Registry)
    requires Inv(s) && Fresh(s)
    requires learnt == s.(known := learnt.known, succeeded := learnt.succeeded) && s.known <= learnt.known
    requires id in s.generations ==> FullyKnown(learnt, id)
    requires next == if id in s.registry.groups then s.registry.RemoveGroup(id) else s.registry
    ensures Fresh(Remove(learnt, next, id))
  {
    hide TasksFollow, PlacementsFollow, SuccessIsFinal, Registry.Consistent;
    var n := Remove(learnt, next, id);
    assert n.unjustified == s.unjustified;
    FreshFrame(s, n);
    hide *;
  }

  lemma DropKeepsFresh(s: System, task: nat)
    requires Fresh(s)
    ensures Fresh(DropTask(s, task))
  {
    FreshFrame(s, DropTask(s, task));
  }

  lemma RefuseKeepsFresh(s: System, task: nat, error: string)
    requires Fresh(s) && task in s.tasks && s.tasks[task].CancellingSibling?
    ensures Fresh(DropTask(Refuse(s, s.tasks[task].group, error), task))
  {
    var n := DropTask(Refuse(s, s.tasks[task].group, error), task);
    forall t | t in n.tasks
      ensures TaskCurrent(n, n.tasks[t])
    {
      assert TaskCurrent(s, s.tasks[t]);
    }
  }

  lemma RemoveFilledKeepsFresh(s: System, task: nat)
    requires Inv(s) && Fresh(s) && task in s.tasks && s.tasks[task].CancellingSibling?
    ensures Fresh(DropTask(RemoveFilled(s, s.tasks[task]), task))
  {
    hide Inv, Fresh, Remove;
    var t := s.tasks[task];
    KnownIsOld(s);
    FreshHasTask(s, task);
    assert TakeProfitLink(t.group) in {t.filled, t.sibling.clientOrderId};
    assert StopLossLink(t.group) in {t.filled, t.sibling.clientOrderId};
    RemoveKeepsFresh(s, LearnSibling(s, t), t.group, s.registry.EndFill(t.group, None));
    DropKeepsFresh(RemoveFilled(s, t), task);
  }

  lemma FreshHasTask(s: System, task: nat)
    requires Fresh(s) && task in s.tasks
    ensures TaskCurrent(s, s.tasks[task])
  {
  }

  lemma LearnLegsKeepsFresh(s: System, t: Task, takeProfitDone: bool, stopLossDone: bool)
    requires Fresh(s) && t.CancellingGroup?
    ensures Fresh(LearnLegs(s, t, takeProfitDone, stopLossDone))
  {
    hide Fresh;
    FreshFrame(s, LearnLegs(s, t, takeProfitDone, stopLossDone));
  }

  lemma GroupRemovalKeepsFresh(s: System, task: nat)
    requires Inv(s) && Fresh(s) && task in s.tasks && s.tasks[task].CancellingGroup?
    ensures var copy := s.tasks[task].copy;
      Fresh(Remove(LearnLegs(s, s.tasks[task], true, true), s.registry.EndCancel(copy, copy.groupId), copy.groupId))
  {
    hide Inv, Fresh, Remove, Registry.Consistent, Registry.EndCancel, GenerationsFollow;
    var t := s.tasks[task];
    InvHasGenerations(s);
    KnownIsOld(s);
    FreshHasTask(s, task);
    EndsKeepConsistent(s.registry, t.copy.groupId, None, t.copy);
    assert t.copy.groupId !in s.registry.groups ==> s.registry.EndCancel(t.copy, t.copy.groupId) == s.registry by {
      UnknownGroupStays(s.registry, t.copy);
    }
    RemoveKeepsFresh(s, LearnLegs(s, t, true, true), t.copy.groupId, s.registry.EndCancel(t.copy, t.copy.groupId));
  }

  lemma UnknownGroupStays(r: Registry, copy: Group)
    ensures copy.groupId !in r.groups ==> r.EndCancel(copy, copy.groupId) == r
  {
  }

  lemma AnswerGroupKeepsFresh(s: System, task: nat, takeProfitDone: bool, stopLossDone: bool)
    requires Inv(s) && Fresh(s)
    ensures Fresh(AnswerGroup(s, task, takeProfitDone, stopLossDone))
  {
    hide Inv, Fresh, LearnLegs, Remove;
    if task in s.tasks && s.tasks[task].CancellingGroup? {
      var t := s.tasks[task];
      if takeProfitDone && stopLossDone {
        GroupRemovalKeepsFresh(s, task);
        DropKeepsFresh(Remove(LearnLegs(s, t, true, true), s.registry.EndCancel(t.copy, t.copy.groupId),
                              t.copy.groupId), task);
      } else {
        LearnLegsKeepsFresh(s, t, takeProfitDone, stopLossDone);
        DropKeepsFresh(LearnLegs(s, t, takeProfitDone, stopLossDone), task);
      }
    }
  }

  lemma CancelIsCurrent(s: System, group: GroupId)
    requires Inv(s) && group in s.registry.groups && group in s.generations
    ensures s.registry.groups[group].groupId == group
    ensures TaskCurrent(s, CancellingGroup(s.registry.groups[group], s.generations[group]))
    ensures forall t :: t in s.tasks && s.tasks[t].PlacingLegs? ==> s.tasks[t].group != group
    ensures TasksFollow(s)
  {
    InvHasGenerations(s);
    hide PlacementsFollow, SuccessIsFinal, TaskShaped, GenerationsFollow;
    forall t | t in s.tasks && s.tasks[t].PlacingLegs?
      ensures s.tasks[t].group != group
    {
      PlacementsAreNotGroups(s, t);
    }
  }

  lemma StartCancelKeepsFresh(s: System, group: GroupId)
    requires Inv(s) && Fresh(s)
    ensures Fresh(StartCancel(s, group))
  {
    hide Inv, Fresh, TaskCurrent, TasksFollow;
    if group in s.registry.groups && group in s.generations {
      CancelIsCurrent(s, group);
      AddTaskKeepsFresh(s, CancellingGroup(s.registry.groups[group], s.generations[group]));
    }
  }

  lemma LearnFillKeepsFresh(s: System, link: LinkId)
    requires Fresh(s)
    ensures Fresh(LearnFill(s, link))
  {
    hide Fresh;
    FreshFrame(s, LearnFill(s, link));
  }

  lemma FillLegKeepsFresh(s: System, link: LinkId)
    requires Inv(s) && Fresh(s)
    ensures Fresh(FillLeg(s, link))
  {
    hide Inv, Fresh, Fill;
    LearnFillKeeps(s, link);
    LearnFillKeepsFresh(s, link);
    FillKeepsFresh(LearnFill(s, link), link);
  }

  lemma EarlyFillIsKnown(s: System, task: nat)
    requires Inv(s) && Fresh(s) && task in s.tasks && s.tasks[task].FilledEarly?
    requires s.tasks[task].link in s.registry.legToGroup
    ensures var group := s.registry.legToGroup[s.tasks[task].link];
      && group == s.tasks[task].group
      && (group in s.generations ==> (s.generations[group], s.tasks[task].link) in s.known)
  {
    InvHasGenerations(s);
    KnownIsOld(s);
    FreshHasTask(s, task);
    hide Inv, Fresh, GenerationsFollow;
    var link := s.tasks[task].link;
    LinksAreDistinct(s.registry.legToGroup[link], s.tasks[task].group);
    LinksAreDistinct(s.tasks[task].group, s.registry.legToGroup[link]);
  }

  lemma ProcessEarlyKeepsFresh(s: System, task: nat)
    requires Inv(s) && Fresh(s)
    ensures Fresh(ProcessEarly(s, task))
  {
    hide Inv, Fresh, Fill;
    if task in s.tasks && s.tasks[task].FilledEarly? {
      var link := s.tasks[task].link;
      DropKeeps(s, task);
      DropKeepsFresh(s, task);
      if link in s.registry.legToGroup {
        EarlyFillIsKnown(s, task);
      }
      FillKeepsFresh(DropTask(s, task), link);
    }
  }

  lemma FailPlacingKeepsFresh(s: System, task: nat)
    requires Fresh(s)
    ensures Fresh(FailPlacing(s, task))
  {
    hide Fresh;
    FreshFrame(s, FailPlacing(s, task));
  }

  lemma AnswerSiblingKeepsFresh(s: System, task: nat, cancelError: Option<string>)
    requires Inv(s) && Fresh(s)
    ensures Fresh(AnswerSibling(s, task, cancelError))
  {
    hide Inv, Fresh, Refuse, RemoveFilled;
    if task in s.tasks && s.tasks[task].CancellingSibling? {
      match cancelError
      case Some(error) => RefuseKeepsFresh(s, task, error);
      case None => RemoveFilledKeepsFresh(s, task);
    }
  }

  lemma CarefulEventKeepsFresh(s: System, event: Event)
    requires Inv(s) && Fresh(s) && IsCareful(s, event)
    ensures Fresh(Apply(s, event))
  {
    hide Inv, Fresh, IsCareful;
    hide StartPlacing, FailPlacing, PlaceLegs, ProcessEarly, FillLeg, AnswerSibling, StartCancel, AnswerGroup;
    match event
    case StartPlacement(group) => StartPlacingKeepsFresh(s, group);
    case FailPlacement(task) => FailPlacingKeepsFresh(s, task);
    case LegsPlaced(task, symbol, takeProfitOrderId, stopLossOrderId) =>
      PlaceLegsKeepsFresh(s, task, symbol, takeProfitOrderId, stopLossOrderId);
    case ProcessEarlyFill(task) => ProcessEarlyKeepsFresh(s, task);
    case LegFilled(link) => FillLegKeepsFresh(s, link);
    case SiblingAnswered(task, cancelError) => AnswerSiblingKeepsFresh(s, task, cancelError);
    case StartGroupCancel(group) => StartCancelKeepsFresh(s, group);
    case GroupAnswered(task, takeProfitDone, stopLossDone) =>
      AnswerGroupKeepsFresh(s, task, takeProfitDone, stopLossDone);
  }

  // ---- Main results ----

  /** Over every run that never places a group while an earlier operation on the same id is in flight:
      a group leaves only when each leg is known filled, seen terminal or had its cancellation accepted;
      at most one fill-triggered cancellation is in flight for a group; and whatever is in flight works
      on the group it was started for. */
  lemma {:induction false} CarefulRunsAreJustified(s: System, events: seq<Event>)
    requires Inv(s) && Fresh(s) && Careful(s, events)
    ensures Fresh(Run(s, events))
    decreases |events|
  {
    hide Inv, Fresh;
    if events != [] {
      EventKeeps(s, events[0]);
      CarefulEventKeepsFresh(s, events[0]);
      CarefulRunsAreJustified(Apply(s, events[0]), events[1..]);
    }
  }

  /** In every run whatsoever, no fill asks for a cancellation in a group whose sibling was already
      cancelled after a fill. */
  lemma NoCancellationAfterSuccess(s: System, events: seq<Event>, link: LinkId)
    requires Inv(s)
    ensures var n := Run(s, events);
      && n.registry.Consistent()
      && (n.registry.BeginFill(link).1.CancelSibling? ==>
            var group := n.registry.BeginFill(link).1.group;
            group in n.generations && n.generations[group] !in n.succeeded)
  {
    RegistryStaysConsistent(s, events);
  }

  /** A reopened group keeps its legs, and a fill of either one asks for the other one's cancellation. */
  lemma ReopenedGroupAnswers(r: Registry, id: GroupId, error: string, link: LinkId)
    requires r.Consistent() && id in r.groups && IsLinkOf(link, id)
    ensures var next := r.EndFill(id, Some(error));
      && next.groups.Keys == r.groups.Keys && next.legToGroup == r.legToGroup
      && next.groups[id].lastError == error
      && next.BeginFill(link).1.CancelSibling? && next.BeginFill(link).1.group == id
      && next.BeginFill(link).1.sibling.clientOrderId != link
  {
    LinksAreDistinct(id, id);
  }

  /** A refused cancellation leaves the group and both of its leg entries, open for a retry: the next fill
      of either leg asks again for the cancellation of the other one. */
  lemma RefusedCancellationCanBeRetried(s: System, task: nat, error: string, link: LinkId)
    requires Inv(s) && task in s.tasks && s.tasks[task].CancellingSibling?
    requires s.tasks[task].group in s.registry.groups && IsLinkOf(link, s.tasks[task].group)
    ensures var n := Apply(s, SiblingAnswered(task, Some(error))); var group := s.tasks[task].group;
      && n.registry.groups.Keys == s.registry.groups.Keys && n.registry.legToGroup == s.registry.legToGroup
      && n.registry.groups[group].lastError == error
      && n.registry.BeginFill(link).1.CancelSibling? && n.registry.BeginFill(link).1.group == group
      && n.registry.BeginFill(link).1.sibling.clientOrderId != link
  {
    hide Inv, IsLinkOf, Registry.EndFill, Registry.BeginFill, Registry.Consistent, GenerationsFollow;
    InvHasGenerations(s);
    ReopenedGroupAnswers(s.registry, s.tasks[task].group, error, link);
    assert Apply(s, SiblingAnswered(task, Some(error))).registry
       == s.registry.EndFill(s.tasks[task].group, Some(error));
  }

  // ---- The condition on placements is exact ----

  /** What the placed group looks like when nothing was filled early: a new generation about which
      nothing is known, beside the older operation `task` on the same id. */
  predicate Reused(s: System, group: GroupId, task: nat) {
    && group in s.registry.groups && group in s.generations && !s.registry.groups[group].closing
    && s.registry.groups[group] == NewGroup(group, "", "", "")
    && s.registry.legToGroup.Keys >= {TakeProfitLink(group), StopLossLink(group)}
    && s.registry.legToGroup[TakeProfitLink(group)] == group && s.registry.legToGroup[StopLossLink(group)] == group
    && (s.generations[group], TakeProfitLink(group)) !in s.known
    && (s.generations[group], StopLossLink(group)) !in s.known
    && task in s.tasks && !s.tasks[task].PlacingLegs? && GroupOf(s.tasks[task]) == group
    && TaskShaped(s, s.tasks[task]) && s.tasks[task].generation < s.generations[group]
  }

  /** The state in which the new group is created: its placement came and went. */
  function PlacedMeanwhile(s: System, group: GroupId): System
    requires !s.registry.PlacementConflicts(group)
  {
    DropTask(AddTask(s.(registry := s.registry.RegisterPlacement(group).value), PlacingLegs(group)), s.nextTask)
  }

  lemma PlacementGoesThrough(s: System, group: GroupId)
    requires !s.registry.PlacementConflicts(group) && s.registry.pendingFilled <= s.registry.placing
    ensures Run(Apply(s, StartPlacement(group)), [LegsPlaced(s.nextTask, "", "", "")])
         == Create(PlacedMeanwhile(s, group), NewGroup(group, "", "", ""))
  {
    hide Run, AddTask, DropTask, Create, NewGroup;
    OneEvent(Apply(s, StartPlacement(group)), LegsPlaced(s.nextTask, "", "", ""));
    AddedTask(s.(registry := s.registry.RegisterPlacement(group).value), PlacingLegs(group));
    assert s.registry.RegisterPlacement(group).value.EarlyFill(group) == None;
  }

  lemma AddedTask(s: System, task: Task)
    ensures AddTask(s, task).registry == s.registry
    ensures s.nextTask in AddTask(s, task).tasks && AddTask(s, task).tasks[s.nextTask] == task
  {
  }

  lemma MeanwhileNothingElse(s: System, group: GroupId, task: nat)
    requires Inv(s) && !s.registry.PlacementConflicts(group) && task in s.tasks
    ensures var n := PlacedMeanwhile(s, group);
      && n.registry == s.registry.RegisterPlacement(group).value
      && TakeProfitLink(group) !in n.registry.pendingFilled && StopLossLink(group) !in n.registry.pendingFilled
      && n.generations == s.generations && n.nextGeneration == s.nextGeneration && n.known == s.known
      && task in n.tasks && n.tasks[task] == s.tasks[task]
  {
  }

  lemma CreatedGroupIsNew(s: System, group: GroupId)
    requires TakeProfitLink(group) !in s.registry.pendingFilled && StopLossLink(group) !in s.registry.pendingFilled
    requires forall fact :: fact in s.known ==> fact.0 < s.nextGeneration
    ensures var n := Create(s, NewGroup(group, "", "", ""));
      && group in n.registry.groups && group in n.generations
      && n.registry.groups[group] == NewGroup(group, "", "", "")
      && n.registry.legToGroup.Keys >= {TakeProfitLink(group), StopLossLink(group)}
      && n.registry.legToGroup[TakeProfitLink(group)] == group && n.registry.legToGroup[StopLossLink(group)] == group
      && n.generations[group] == s.nextGeneration && n.nextGeneration == s.nextGeneration + 1 && n.tasks == s.tasks
      && (s.nextGeneration, TakeProfitLink(group)) !in n.known && (s.nextGeneration, StopLossLink(group)) !in n.known
  {
    LinksAreDistinct(group, group);
  }

  /** A task keeps its shape over the creation of a later generation of its group. */
  lemma OlderTaskKeepsShape(s: System, n: System, group: GroupId, task: Task)
    requires TaskShaped(s, task) && !task.PlacingLegs? && GroupOf(task) == group
    requires n.generations == s.generations[group := s.nextGeneration] && n.nextGeneration == s.nextGeneration + 1
    ensures TaskShaped(n, task)
  {
  }

  lemma PlacementReuses(s: System, group: GroupId, task: nat)
    requires Inv(s) && !s.registry.PlacementConflicts(group)
    requires task in s.tasks && GroupOf(s.tasks[task]) == group
    ensures Reused(Run(Apply(s, StartPlacement(group)), [LegsPlaced(s.nextTask, "", "", "")]), group, task)
  {
    hide Inv, Apply, Run, Create, PlacedMeanwhile, TaskShaped, Registry.Consistent, GenerationsFollow;
    InvHasGenerations(s);
    KnownIsOld(s);
    var meanwhile := PlacedMeanwhile(s, group);
    var n := Create(meanwhile, NewGroup(group, "", "", ""));
    PendingIsPlacing(s.registry);
    PlacementGoesThrough(s, group);
    MeanwhileNothingElse(s, group, task);
    CreatedGroupIsNew(meanwhile, group);
    assert n.generations == s.generations[group := s.nextGeneration] by { CreatedGenerations(meanwhile, group); }
    NoPlacementInFlight(s, group, task);
    OlderTaskKeepsShape(s, n, group, s.tasks[task]);
    OlderTaskIsOlder(s, s.tasks[task]);
  }

  lemma PendingIsPlacing(r: Registry)
    requires r.Consistent()
    ensures r.pendingFilled <= r.placing
  {
  }

  lemma CreatedGenerations(s: System, group: GroupId)
    ensures Create(s, NewGroup(group, "", "", "")).generations == s.generations[group := s.nextGeneration]
  {
  }

  lemma NoPlacementInFlight(s: System, group: GroupId, task: nat)
    requires Inv(s) && !s.registry.PlacementConflicts(group)
    requires task in s.tasks && GroupOf(s.tasks[task]) == group
    ensures !s.tasks[task].PlacingLegs?
  {
    hide PlacementsFollow, SuccessIsFinal, GenerationsFollow, Registry.Consistent;
  }

  lemma OlderTaskIsOlder(s: System, task: Task)
    requires TaskShaped(s, task) && !task.PlacingLegs?
    ensures task.generation < s.nextGeneration
  {
  }

  lemma OneEvent(s: System, event: Event)
    ensures Run(s, [event]) == Apply(s, event)
  {
    assert Run(Apply(s, event), []) == Apply(s, event);
  }

  /** How the older operation can end so that it takes the new group out. */
  function StaleEnd(s: System, task: nat): seq<Event>
    requires task in s.tasks
  {
    match s.tasks[task]
    case FilledEarly(_, _, _) => [ProcessEarlyFill(task), SiblingAnswered(s.nextTask, None)]
    case CancellingGroup(_, _) => [GroupAnswered(task, true, true)]
    case CancellingSibling(_, _, _, _) => [SiblingAnswered(task, None)]
    case PlacingLegs(_) => []
  }

  /** The new group leaves, unjustified, when neither of its legs, or only one, becomes known. */
  lemma RemovalIsUnjustified(s: System, learnt: System, group: GroupId, next: Registry)
    requires group in s.registry.groups && group in s.generations
    requires learnt.generations == s.generations && learnt.registry == s.registry
    requires !FullyKnown(learnt, group)
    ensures s.generations[group] in Remove(learnt, next, group).unjustified
  {
  }

  lemma StaleEarlyFill(s: System, group: GroupId, task: nat)
    requires Reused(s, group, task) && s.tasks[task].FilledEarly?
    ensures var n := ProcessEarly(s, task);
      && n.generations == s.generations && n.known == s.known && n.registry.groups.Keys == s.registry.groups.Keys
      && s.nextTask in n.tasks && n.tasks[s.nextTask].CancellingSibling?
      && n.tasks[s.nextTask].group == group && n.tasks[s.nextTask].sibling.clientOrderId != s.tasks[task].link
      && n.tasks[s.nextTask].generation == s.generations[group]
  {
    LinksAreDistinct(group, group);
    hide TaskShaped, Run, Apply;
    assert IsLinkOf(s.tasks[task].link, group) by { StaleLink(s, group, task); }
  }

  lemma StaleLink(s: System, group: GroupId, task: nat)
    requires Reused(s, group, task) && s.tasks[task].FilledEarly?
    ensures IsLinkOf(s.tasks[task].link, group)
  {
  }

  /** One leg cannot be known by an answer about the other one, or about an older generation. */
  lemma StaleSiblingAnswer(s: System, group: GroupId, task: nat)
    requires group in s.registry.groups && group in s.generations
    requires task in s.tasks && s.tasks[task].CancellingSibling? && s.tasks[task].group == group
    requires (s.generations[group], TakeProfitLink(group)) !in s.known
    requires (s.generations[group], StopLossLink(group)) !in s.known
    ensures s.generations[group] in AnswerSibling(s, task, None).unjustified
  {
    hide Run, Apply, Remove;
    LinksAreDistinct(group, group);
    var t := s.tasks[task];
    RemovalIsUnjustified(s, LearnSibling(s, t), group, s.registry.EndFill(group, None));
  }

  lemma StaleGroupAnswer(s: System, group: GroupId, task: nat)
    requires Reused(s, group, task) && s.tasks[task].CancellingGroup?
    ensures s.generations[group] in AnswerGroup(s, task, true, true).unjustified
  {
    hide Run, Apply, Remove, TaskShaped;
    var t := s.tasks[task];
    RemovalIsUnjustified(s, LearnLegs(s, t, true, true), group, s.registry.EndCancel(t.copy, group));
  }

  lemma StaleEndTakesNewGroup(s: System, group: GroupId, task: nat)
    requires Reused(s, group, task)
    ensures s.generations[group] in Run(s, StaleEnd(s, task)).unjustified
  {
    hide Run, ProcessEarly, AnswerSibling, AnswerGroup, TaskShaped;
    var t := s.tasks[task];
    if t.FilledEarly? {
      var s1 := ProcessEarly(s, task);
      StaleEarlyFill(s, group, task);
      StaleSiblingAnswer(s1, group, s.nextTask);
      TwoEvents(s, ProcessEarlyFill(task), SiblingAnswered(s.nextTask, None));
    } else if t.CancellingSibling? {
      StaleSiblingAnswer(s, group, task);
      OneEvent(s, SiblingAnswered(task, None));
    } else {
      StaleGroupAnswer(s, group, task);
      OneEvent(s, GroupAnswered(task, true, true));
    }
  }

  lemma TwoEvents(s: System, first: Event, second: Event)
    ensures Run(s, [first, second]) == Apply(Apply(s, first), second)
  {
    hide Apply;
    OneEvent(Apply(s, first), second);
    assert [first, second][1..] == [second];
  }

  lemma {:induction false} RunsAppend(s: System, first: seq<Event>, second: seq<Event>)
    ensures Run(s, first + second) == Run(Run(s, first), second)
    decreases |first|
  {
    if first == [] {
      assert first + second == second;
    } else {
      assert (first + second)[1..] == first[1..] + second;
      RunsAppend(Apply(s, first[0]), first[1..], second);
    }
  }

  lemma {:induction false} NoPlacementIsCareful(s: System, events: seq<Event>)
    requires forall i :: 0 <= i < |events| ==> !events[i].StartPlacement?
    ensures Careful(s, events)
    decreases |events|
  {
    if events != [] {
      NoPlacementIsCareful(Apply(s, events[0]), events[1..]);
    }
  }

  /** An accepted placement is safe for every careful continuation exactly when no operation on the same
      id is in flight: each operation finds its group again by the id alone, so one that outlives its
      group ends by taking out the group that was placed meanwhile. */
  lemma PlacementSafetyIsExact(s: System, group: GroupId)
    requires Inv(s) && Fresh(s) && !s.registry.PlacementConflicts(group)
    ensures PlacementIsSafe(s, group)
            <==> forall events :: Careful(Apply(s, StartPlacement(group)), events)
                   ==> Run(Apply(s, StartPlacement(group)), events).unjustified == {}
  {
    var placed := Apply(s, StartPlacement(group));
    hide Inv, Fresh, Apply, Run, Careful, Registry.PlacementConflicts, StaleEnd;
    if PlacementIsSafe(s, group) {
      EventKeeps(s, StartPlacement(group));
      CarefulEventKeepsFresh(s, StartPlacement(group));
      forall events | Careful(placed, events) ensures Run(placed, events).unjustified == {} {
        CarefulRunsAreJustified(placed, events);
        FreshIsJustified(Run(placed, events));
      }
    } else {
      var task :| task in s.tasks && GroupOf(s.tasks[task]) == group;
      var first := [LegsPlaced(s.nextTask, "", "", "")];
      PlacementReuses(s, group, task);
      var reused := Run(placed, first);
      StaleEndTakesNewGroup(reused, group, task);
      var events := first + StaleEnd(reused, task);
      RunsAppend(placed, first, StaleEnd(reused, task));
      StaleEndPlacesNothing(reused, task);
      NoPlacementIsCareful(placed, events);
      assert reused.generations[group] in Run(placed, events).unjustified;
    }
  }

  lemma FreshIsJustified(s: System)
    requires Fresh(s)
    ensures s.unjustified == {}
  {
  }

  lemma StaleEndPlacesNothing(s: System, task: nat)
    requires task in s.tasks
    ensures forall i :: 0 <= i < |StaleEnd(s, task)| ==> !StaleEnd(s, task)[i].StartPlacement?
  {
  }

  /** An id is placed, its whole group cancelled twice at once, and one of the two answers is in. */
  function TwiceCancelled(group: GroupId): seq<Event> {
    [StartPlacement(group), LegsPlaced(0, "", "", ""), StartGroupCancel(group), StartGroupCancel(group),
     GroupAnswered(1, true, true)]
  }

  lemma PlacedAlone(group: GroupId)
    ensures var s1 := StartPlacing(INITIAL, group); var s2 := PlaceLegs(s1, 0, "", "", "");
      && s1.tasks == map[0 := PlacingLegs(group)] && s1.nextTask == 1
      && s2.registry == Registry(map[group := NewGroup(group, "", "", "")],
                                 map[TakeProfitLink(group) := group][StopLossLink(group) := group], {}, {})
      && s2.tasks == map[] && s2.nextTask == 1 && s2.generations == map[group := 0]
  {
    LinksAreDistinct(group, group);
    assert StartPlacing(INITIAL, group).registry
       == Registry(map[], map[], {TakeProfitLink(group), StopLossLink(group)}, {});
  }

  lemma CancelledAlone(s: System, group: GroupId)
    requires s.registry == Registry(map[group := NewGroup(group, "", "", "")],
                                    map[TakeProfitLink(group) := group][StopLossLink(group) := group], {}, {})
    requires s.tasks == map[] && s.nextTask == 1 && s.generations == map[group := 0]
    ensures var n := AnswerGroup(StartCancel(StartCancel(s, group), group), 1, true, true);
      n.registry == EMPTY && 2 in n.tasks && GroupOf(n.tasks[2]) == group
  {
    var placed := NewGroup(group, "", "", "");
    var s4 := StartCancel(StartCancel(s, group), group);
    assert s4.tasks == map[1 := CancellingGroup(placed, 0), 2 := CancellingGroup(placed, 0)];
    assert s4.registry == s.registry && s4.generations == s.generations;
    assert AnswerGroup(s4, 1, true, true).registry == EMPTY;
  }

  lemma FiveEvents(s: System, events: seq<Event>)
    requires |events| == 5
    ensures Run(s, events)
         == Apply(Apply(Apply(Apply(Apply(s, events[0]), events[1]), events[2]), events[3]), events[4])
  {
    hide Apply;
    var s1 := Apply(s, events[0]);
    var s2 := Apply(s1, events[1]);
    var s3 := Apply(s2, events[2]);
    TwoEvents(s3, events[3], events[4]);
    assert events[3..] == [events[3], events[4]];
    assert Run(s2, events[2..]) == Run(s3, events[3..]) by { assert events[2..][1..] == events[3..]; }
    assert Run(s1, events[1..]) == Run(s2, events[2..]) by { assert events[1..][1..] == events[2..]; }
  }

  lemma TwiceCancelledLeavesOne(group: GroupId)
    ensures var n := Run(INITIAL, TwiceCancelled(group));
      n.registry == EMPTY && 2 in n.tasks && GroupOf(n.tasks[2]) == group
  {
    hide Run, StartPlacing, PlaceLegs, StartCancel, AnswerGroup;
    FiveEvents(INITIAL, TwiceCancelled(group));
    PlacedAlone(group);
    CancelledAlone(PlaceLegs(StartPlacing(INITIAL, group), 0, "", "", ""), group);
  }

  /** Runs that are careful up to a point do reach a state in which the next accepted placement is unsafe. */
  lemma ReuseIsReachable(group: GroupId)
    ensures exists events :: Careful(INITIAL, events)
                             && !Run(INITIAL, events).registry.PlacementConflicts(group)
                             && !PlacementIsSafe(Run(INITIAL, events), group)
  {
    var events := TwiceCancelled(group);
    TwiceCancelledLeavesOne(group);
    var s1 := Apply(INITIAL, events[0]);
    NoPlacementIsCareful(s1, events[1..]);
    assert IsCareful(INITIAL, events[0]);
    assert Careful(INITIAL, events);
    hide Apply, Run, Careful, TwiceCancelled;
  }
}
