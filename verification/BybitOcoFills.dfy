/** No reported fill of an OCO leg is forgotten: over every run, a group one of whose legs was filled is
    being closed, is about to be, or carries the error with which the exchange refused. */
module BybitOcoFills {
  import opened Domain
  import opened BybitOcoState
  import opened BybitOcoProtocol
  import opened BybitOcoTheorems

  /** A cancellation of one of the group's own legs is in flight. */
  ghost predicate CancelInFlight(s: System, id: GroupId) {
    id in s.generations
    && exists t: nat :: t in s.tasks && s.tasks[t].CancellingSibling? && IsWorkOn(s, id, s.tasks[t])
  }

  /** The group's early fill is still to be processed. */
  ghost predicate EarlyFillInFlight(s: System, id: GroupId) {
    id in s.generations && exists t: nat :: t in s.tasks && s.tasks[t].FilledEarly? && IsWorkOn(s, id, s.tasks[t])
  }

  predicate IsWorkOn(s: System, id: GroupId, task: Task)
    requires task.CancellingSibling? || task.FilledEarly?
    requires id in s.generations
  {
    task.group == id && task.generation == s.generations[id]
  }

  /** The group shows the error with which the exchange last refused to cancel one of its legs. */
  predicate ShowsRefusal(s: System, id: GroupId) {
    && id in s.generations && s.generations[id] in s.refused
    && id in s.registry.groups && s.registry.groups[id].lastError == s.refused[s.generations[id]]
  }

  predicate HasFilledLeg(s: System, id: GroupId) {
    id in s.generations
    && ((s.generations[id], TakeProfitLink(id)) in s.filled || (s.generations[id], StopLossLink(id)) in s.filled)
  }

  predicate Closing(s: System, id: GroupId) {
    id in s.registry.groups && s.registry.groups[id].closing
  }

  ghost predicate Handled(s: System, id: GroupId) {
    && (Closing(s, id) ==> CancelInFlight(s, id))
    && (HasFilledLeg(s, id) ==> CancelInFlight(s, id) || EarlyFillInFlight(s, id) || ShowsRefusal(s, id))
  }

  ghost predicate FillsHandled(s: System) {
    && (forall fact :: fact in s.filled ==> fact.0 < s.nextGeneration)
    && (forall id :: id in s.generations ==> Handled(s, id))
  }

  // ---- What leaves a group's fills handled ----

  predicate WorkKept(s: System, n: System, id: GroupId) {
    forall t: nat :: (t in s.tasks && (s.tasks[t].CancellingSibling? || s.tasks[t].FilledEarly?)
                      && s.tasks[t].group == id) ==>
      t in n.tasks && n.tasks[t] == s.tasks[t]
  }

  predicate GroupKept(s: System, n: System, id: GroupId) {
    && id in s.generations && id in n.generations && n.generations[id] == s.generations[id]
    && id in s.registry.groups && id in n.registry.groups && n.registry.groups[id] == s.registry.groups[id]
    && (HasFilledLeg(n, id) ==> HasFilledLeg(s, id))
    && (s.generations[id] in s.refused ==> s.generations[id] in n.refused)
    && (s.generations[id] in s.refused ==> n.refused[s.generations[id]] == s.refused[s.generations[id]])
  }

  lemma CancelStays(s: System, n: System, id: GroupId)
    requires CancelInFlight(s, id) && WorkKept(s, n, id)
    requires id in n.generations && n.generations[id] == s.generations[id]
    ensures CancelInFlight(n, id)
  {
    var t: nat :| t in s.tasks && s.tasks[t].CancellingSibling? && IsWorkOn(s, id, s.tasks[t]);
    assert n.tasks[t].CancellingSibling? && IsWorkOn(n, id, n.tasks[t]);
  }

  lemma EarlyFillStays(s: System, n: System, id: GroupId)
    requires EarlyFillInFlight(s, id) && WorkKept(s, n, id)
    requires id in n.generations && n.generations[id] == s.generations[id]
    ensures EarlyFillInFlight(n, id)
  {
    var t: nat :| t in s.tasks && s.tasks[t].FilledEarly? && IsWorkOn(s, id, s.tasks[t]);
    assert n.tasks[t].FilledEarly? && IsWorkOn(n, id, n.tasks[t]);
  }

  /** Work on other groups leaves a group handled. */
  lemma HandledStays(s: System, n: System, id: GroupId)
    requires Handled(s, id) && WorkKept(s, n, id) && GroupKept(s, n, id)
    ensures Handled(n, id)
  {
    hide CancelInFlight, EarlyFillInFlight, WorkKept, HasFilledLeg;
    if CancelInFlight(s, id) {
      CancelStays(s, n, id);
    }
    if EarlyFillInFlight(s, id) {
      EarlyFillStays(s, n, id);
    }
  }

  lemma GroupsHaveGenerations(s: System, id: GroupId)
    requires Inv(s) && id in s.generations
    ensures id in s.registry.groups && s.registry.groups[id].groupId == id
    ensures TakeProfitLink(id) in s.registry.legToGroup && s.registry.legToGroup[TakeProfitLink(id)] == id
    ensures StopLossLink(id) in s.registry.legToGroup && s.registry.legToGroup[StopLossLink(id)] == id
  {
    InvHasGenerations(s);
    hide Inv;
  }

  // ---- Fills ----

  lemma BeginFillSpares(r: Registry, link: LinkId, id: GroupId)
    requires r.Consistent() && id in r.groups
    ensures id in r.BeginFill(link).0.groups
    ensures !(link in r.legToGroup && r.legToGroup[link] == id) ==> r.BeginFill(link).0.groups[id] == r.groups[id]
  {
  }

  /** A fill leaves every other group as it was. */
  lemma FillSpares(s: System, link: LinkId, id: GroupId)
    requires Inv(s) && id in s.generations && !(link in s.registry.legToGroup && s.registry.legToGroup[link] == id)
    ensures WorkKept(s, Fill(s, link), id) && GroupKept(s, Fill(s, link), id)
  {
    hide Inv, Fill, GenerationsFollow, Registry.Consistent, Registry.BeginFill, HasFilledLeg;
    InvHasGenerations(s);
    GroupsHaveGenerations(s, id);
    BeginFillSpares(s.registry, link, id);
    FillMoves(s, link);
    FillKeepsFacts(s, link);
    TasksAreOld(s);
    assert HasFilledLeg(Fill(s, link), id) ==> HasFilledLeg(s, id) by { SameFacts(s, Fill(s, link), id); }
  }

  lemma SameFacts(s: System, n: System, id: GroupId)
    requires n.filled == s.filled && n.generations == s.generations
    ensures HasFilledLeg(n, id) == HasFilledLeg(s, id)
  {
  }

  lemma TasksAreOld(s: System)
    requires Inv(s)
    ensures forall t :: t in s.tasks ==> t < s.nextTask
  {
  }

  lemma LegIsOfItsGroup(s: System, link: LinkId)
    requires Inv(s) && link in s.registry.legToGroup
    ensures s.registry.legToGroup[link] in s.registry.groups && s.registry.legToGroup[link] in s.generations
  {
    InvHasGenerations(s);
    hide Inv;
    KeysAreGroups(s);
  }

  lemma OpenGroupIsCancelled(s: System, link: LinkId)
    requires Inv(s) && link in s.registry.legToGroup && !Closing(s, s.registry.legToGroup[link])
    ensures CancelInFlight(Fill(s, link), s.registry.legToGroup[link])
  {
    InvHasGenerations(s);
    LegIsOfItsGroup(s, link);
    FillMoves(s, link);
    hide Inv, Fill, GenerationsFollow, Registry.Consistent;
    assert s.registry.BeginFill(link).1.CancelSibling?;
    var n := Fill(s, link);
    assert s.nextTask in n.tasks && n.tasks[s.nextTask].CancellingSibling?
           && IsWorkOn(n, s.registry.legToGroup[link], n.tasks[s.nextTask]);
  }

  lemma ClosingGroupStays(s: System, link: LinkId)
    requires Inv(s) && link in s.registry.legToGroup && Closing(s, s.registry.legToGroup[link])
    ensures Fill(s, link) == s
  {
  }

  /** After a fill of its leg, a cancellation in the group is in flight: the one the fill started, or the
      one that was already closing the group. */
  lemma FillCancels(s: System, link: LinkId)
    requires Inv(s) && link in s.registry.legToGroup
    requires Closing(s, s.registry.legToGroup[link]) ==> CancelInFlight(s, s.registry.legToGroup[link])
    ensures CancelInFlight(Fill(s, link), s.registry.legToGroup[link])
  {
    hide *;
    if Closing(s, s.registry.legToGroup[link]) {
      ClosingGroupStays(s, link);
    } else {
      OpenGroupIsCancelled(s, link);
    }
  }

  lemma CancelMeansHandled(s: System, id: GroupId)
    requires CancelInFlight(s, id)
    ensures Handled(s, id)
  {
  }

  lemma FillKeepsHandled(s: System, link: LinkId, id: GroupId)
    requires Inv(s) && id in s.generations
    requires link in s.registry.legToGroup && s.registry.legToGroup[link] == id ==>
               (Closing(s, id) ==> CancelInFlight(s, id))
    requires !(link in s.registry.legToGroup && s.registry.legToGroup[link] == id) ==> Handled(s, id)
    ensures Handled(Fill(s, link), id)
  {
    hide *;
    if link in s.registry.legToGroup && s.registry.legToGroup[link] == id {
      FillCancels(s, link);
      CancelMeansHandled(Fill(s, link), id);
    } else {
      FillSpares(s, link, id);
      HandledStays(s, Fill(s, link), id);
    }
  }

  lemma FillKeepsFacts(s: System, link: LinkId)
    ensures var n := Fill(s, link);
      n.filled == s.filled && n.nextGeneration == s.nextGeneration && n.generations == s.generations
  {
    hide Registry.BeginFill;
  }

  lemma LearnFillSpares(s: System, link: LinkId, id: GroupId)
    requires Inv(s) && id in s.generations
    ensures var n := LearnFill(s, link);
      && n.registry == s.registry && WorkKept(s, n, id)
      && (!(link in s.registry.legToGroup && s.registry.legToGroup[link] == id) ==> GroupKept(s, n, id))
      && (CancelInFlight(s, id) ==> CancelInFlight(n, id))
  {
    var n := LearnFill(s, link);
    hide Inv, HasFilledLeg, CancelInFlight;
    GroupsHaveGenerations(s, id);
    if HasFilledLeg(n, id) {
      LearnFillIsAboutOne(s, link, id);
    }
    if CancelInFlight(s, id) {
      CancelStays(s, n, id);
    }
  }

  lemma LearnFillIsAboutOne(s: System, link: LinkId, id: GroupId)
    requires Inv(s) && id in s.generations && HasFilledLeg(LearnFill(s, link), id)
    ensures HasFilledLeg(s, id) || (link in s.registry.legToGroup && s.registry.legToGroup[link] == id)
  {
    hide Inv;
    OneGenerationEach(s);
  }

  lemma OneGenerationEach(s: System)
    requires Inv(s)
    ensures forall a, b :: a in s.generations && b in s.generations && a != b ==> s.generations[a] != s.generations[b]
  {
  }

  lemma FillLegHandles(s: System, link: LinkId, id: GroupId)
    requires Inv(s) && id in s.generations && Handled(s, id)
    ensures Handled(FillLeg(s, link), id)
  {
    var n := LearnFill(s, link);
    hide LearnFill, Fill, Inv, WorkKept, GroupKept, CancelInFlight, EarlyFillInFlight, ShowsRefusal, HasFilledLeg;
    LearnFillKeeps(s, link);
    LearnFillSpares(s, link, id);
    assert id in n.generations by { LearnFillFacts(s, link); }
    if !(link in s.registry.legToGroup && s.registry.legToGroup[link] == id) {
      HandledStays(s, n, id);
    }
    FillKeepsHandled(n, link, id);
  }

  lemma LearnFillFacts(s: System, link: LinkId)
    ensures var n := LearnFill(s, link);
      n.generations == s.generations && n.nextGeneration == s.nextGeneration && s.filled <= n.filled
      && forall fact :: fact in n.filled && fact !in s.filled ==>
            exists id :: id in s.generations && fact.0 == s.generations[id]
  {
  }

  lemma FillLegKeepsHandled(s: System, link: LinkId)
    requires Inv(s) && FillsHandled(s)
    ensures FillsHandled(FillLeg(s, link))
  {
    hide Handled, Inv, Fill, LearnFill;
    LearnFillFacts(s, link);
    LearnFillKeeps(s, link);
    FillKeepsFacts(LearnFill(s, link), link);
    KnownGenerations(s);
    forall id | id in s.generations
      ensures Handled(FillLeg(s, link), id)
    {
      FillLegHandles(s, link, id);
    }
  }

  lemma KnownGenerations(s: System)
    requires Inv(s)
    ensures forall id :: id in s.generations ==> s.generations[id] < s.nextGeneration
  {
  }

  lemma EarlyLinkIsOfItsGroup(s: System, task: nat)
    requires Inv(s) && task in s.tasks && s.tasks[task].FilledEarly? && s.tasks[task].link in s.registry.legToGroup
    ensures s.registry.legToGroup[s.tasks[task].link] == s.tasks[task].group
  {
    hide Inv, GenerationsFollow;
    InvHasGenerations(s);
    KnownIsOld(s);
    LinksAreDistinct(s.registry.legToGroup[s.tasks[task].link], s.tasks[task].group);
    LinksAreDistinct(s.tasks[task].group, s.registry.legToGroup[s.tasks[task].link]);
  }

  lemma EarlyLinkIsIndexed(s: System, task: nat)
    requires Inv(s) && task in s.tasks && s.tasks[task].FilledEarly? && s.tasks[task].group in s.generations
    ensures s.tasks[task].link in s.registry.legToGroup
  {
    hide Inv;
    GroupsHaveGenerations(s, s.tasks[task].group);
    KnownIsOld(s);
  }

  lemma DropEarlySpares(s: System, task: nat, id: GroupId)
    requires Inv(s) && id in s.generations && task in s.tasks && s.tasks[task].FilledEarly?
    ensures var n := DropTask(s, task);
      && (s.tasks[task].group != id ==> WorkKept(s, n, id) && GroupKept(s, n, id))
      && (CancelInFlight(s, id) ==> CancelInFlight(n, id))
  {
    hide Inv;
    GroupsHaveGenerations(s, id);
    if CancelInFlight(s, id) {
      var t: nat :| t in s.tasks && s.tasks[t].CancellingSibling? && IsWorkOn(s, id, s.tasks[t]);
      assert t in DropTask(s, task).tasks && IsWorkOn(DropTask(s, task), id, s.tasks[t]);
    }
  }

  lemma ProcessEarlyHandles(s: System, task: nat, id: GroupId)
    requires Inv(s) && id in s.generations && Handled(s, id) && task in s.tasks && s.tasks[task].FilledEarly?
    ensures Handled(ProcessEarly(s, task), id)
  {
    var n := DropTask(s, task);
    hide Inv, Fill, WorkKept, GroupKept, CancelInFlight, EarlyFillInFlight, ShowsRefusal, HasFilledLeg;
    DropKeeps(s, task);
    DropEarlySpares(s, task, id);
    if s.tasks[task].group != id {
      HandledStays(s, n, id);
      if s.tasks[task].link in s.registry.legToGroup {
        EarlyLinkIsOfItsGroup(s, task);
      }
    } else {
      EarlyLinkIsIndexed(s, task);
      EarlyLinkIsOfItsGroup(s, task);
    }
    FillKeepsHandled(n, s.tasks[task].link, id);
  }

  lemma ProcessEarlyKeepsHandled(s: System, task: nat)
    requires Inv(s) && FillsHandled(s)
    ensures FillsHandled(ProcessEarly(s, task))
  {
    hide Handled, Inv, Fill;
    if task in s.tasks && s.tasks[task].FilledEarly? {
      FillKeepsFacts(DropTask(s, task), s.tasks[task].link);
      forall id | id in s.generations
        ensures Handled(ProcessEarly(s, task), id)
      {
        ProcessEarlyHandles(s, task, id);
      }
    }
  }

  // ---- The other events ----

  /** An event that starts no generation and drops no work on the groups that stay leaves fills handled. */
  lemma HandledFrame(s: System, n: System)
    requires FillsHandled(s) && n.filled == s.filled && n.nextGeneration == s.nextGeneration
    requires forall id :: id in n.generations ==> id in s.generations && WorkKept(s, n, id) && GroupKept(s, n, id)
    ensures FillsHandled(n)
  {
    hide Handled, WorkKept, GroupKept;
    forall id | id in n.generations
      ensures Handled(n, id)
    {
      HandledStays(s, n, id);
    }
  }

  lemma GroupsStay(s: System, n: System)
    requires Inv(s) && n.registry.groups == s.registry.groups && n.generations == s.generations
    requires n.filled == s.filled && n.refused == s.refused
    ensures forall id :: id in s.generations ==> GroupKept(s, n, id)
  {
    hide Inv;
    forall id | id in s.generations
      ensures GroupKept(s, n, id)
    {
      GroupsHaveGenerations(s, id);
    }
  }

  lemma StartPlacingKeepsHandled(s: System, group: GroupId)
    requires Inv(s) && FillsHandled(s)
    ensures FillsHandled(StartPlacing(s, group))
  {
    hide Inv, FillsHandled, GroupKept, Registry.PlacementConflicts;
    TasksAreOld(s);
    GroupsStay(s, StartPlacing(s, group));
    HandledFrame(s, StartPlacing(s, group));
  }

  lemma FailPlacingKeepsHandled(s: System, task: nat)
    requires Inv(s) && FillsHandled(s)
    ensures FillsHandled(FailPlacing(s, task))
  {
    hide Inv, FillsHandled, GroupKept;
    GroupsStay(s, FailPlacing(s, task));
    HandledFrame(s, FailPlacing(s, task));
  }

  lemma StartCancelKeepsHandled(s: System, group: GroupId)
    requires Inv(s) && FillsHandled(s)
    ensures FillsHandled(StartCancel(s, group))
  {
    hide Inv, FillsHandled, GroupKept;
    TasksAreOld(s);
    GroupsStay(s, StartCancel(s, group));
    HandledFrame(s, StartCancel(s, group));
  }

  /** A new group starts a generation nothing else is about; what was filled early is about to be processed. */
  lemma CreatedGroupIsHandled(s: System, group: Group)
    requires (forall fact :: fact in s.filled ==> fact.0 < s.nextGeneration) && !group.closing
    requires s.registry.EarlyFill(group.groupId) == None
    ensures Handled(Create(s, group), group.groupId)
  {
  }

  lemma EarlyFillIsHandled(s: System, group: Group, link: LinkId)
    requires !group.closing
    ensures Handled(AddTask(Create(s, group), FilledEarly(group.groupId, link, s.nextGeneration)), group.groupId)
  {
    hide CancelInFlight, HasFilledLeg, ShowsRefusal;
    var n := AddTask(Create(s, group), FilledEarly(group.groupId, link, s.nextGeneration));
    assert n.tasks[s.nextTask].FilledEarly? && IsWorkOn(n, group.groupId, n.tasks[s.nextTask]);
  }

  lemma CreateSpares(s: System, task: nat, group: Group, id: GroupId)
    requires Inv(s) && id in s.generations && id != group.groupId && task in s.tasks && s.tasks[task].PlacingLegs?
    ensures var n := Create(DropTask(s, task), group); WorkKept(s, n, id) && GroupKept(s, n, id)
  {
    hide Inv;
    GroupsHaveGenerations(s, id);
    KnownGenerations(s);
  }

  lemma AddedTaskSpares(s: System, n: System, task: Task, id: GroupId)
    requires Inv(s) && n.nextTask == s.nextTask && WorkKept(s, n, id) && GroupKept(s, n, id)
    ensures WorkKept(s, AddTask(n, task), id) && GroupKept(s, AddTask(n, task), id)
  {
    hide Inv;
    TasksAreOld(s);
  }

  lemma CreateFacts(s: System, group: Group)
    ensures var n := Create(s, group);
      && n.generations == s.generations[group.groupId := s.nextGeneration] && n.nextTask == s.nextTask
      && n.nextGeneration == s.nextGeneration + 1
      && forall fact :: fact in n.filled ==> fact in s.filled || fact.0 == s.nextGeneration
  {
  }

  lemma PlaceLegsKeepsHandled(s: System, task: nat, symbol: string, takeProfitOrderId: string, stopLossOrderId: string)
    requires Inv(s) && FillsHandled(s)
    ensures FillsHandled(PlaceLegs(s, task, symbol, takeProfitOrderId, stopLossOrderId))
  {
    hide Inv, Handled, WorkKept, GroupKept, Create, Registry.EarlyFill;
    if task in s.tasks && s.tasks[task].PlacingLegs? {
      var id := s.tasks[task].group;
      var group := NewGroup(id, symbol, takeProfitOrderId, stopLossOrderId);
      var dropped := DropTask(s, task);
      var n := PlaceLegs(s, task, symbol, takeProfitOrderId, stopLossOrderId);
      CreateFacts(dropped, group);
      match s.registry.EarlyFill(id) {
        case Some(link) => EarlyFillIsHandled(dropped, group, link);
        case None => CreatedGroupIsHandled(dropped, group);
      }
      forall other | other in n.generations && other != id
        ensures Handled(n, other)
      {
        CreateSpares(s, task, group, other);
        if s.registry.EarlyFill(id).Some? {
          AddedTaskSpares(s, Create(dropped, group), FilledEarly(id, s.registry.EarlyFill(id).value, s.nextGeneration),
                          other);
        }
        HandledStays(s, n, other);
      }
    }
  }

  lemma RefusedGroupIsHandled(s: System, group: GroupId, error: string, task: nat)
    requires Inv(s) && group in s.generations
    ensures Handled(DropTask(Refuse(s, group, error), task), group)
  {
    hide Inv, CancelInFlight, EarlyFillInFlight, HasFilledLeg;
    GroupsHaveGenerations(s, group);
  }

  lemma RefuseSpares(s: System, task: nat, error: string, id: GroupId)
    requires Inv(s) && task in s.tasks && s.tasks[task].CancellingSibling? && id in s.generations
    requires id != s.tasks[task].group
    ensures var n := DropTask(Refuse(s, s.tasks[task].group, error), task); WorkKept(s, n, id) && GroupKept(s, n, id)
  {
    hide Inv;
    GroupsHaveGenerations(s, id);
    OneGenerationEach(s);
  }

  lemma RemovalFacts(s: System, learnt: System, next: Registry, group: GroupId)
    requires Inv(s) && learnt == s.(known := learnt.known, succeeded := learnt.succeeded)
    requires next == if group in s.registry.groups then s.registry.RemoveGroup(group) else s.registry
    ensures var n := Remove(learnt, next, group);
      && n.registry == next && n.generations == s.generations - {group} && n.tasks == s.tasks
      && n.filled == s.filled && n.refused == s.refused && n.nextGeneration == s.nextGeneration
  {
    InvHasGenerations(s);
    KeysAreGroups(s);
    hide Inv, GenerationsFollow, Registry.Consistent;
  }

  lemma RemovedElsewhere(r: Registry, group: GroupId, id: GroupId)
    requires group in r.groups && id in r.groups && id != group
    ensures id in r.RemoveGroup(group).groups && r.RemoveGroup(group).groups[id] == r.groups[id]
  {
  }

  lemma RemoveSpares(s: System, learnt: System, next: Registry, group: GroupId, task: nat, id: GroupId)
    requires Inv(s) && learnt == s.(known := learnt.known, succeeded := learnt.succeeded)
    requires next == if group in s.registry.groups then s.registry.RemoveGroup(group) else s.registry
    requires task in s.tasks && GroupOf(s.tasks[task]) == group
    requires id in Remove(learnt, next, group).generations
    ensures id in s.generations
    ensures var n := DropTask(Remove(learnt, next, group), task);
      WorkKept(s, n, id) && GroupKept(s, n, id) && n.filled == s.filled && n.nextGeneration == s.nextGeneration
  {
    hide Inv, Remove, Registry.RemoveGroup;
    RemovalFacts(s, learnt, next, group);
    GroupsHaveGenerations(s, id);
    if group in s.registry.groups {
      RemovedElsewhere(s.registry, group, id);
    }
  }

  lemma AnswerSiblingKeepsHandled(s: System, task: nat, cancelError: Option<string>)
    requires Inv(s) && FillsHandled(s)
    ensures FillsHandled(AnswerSibling(s, task, cancelError))
  {
    if task in s.tasks && s.tasks[task].CancellingSibling? {
      hide Inv, Handled, WorkKept, GroupKept, Remove;
      var t := s.tasks[task];
      match cancelError
      case Some(error) =>
        var n := DropTask(Refuse(s, t.group, error), task);
        forall id | id in n.generations
          ensures Handled(n, id)
        {
          if id == t.group {
            RefusedGroupIsHandled(s, t.group, error, task);
          } else {
            RefuseSpares(s, task, error, id);
            HandledStays(s, n, id);
          }
        }
      case None =>
        RemovalKeepsHandled(s, task, LearnSibling(s, t), s.registry.EndFill(t.group, None), t.group);
    }
  }

  lemma RemovalKeepsHandled(s: System, task: nat, learnt: System, next: Registry, group: GroupId)
    requires Inv(s) && FillsHandled(s) && learnt == s.(known := learnt.known, succeeded := learnt.succeeded)
    requires next == if group in s.registry.groups then s.registry.RemoveGroup(group) else s.registry
    requires task in s.tasks && GroupOf(s.tasks[task]) == group
    ensures FillsHandled(DropTask(Remove(learnt, next, group), task))
  {
    hide Inv, FillsHandled, WorkKept, GroupKept;
    forall id | id in Remove(learnt, next, group).generations
      ensures id in s.generations
      ensures var n := DropTask(Remove(learnt, next, group), task); WorkKept(s, n, id) && GroupKept(s, n, id)
    {
      RemoveSpares(s, learnt, next, group, task, id);
    }
    HandledFrame(s, DropTask(Remove(learnt, next, group), task));
  }

  lemma AnswerGroupKeepsHandled(s: System, task: nat, takeProfitDone: bool, stopLossDone: bool)
    requires Inv(s) && FillsHandled(s)
    ensures FillsHandled(AnswerGroup(s, task, takeProfitDone, stopLossDone))
  {
    hide Inv, FillsHandled, WorkKept, GroupKept, Remove, Registry.Consistent, GenerationsFollow;
    if task in s.tasks && s.tasks[task].CancellingGroup? {
      var t := s.tasks[task];
      if takeProfitDone && stopLossDone {
        InvHasGenerations(s);
        KnownIsOld(s);
        EndsKeepConsistent(s.registry, t.copy.groupId, None, t.copy);
        RemovalKeepsHandled(s, task, LearnLegs(s, t, true, true), s.registry.EndCancel(t.copy, t.copy.groupId),
                            t.copy.groupId);
      } else {
        LearntLegsSpare(s, task, takeProfitDone, stopLossDone);
        HandledFrame(s, DropTask(LearnLegs(s, t, takeProfitDone, stopLossDone), task));
      }
    }
  }

  lemma LearntLegsSpare(s: System, task: nat, takeProfitDone: bool, stopLossDone: bool)
    requires Inv(s) && task in s.tasks && s.tasks[task].CancellingGroup?
    ensures var n := DropTask(LearnLegs(s, s.tasks[task], takeProfitDone, stopLossDone), task);
      forall id :: id in s.generations ==> WorkKept(s, n, id) && GroupKept(s, n, id)
  {
    hide Inv, GroupKept;
    GroupsStay(s, DropTask(LearnLegs(s, s.tasks[task], takeProfitDone, stopLossDone), task));
  }

  lemma EventKeepsHandled(s: System, event: Event)
    requires Inv(s) && FillsHandled(s)
    ensures FillsHandled(Apply(s, event))
  {
    hide Inv, FillsHandled, StartPlacing, FailPlacing, PlaceLegs, ProcessEarly, FillLeg, AnswerSibling, StartCancel;
    hide AnswerGroup;
    match event
    case StartPlacement(group) => StartPlacingKeepsHandled(s, group);
    case FailPlacement(task) => FailPlacingKeepsHandled(s, task);
    case LegsPlaced(task, symbol, takeProfitOrderId, stopLossOrderId) =>
      PlaceLegsKeepsHandled(s, task, symbol, takeProfitOrderId, stopLossOrderId);
    case ProcessEarlyFill(task) => ProcessEarlyKeepsHandled(s, task);
    case LegFilled(link) => FillLegKeepsHandled(s, link);
    case SiblingAnswered(task, cancelError) => AnswerSiblingKeepsHandled(s, task, cancelError);
    case StartGroupCancel(group) => StartCancelKeepsHandled(s, group);
    case GroupAnswered(task, takeProfitDone, stopLossDone) =>
      AnswerGroupKeepsHandled(s, task, takeProfitDone, stopLossDone);
  }

  // ---- Main results ----

  lemma {:induction false} RunKeepsHandled(s: System, events: seq<Event>)
    requires Inv(s) && FillsHandled(s)
    ensures Inv(Run(s, events)) && FillsHandled(Run(s, events))
    decreases |events|
  {
    hide Inv, FillsHandled, Apply;
    if events != [] {
      EventKeeps(s, events[0]);
      EventKeepsHandled(s, events[0]);
      RunKeepsHandled(Apply(s, events[0]), events[1..]);
    }
  }

  lemma InitialIsHandled()
    ensures Inv(INITIAL) && FillsHandled(INITIAL)
  {
    InitialHolds();
  }

  /** Over every run, in every group still in the registry: while it is closing, a cancellation of one of its own
      legs is in flight; and once one of its legs was reported filled, before or after the group was
      created, such a cancellation is in flight, or the fill reported early is still to be processed, or
      the group shows the error with which the exchange last refused. */
  lemma NoFillIsForgotten(events: seq<Event>, id: GroupId)
    requires id in Run(INITIAL, events).registry.groups
    ensures var n := Run(INITIAL, events);
      && (n.registry.groups[id].closing ==> CancelInFlight(n, id))
      && (HasFilledLeg(n, id) ==> CancelInFlight(n, id) || EarlyFillInFlight(n, id) || ShowsRefusal(n, id))
  {
    hide CancelInFlight, EarlyFillInFlight, ShowsRefusal, HasFilledLeg, Run, Inv, GenerationsFollow;
    InitialIsHandled();
    RunKeepsHandled(INITIAL, events);
    InvHasGenerations(Run(INITIAL, events));
    KeysAreGroups(Run(INITIAL, events));
  }

  /** So when no operation is in flight, no group is closing, and every group with a filled leg shows the
      error with which the exchange refused to cancel the other one. */
  lemma QuietRegistryIsSettled(events: seq<Event>, id: GroupId)
    requires var n := Run(INITIAL, events); n.tasks == map[] && id in n.registry.groups
    ensures var n := Run(INITIAL, events);
      && !n.registry.groups[id].closing
      && (HasFilledLeg(n, id) ==> ShowsRefusal(n, id))
  {
    hide Run, ShowsRefusal, HasFilledLeg;
    NoFillIsForgotten(events, id);
  }

  lemma FilledGrows(s: System, event: Event)
    ensures s.filled <= Apply(s, event).filled
  {
    hide Registry.BeginFill, Registry.EndFill, Registry.EndCancel, Registry.RegisterPlacement;
  }

  lemma {:induction false} FilledStays(s: System, events: seq<Event>)
    ensures s.filled <= Run(s, events).filled
    decreases |events|
  {
    hide Apply;
    if events != [] {
      FilledGrows(s, events[0]);
      FilledStays(Apply(s, events[0]), events[1..]);
    }
  }

  lemma FillIsRecorded(s: System, link: LinkId)
    requires Inv(s) && link in s.registry.legToGroup
    ensures var id := s.registry.legToGroup[link];
      id in s.generations && (s.generations[id], link) in FillLeg(s, link).filled && IsLinkOf(link, id)
  {
    hide Inv, Fill;
    InvHasGenerations(s);
    LegIsOfItsGroup(s, link);
    FillKeepsFacts(LearnFill(s, link), link);
  }

  /** The same from the fill on: from the moment a leg is reported filled, as long as its group is the
      same one, the group is in one of those three conditions, whatever happens in between. */
  lemma ReportedFillStaysHandled(before: seq<Event>, link: LinkId, after: seq<Event>)
    requires link in Run(INITIAL, before).registry.legToGroup
    ensures var s := Run(INITIAL, before); var n := Run(Apply(s, LegFilled(link)), after);
      var id := s.registry.legToGroup[link];
      && id in s.generations
      && (id in n.generations && n.generations[id] == s.generations[id] ==>
            CancelInFlight(n, id) || EarlyFillInFlight(n, id) || ShowsRefusal(n, id))
  {
    hide Inv, FillsHandled, Run, FillLeg, CancelInFlight, EarlyFillInFlight, ShowsRefusal;
    var s := Run(INITIAL, before);
    var filled := Apply(s, LegFilled(link));
    InitialIsHandled();
    RunKeepsHandled(INITIAL, before);
    FillIsRecorded(s, link);
    EventKeeps(s, LegFilled(link));
    EventKeepsHandled(s, LegFilled(link));
    RunKeepsHandled(filled, after);
    FilledStays(filled, after);
    HandledGroups(Run(filled, after));
  }

  lemma HandledGroups(s: System)
    requires FillsHandled(s)
    ensures forall id :: HasFilledLeg(s, id) ==>
              CancelInFlight(s, id) || EarlyFillInFlight(s, id) || ShowsRefusal(s, id)
  {
    hide CancelInFlight, EarlyFillInFlight, ShowsRefusal;
  }
}
