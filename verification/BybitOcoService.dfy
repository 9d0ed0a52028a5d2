/** The service's operations on the registry, each with its network call between its critical sections,
    while other operations go on. */
module BybitOcoService {
  import opened Domain
  import opened BybitOcoState
  import opened BybitOcoRegistry
  import opened BybitOcoProtocol
  import opened BybitOcoTheorems
  import opened BybitExchange

  /** The event completes or continues this operation. */
  predicate Names(event: Event, task: nat) {
    match event
    case FailPlacement(t) => t == task
    case LegsPlaced(t, _, _, _) => t == task
    case ProcessEarlyFill(t) => t == task
    case SiblingAnswered(t, _) => t == task
    case GroupAnswered(t, _, _) => t == task
    case _ => false
  }

  lemma OthersLeaveTask(s: System, event: Event, task: nat)
    requires task in s.tasks && task < s.nextTask && !Names(event, task)
    ensures task in Apply(s, event).tasks && Apply(s, event).tasks[task] == s.tasks[task]
    ensures Apply(s, event).nextTask >= s.nextTask
  {
    hide Registry.BeginFill, Registry.EndFill, Registry.EndCancel, Registry.RegisterPlacement, Registry.ClearPlacement;
    hide Create, Refuse, LearnFill, LearnSibling, LearnLegs, Remove;
    match event
    case LegsPlaced(t, symbol, takeProfitOrderId, stopLossOrderId) =>
      if t in s.tasks && s.tasks[t].PlacingLegs? {
        CreateKeepsTasks(DropTask(s, t), NewGroup(s.tasks[t].group, symbol, takeProfitOrderId, stopLossOrderId));
      }
    case LegFilled(link) => LearnFillFacts(s, link);
    case SiblingAnswered(t, cancelError) =>
      if t in s.tasks && s.tasks[t].CancellingSibling? {
        AnswersKeepTasks(s, s.tasks[t]);
      }
    case GroupAnswered(t, takeProfitDone, stopLossDone) =>
      if t in s.tasks && s.tasks[t].CancellingGroup? {
        GroupAnswersKeepTasks(s, s.tasks[t], takeProfitDone, stopLossDone);
      }
    case _ =>
  }

  lemma CreateKeepsTasks(s: System, group: Group)
    ensures Create(s, group).tasks == s.tasks && Create(s, group).nextTask == s.nextTask
  {
  }

  lemma LearnFillFacts(s: System, link: LinkId)
    ensures LearnFill(s, link).tasks == s.tasks && LearnFill(s, link).nextTask == s.nextTask
  {
  }

  lemma RemoveKeepsTasks(s: System, next: Registry, group: GroupId)
    ensures Remove(s, next, group).tasks == s.tasks && Remove(s, next, group).nextTask == s.nextTask
  {
  }

  lemma AnswersKeepTasks(s: System, t: Task)
    requires t.CancellingSibling?
    ensures forall error :: Refuse(s, t.group, error).tasks == s.tasks
              && Refuse(s, t.group, error).nextTask == s.nextTask
    ensures RemoveFilled(s, t).tasks == s.tasks && RemoveFilled(s, t).nextTask == s.nextTask
  {
    hide Remove, Registry.EndFill;
    RemoveKeepsTasks(LearnSibling(s, t), s.registry.EndFill(t.group, None), t.group);
  }

  lemma GroupAnswersKeepTasks(s: System, t: Task, takeProfitDone: bool, stopLossDone: bool)
    requires t.CancellingGroup?
    ensures var learnt := LearnLegs(s, t, takeProfitDone, stopLossDone);
      var next := Remove(learnt, s.registry.EndCancel(t.copy, t.copy.groupId), t.copy.groupId);
      && learnt.tasks == s.tasks && learnt.nextTask == s.nextTask
      && next.tasks == s.tasks && next.nextTask == s.nextTask
  {
    hide Remove, Registry.EndCancel;
    RemoveKeepsTasks(LearnLegs(s, t, takeProfitDone, stopLossDone), s.registry.EndCancel(t.copy, t.copy.groupId),
                     t.copy.groupId);
  }

  lemma TasksAreOld(s: System)
    requires Inv(s)
    ensures forall task :: task in s.tasks ==> task < s.nextTask
  {
  }

  lemma OthersLeaveTasks(s: System, event: Event, tasks: set<nat>)
    requires Inv(s) && tasks <= s.tasks.Keys && forall t :: t in tasks ==> !Names(event, t)
    ensures var n := Apply(s, event); forall t :: t in tasks ==> t in n.tasks && n.tasks[t] == s.tasks[t]
  {
    hide Inv, Apply, Names;
    TasksAreOld(s);
    forall t | t in tasks
      ensures t in Apply(s, event).tasks && Apply(s, event).tasks[t] == s.tasks[t]
    {
      OthersLeaveTask(s, event, t);
    }
  }

  method AnyEvents() returns (events: seq<Event>) {
    events := *;
  }

  // ---- What the exchange answered ----

  predicate EndsWith(calls: seq<Call>, made: seq<Call>) {
    |made| <= |calls| && calls[|calls| - |made|..] == made
  }

  /** One of the legs was refused; a take-profit leg that was placed before is asked to be cancelled. */
  predicate RefusedLegs(group: GroupId, made: seq<Call>) {
    || (|made| == 1 && made[0].PlaceLeg? && made[0].link == TakeProfitLink(group) && made[0].orderId.Err?)
    || (|made| == 3 && made[0].PlaceLeg? && made[0].link == TakeProfitLink(group) && made[0].orderId.Ok?
        && made[1].PlaceLeg? && made[1].link == StopLossLink(group) && made[1].orderId.Err?
        && made[2].CancelLeg? && made[2].leg.clientOrderId == TakeProfitLink(group))
  }

  function PlacedLegs(group: GroupId, takeProfitOrderId: string, stopLossOrderId: string): seq<Call> {
    [PlaceLeg(TakeProfitLink(group), Ok(takeProfitOrderId)), PlaceLeg(StopLossLink(group), Ok(stopLossOrderId))]
  }

  ghost predicate BothAnswered(copy: Group, takeProfitDone: bool, stopLossDone: bool, made: seq<Call>) {
    exists n: nat :: n <= |made| && Answered(copy.takeProfit, takeProfitDone, made[..n])
                     && Answered(copy.stopLeg, stopLossDone, made[n..])
  }

  /** What an event says about the exchange is what the calls behind it were answered. */
  ghost predicate Honest(s: System, event: Event, made: seq<Call>) {
    match event
    case FailPlacement(task) => task in s.tasks && s.tasks[task].PlacingLegs? && RefusedLegs(s.tasks[task].group, made)
    case LegsPlaced(task, _, takeProfitOrderId, stopLossOrderId) =>
      && task in s.tasks && s.tasks[task].PlacingLegs?
      && made == PlacedLegs(s.tasks[task].group, takeProfitOrderId, stopLossOrderId)
    case SiblingAnswered(task, error) =>
      task in s.tasks && s.tasks[task].CancellingSibling? && Answered(s.tasks[task].sibling, error.None?, made)
    case GroupAnswered(task, takeProfitDone, stopLossDone) =>
      && task in s.tasks && s.tasks[task].CancellingGroup?
      && BothAnswered(s.tasks[task].copy, takeProfitDone, stopLossDone, made)
    case _ => true
  }

  /** How a fill was dealt with, between the registry it was handed to and the one it left: nothing was to
      be done, or the other leg was asked to end, and the group is gone exactly if no error came back. An
      error comes back only if the exchange did not end that leg. */
  ghost predicate FillHandled(begun: Registry, ended: Registry, link: LinkId, error: Option<string>, made: seq<Call>) {
    match begun.BeginFill(link).1
    case NothingToDo => error == None && made == []
    case CancelSibling(group, sibling) =>
      && (Answered(sibling, true, made) || Answered(sibling, false, made))
      && (Answered(sibling, true, made) ==> error.None?)
      && (match error
          case None => group !in ended.groups
          case Some(text) =>
            group in ended.groups && !ended.groups[group].closing && ended.groups[group].lastError == text)
  }

  /** How a placement that was not refused at once came out: an error if a leg was refused, and otherwise the
      group with both placed orders, once the fill that came early, if any, was dealt with. */
  ghost predicate PlacementAnswered(group: GroupId, symbol: string, answer: Result<Group>, created: Registry,
                                    begun: Registry, ended: Registry, made: seq<Call>)
  {
    if RefusedLegs(group, made) then answer.Err?
    else
      && |made| >= 2 && made[0].PlaceLeg? && made[0].orderId.Ok? && made[1].PlaceLeg? && made[1].orderId.Ok?
      && made[0].link == TakeProfitLink(group) && made[1].link == StopLossLink(group)
      && (answer.Ok? ==>
            && answer.value.groupId == group
            && answer.value.takeProfit == LegQuery(symbol, made[0].orderId.value, TakeProfitLink(group))
            && answer.value.stopLeg == LegQuery(symbol, made[1].orderId.value, StopLossLink(group)))
      && (match created.EarlyFill(group)
          case None => answer.Ok? && |made| == 2
          case Some(link) =>
            FillHandled(begun, ended, link, if answer.Ok? then None else Some(answer.error), made[2..]))
  }

  /** How the cancellation of a known group came out: without an error exactly if both legs ended, and only
      then is the group taken out of the registry `last`, in which the answers came in. */
  ghost predicate GroupCancelled(copy: Group, thrown: Option<string>, last: Registry, ended: Registry,
                                 made: seq<Call>) {
    && ended == (if thrown.None? then last.EndCancel(copy, copy.groupId) else last)
    && (exists takeProfitDone: bool, stopLossDone: bool ::
          && BothAnswered(copy, takeProfitDone, stopLossDone, made)
          && (thrown.None? <==> takeProfitDone && stopLossDone))
  }

  // ---- The operations in flight that are one's own ----

  /** Operations that an event started are one's own until an event ends them. */
  function OwnAfter(own: set<nat>, before: set<nat>, after: set<nat>): set<nat> {
    (own + (after - before)) * after
  }

  lemma OwnStarts(own: set<nat>, before: set<nat>, mine: nat)
    requires own <= before && mine !in before
    ensures OwnAfter(own, before, before + {mine}) == own + {mine}
  {
  }

  lemma OwnEnds(own: set<nat>, before: set<nat>, mine: nat)
    requires own + {mine} <= before && mine !in own
    ensures OwnAfter(own + {mine}, before, before - {mine}) == own
  {
  }

  /** `own` are the operations in flight that the caller being followed started, and `handed` the fills it handed
      over; neither is known to the service itself. */
  class OcoService {
    const registry: OcoRegistry
    const exchange: Exchange
    var state: System
    var own: set<nat>
    ghost var handed: multiset<LinkId>

    /** The registry is in a state of the machine that keeps its invariant. */
    ghost predicate Valid()
      reads this, registry
    {
      Inv(state) && registry.View() == state.registry && own <= state.tasks.Keys
    }

    constructor ()
      ensures Valid() && fresh(registry) && fresh(exchange) && own == {} && exchange.calls == []
    {
      registry := new OcoRegistry();
      exchange := new Exchange();
      state := INITIAL;
      own := {};
      handed := multiset{};
      new;
      InitialHolds();
    }

    /** Whatever other operations do; one's own operations in flight stay in flight. */
    method OthersAct()
      requires Valid()
      modifies this`state, registry
      ensures Valid()
      ensures forall t :: t in own ==> t in state.tasks && state.tasks[t] == old(state.tasks[t])
    {
      var events := AnyEvents();
      TasksAreOld(state);
      for i := 0 to |events|
        invariant Inv(state)
        invariant forall t :: t in own ==> t in state.tasks && state.tasks[t] == old(state.tasks[t])
      {
        if forall t :: t in own ==> !Names(events[i], t) {
          OthersLeaveTasks(state, events[i], own);
          EventKeeps(state, events[i]);
          state := Apply(state, events[i]);
        }
      }
      PublishState();
    }

    method PublishState()
      modifies registry
      ensures registry.View() == state.registry
    {
      registry.ocoGroups, registry.ocoLegToGroup := state.registry.groups, state.registry.legToGroup;
      registry.placingOcoOrderLinkIds := state.registry.placing;
      registry.pendingOcoFilledOrderLinkIds := state.registry.pendingFilled;
    }

    /** The event that the last critical section was; what it says about the exchange is what the exchange
        answered last. */
    method Took(event: Event, ghost made: seq<Call>)
      requires Inv(state) && own <= state.tasks.Keys && registry.View() == Apply(state, event).registry
      requires Honest(state, event, made) && EndsWith(exchange.calls, made)
      modifies this`state, this`own
      ensures Valid() && state == Apply(old(state), event)
      ensures own == OwnAfter(old(own), old(state).tasks.Keys, state.tasks.Keys)
    {
      EventKeeps(state, event);
      var next := Apply(state, event);
      own := OwnAfter(own, state.tasks.Keys, next.tasks.Keys);
      state := next;
    }

    // ---- The critical sections ----

    method BeginPlacement(group: GroupId) returns (refused: Option<string>, mine: nat)
      requires Valid()
      modifies this`state, this`own, registry
      ensures Valid() && mine !in old(own)
      ensures refused.Some? <==> old(registry.View()).PlacementConflicts(group)
      ensures refused.Some? ==> registry.View() == old(registry.View()) && own == old(own)
      ensures refused.None? ==> own == old(own) + {mine} && state.tasks[mine] == PlacingLegs(group)
    {
      mine := state.nextTask;
      TasksAreOld(state);
      refused := registry.RegisterPlacement(group);
      if refused.Some? {
        return;
      }
      PlacementIsStarted(state, group);
      OwnStarts(own, state.tasks.Keys, mine);
      Took(StartPlacement(group), []);
    }

    /** The registration is taken back after a leg was refused. */
    method GiveUp(group: GroupId, mine: nat, ghost others: set<nat>, ghost made: seq<Call>)
      requires Valid() && own == others + {mine} && mine !in others
      requires state.tasks[mine] == PlacingLegs(group)
      requires RefusedLegs(group, made) && EndsWith(exchange.calls, made)
      modifies this`state, this`own, registry
      ensures Valid() && own == others
    {
      PlacementIsTakenBack(state, mine);
      OwnEnds(others, state.tasks.Keys, mine);
      registry.ClearPlacement(group);
      Took(FailPlacement(mine), made);
    }

    /** The group enters the registry, and the fill that came early, if any, is picked. */
    method CreateGroup(group: GroupId, symbol: string, takeProfitId: string, stopLossId: string, mine: nat,
                       ghost others: set<nat>)
      returns (early: Option<LinkId>, next: nat)
      requires Valid() && own == others + {mine} && mine !in others
      requires state.tasks[mine] == PlacingLegs(group)
      requires EndsWith(exchange.calls, PlacedLegs(group, takeProfitId, stopLossId))
      modifies this`state, this`own, registry
      ensures Valid() && early == old(registry.View()).EarlyFill(group)
      ensures match early
              case None => own == others
              case Some(link) =>
                && next !in others && own == others + {next} && state.tasks[next].FilledEarly?
                && state.tasks[next].group == group && state.tasks[next].link == link
    {
      next := state.nextTask;
      CreationIsPlacement(state, mine, symbol, takeProfitId, stopLossId);
      OwnHandsOver(others, state, mine, next);
      early := registry.CreateGroup(group, symbol, takeProfitId, stopLossId);
      Took(LegsPlaced(mine, symbol, takeProfitId, stopLossId), PlacedLegs(group, takeProfitId, stopLossId));
    }

    /** The operation that the first half of a fill leaves in flight, if any. */
    ghost predicate FillBegun(start: FillStart, mine: nat, others: set<nat>)
      reads this
    {
      match start
      case NothingToDo => own == others
      case CancelSibling(group, sibling) =>
        && mine !in others && own == others + {mine} && mine in state.tasks && state.tasks[mine].CancellingSibling?
        && state.tasks[mine].group == group && state.tasks[mine].sibling == sibling
    }

    method BeginFill(link: LinkId) returns (start: FillStart, mine: nat)
      requires Valid()
      modifies this`state, this`own, registry
      ensures Valid() && start == old(registry.View()).BeginFill(link).1 && FillBegun(start, mine, old(own))
    {
      mine := state.nextTask;
      FillReported(state, link);
      start := registry.BeginFill(link);
      OwnFill(own, state, mine);
      Took(LegFilled(link), []);
    }

    method BeginEarlyFill(link: LinkId, task: nat, ghost others: set<nat>) returns (start: FillStart, mine: nat)
      requires Valid() && own == others + {task} && task !in others
      requires state.tasks[task].FilledEarly? && state.tasks[task].link == link
      modifies this`state, this`own, registry
      ensures Valid() && start == old(registry.View()).BeginFill(link).1 && FillBegun(start, mine, others)
    {
      mine := state.nextTask;
      EarlyFillReported(state, task);
      start := registry.BeginFill(link);
      OwnHandsOver(others, state, task, mine);
      Took(ProcessEarlyFill(task), []);
    }

    method EndFill(group: GroupId, mine: nat, ghost others: set<nat>, answer: Option<string>, ghost made: seq<Call>)
      returns (cancelError: Option<string>)
      requires Valid() && own == others + {mine} && mine !in others
      requires state.tasks[mine].CancellingSibling? && state.tasks[mine].group == group
      requires Answered(state.tasks[mine].sibling, answer.None?, made) && EndsWith(exchange.calls, made)
      modifies this`state, this`own, registry
      ensures Valid() && own == others && (answer.None? ==> cancelError.None?)
      ensures match cancelError
              case None => group !in registry.View().groups
              case Some(text) => group in registry.View().groups && !registry.View().groups[group].closing
                                 && registry.View().groups[group].lastError == text
    {
      SiblingAnswerMeans(state, mine, answer);
      OwnEnds(others, state.tasks.Keys, mine);
      cancelError := registry.EndFill(group, answer);
      Took(SiblingAnswered(mine, answer), made);
    }

    method BeginCancel(group: GroupId, copy: Group) returns (mine: nat)
      requires Valid() && group in registry.View().groups && copy == registry.View().groups[group]
      modifies this`state, this`own
      ensures Valid() && mine !in old(own) && own == old(own) + {mine}
      ensures state.tasks[mine].CancellingGroup? && state.tasks[mine].copy == copy && copy.groupId == group
    {
      mine := state.nextTask;
      CancelIsStarted(state, group);
      OwnStarts(own, state.tasks.Keys, mine);
      Took(StartGroupCancel(group), []);
    }

    /** Both answers are in: the group leaves if both legs ended, and nothing changes otherwise. */
    method EndCancel(copy: Group, mine: nat, ghost others: set<nat>, takeProfitDone: bool, stopLossDone: bool,
                     ghost made: seq<Call>)
      requires Valid() && own == others + {mine} && mine !in others
      requires state.tasks[mine].CancellingGroup? && state.tasks[mine].copy == copy
      requires BothAnswered(copy, takeProfitDone, stopLossDone, made) && EndsWith(exchange.calls, made)
      modifies this`state, this`own, registry
      ensures Valid() && own == others
      ensures registry.View() == if takeProfitDone && stopLossDone
                                 then old(registry.View()).EndCancel(copy, copy.groupId)
                                 else old(registry.View())
    {
      OwnEnds(others, state.tasks.Keys, mine);
      GroupAnswerMeans(state, mine, takeProfitDone, stopLossDone);
      if takeProfitDone && stopLossDone {
        registry.EndCancel(copy, copy.groupId);
      }
      Took(GroupAnswered(mine, takeProfitDone, stopLossDone), made);
    }

    // ---- The operations ----

    /** A leg was reported filled: its sibling is cancelled, once, and the group then removed or reopened. */
    method ProcessOcoUpdate(link: LinkId) returns (cancelError: Option<string>)
      requires Valid()
      modifies this`state, this`own, this`handed, registry, exchange
      ensures Valid() && own == old(own) && old(exchange.calls) <= exchange.calls
      ensures handed == old(handed) + multiset{link}
      ensures FillHandled(old(registry.View()), registry.View(), link, cancelError,
                          exchange.calls[|old(exchange.calls)|..])
    {
      handed := handed + multiset{link};
      var start, mine := BeginFill(link);
      if start.NothingToDo? {
        return None;
      }
      cancelError := AnswerSibling(start.group, start.sibling, mine, old(own));
    }

    /** The second half of a fill: the other leg is asked to end, and the registry told. */
    method AnswerSibling(group: GroupId, sibling: LegQuery, mine: nat, ghost others: set<nat>)
      returns (cancelError: Option<string>)
      requires Valid() && own == others + {mine} && mine !in others
      requires state.tasks[mine].CancellingSibling?
      requires state.tasks[mine].group == group && state.tasks[mine].sibling == sibling
      modifies this`state, this`own, registry, exchange
      ensures Valid() && own == others && old(exchange.calls) <= exchange.calls
      ensures var made := exchange.calls[|old(exchange.calls)|..];
        && (Answered(sibling, true, made) || Answered(sibling, false, made))
        && (Answered(sibling, true, made) ==> cancelError.None?)
      ensures match cancelError
              case None => group !in registry.View().groups
              case Some(text) => group in registry.View().groups && !registry.View().groups[group].closing
                                 && registry.View().groups[group].lastError == text
    {
      OthersAct();
      var answer := exchange.EndLeg(sibling);
      ghost var made := exchange.calls[|old(exchange.calls)|..];
      AnsweredOnce(sibling, made);
      OthersAct();
      cancelError := EndFill(group, mine, others, answer, made);
    }

    /** Places both legs under one group id. A refused id disturbs nothing; a leg that cannot be placed
        takes the registration back; a fill that came early is processed once the group exists. `created` is
        the registry in which the group was created, and `begun` the one to which an early fill was handed. */
    method PlaceOco(group: GroupId, symbol: string)
      returns (answer: Result<Group>, ghost created: Registry, ghost begun: Registry)
      requires Valid()
      modifies this`state, this`own, registry, exchange
      ensures Valid() && own == old(own) && old(exchange.calls) <= exchange.calls
      ensures old(registry.View()).PlacementConflicts(group) ==>
                answer.Err? && registry.View() == old(registry.View()) && exchange.calls == old(exchange.calls)
      ensures !old(registry.View()).PlacementConflicts(group) ==>
                PlacementAnswered(group, symbol, answer, created, begun, registry.View(),
                                  exchange.calls[|old(exchange.calls)|..])
    {
      created, begun := EMPTY, EMPTY;
      var refused, mine := BeginPlacement(group);
      if refused.Some? {
        return Err(refused.value), created, begun;
      }
      answer, created, begun := PlaceLegs(group, symbol, mine, old(own));
    }

    method PlaceLegs(group: GroupId, symbol: string, mine: nat, ghost others: set<nat>)
      returns (answer: Result<Group>, ghost created: Registry, ghost begun: Registry)
      requires Valid() && own == others + {mine} && mine !in others
      requires state.tasks[mine] == PlacingLegs(group)
      modifies this`state, this`own, registry, exchange
      ensures Valid() && own == others && old(exchange.calls) <= exchange.calls
      ensures PlacementAnswered(group, symbol, answer, created, begun, registry.View(),
                                exchange.calls[|old(exchange.calls)|..])
    {
      OthersAct();
      var takeProfit := exchange.PlaceOrder(TakeProfitLink(group));
      OthersAct();
      if takeProfit.Err? {
        created, begun := EMPTY, EMPTY;
        MadeSince(old(exchange.calls), [PlaceLeg(TakeProfitLink(group), takeProfit)]);
        GiveUp(group, mine, others, [PlaceLeg(TakeProfitLink(group), takeProfit)]);
        return Err(takeProfit.error), created, begun;
      }
      answer, created, begun := PlaceStopLoss(group, symbol, takeProfit.value, mine, others, old(exchange.calls));
    }

    /** The second leg; if it is refused the first one is asked to be cancelled. `before` are the calls made
        before the placement. */
    method PlaceStopLoss(group: GroupId, symbol: string, takeProfitId: string, mine: nat, ghost others: set<nat>,
                         ghost before: seq<Call>)
      returns (answer: Result<Group>, ghost created: Registry, ghost begun: Registry)
      requires Valid() && own == others + {mine} && mine !in others
      requires state.tasks[mine] == PlacingLegs(group)
      requires exchange.calls == before + [PlaceLeg(TakeProfitLink(group), Ok(takeProfitId))]
      modifies this`state, this`own, registry, exchange
      ensures Valid() && own == others && before <= exchange.calls
      ensures PlacementAnswered(group, symbol, answer, created, begun, registry.View(), exchange.calls[|before|..])
    {
      var stopLoss := exchange.PlaceOrder(StopLossLink(group));
      assert exchange.calls == before + [PlaceLeg(TakeProfitLink(group), Ok(takeProfitId)),
                                         PlaceLeg(StopLossLink(group), stopLoss)];
      if stopLoss.Err? {
        created, begun := EMPTY, EMPTY;
        RollBack(group, symbol, takeProfitId, stopLoss, mine, others, before);
        return Err(stopLoss.error), created, begun;
      }
      OthersAct();
      answer, created, begun := CreatePlaced(group, symbol, takeProfitId, stopLoss.value, mine, others, before);
    }

    method RollBack(group: GroupId, symbol: string, takeProfitId: string, stopLoss: Result<string>, mine: nat,
                    ghost others: set<nat>, ghost before: seq<Call>)
      requires Valid() && own == others + {mine} && mine !in others && stopLoss.Err?
      requires state.tasks[mine] == PlacingLegs(group)
      requires exchange.calls == before + [PlaceLeg(TakeProfitLink(group), Ok(takeProfitId)),
                                           PlaceLeg(StopLossLink(group), stopLoss)]
      modifies this`state, this`own, registry, exchange
      ensures Valid() && own == others && before <= exchange.calls && RefusedLegs(group, exchange.calls[|before|..])
    {
      var rollback := LegQuery(symbol, "", TakeProfitLink(group));
      var error := exchange.CancelOrder(rollback);
      OthersAct();
      ghost var made := [PlaceLeg(TakeProfitLink(group), Ok(takeProfitId)), PlaceLeg(StopLossLink(group), stopLoss),
                         CancelLeg(rollback, error)];
      assert exchange.calls == before + made;
      MadeSince(before, made);
      GiveUp(group, mine, others, made);
    }

    /** Both legs are placed: the group enters the registry, and a fill that came early is dealt with. */
    method CreatePlaced(group: GroupId, symbol: string, takeProfitId: string, stopLossId: string, mine: nat,
                        ghost others: set<nat>, ghost before: seq<Call>)
      returns (answer: Result<Group>, ghost created: Registry, ghost begun: Registry)
      requires Valid() && own == others + {mine} && mine !in others
      requires state.tasks[mine] == PlacingLegs(group)
      requires exchange.calls == before + PlacedLegs(group, takeProfitId, stopLossId)
      modifies this`state, this`own, registry, exchange
      ensures Valid() && own == others && before <= exchange.calls
      ensures PlacementAnswered(group, symbol, answer, created, begun, registry.View(), exchange.calls[|before|..])
    {
      created, begun := registry.View(), EMPTY;
      MadeSince(before, PlacedLegs(group, takeProfitId, stopLossId));
      var early, next := CreateGroup(group, symbol, takeProfitId, stopLossId, mine, others);
      if early.None? {
        PlacedQuietly(group, symbol, takeProfitId, stopLossId, created, registry.View());
        return Ok(NewGroup(group, symbol, takeProfitId, stopLossId)), created, begun;
      }
      var error;
      error, begun := ProcessEarly(early.value, next, others);
      PlacedAndMore(group, takeProfitId, stopLossId, before, exchange.calls);
      answer := if error.Some? then Err(error.value) else Ok(NewGroup(group, symbol, takeProfitId, stopLossId));
      PlacedAndHandled(group, symbol, takeProfitId, stopLossId, answer, created, begun, registry.View(), early.value,
                       exchange.calls[|before|..]);
    }

    /** The fill that came early is processed like one reported now. */
    method ProcessEarly(link: LinkId, task: nat, ghost others: set<nat>)
      returns (cancelError: Option<string>, ghost begun: Registry)
      requires Valid() && own == others + {task} && task !in others
      requires state.tasks[task].FilledEarly? && state.tasks[task].link == link
      modifies this`state, this`own, registry, exchange
      ensures Valid() && own == others && old(exchange.calls) <= exchange.calls
      ensures FillHandled(begun, registry.View(), link, cancelError, exchange.calls[|old(exchange.calls)|..])
    {
      OthersAct();
      begun := registry.View();
      var start, mine := BeginEarlyFill(link, task, others);
      if start.NothingToDo? {
        return None, begun;
      }
      cancelError := AnswerSibling(start.group, start.sibling, mine, others);
    }

    /** Cancels both legs of a group. The group leaves exactly when both were cancelled or found terminal;
        `last` is the registry when the answers were in. */
    method CancelOco(group: GroupId) returns (thrown: Option<string>, ghost last: Registry)
      requires Valid()
      modifies this`state, this`own, registry, exchange
      ensures Valid() && own == old(own) && old(exchange.calls) <= exchange.calls
      ensures group !in old(registry.View()).groups ==>
                thrown.Some? && registry.View() == old(registry.View()) && exchange.calls == old(exchange.calls)
      ensures group in old(registry.View()).groups ==>
                GroupCancelled(old(registry.View()).groups[group], thrown, last, registry.View(),
                               exchange.calls[|old(exchange.calls)|..])
      ensures thrown.None? ==> group !in registry.View().groups
    {
      last := registry.View();
      var found := registry.FindGroup(group);
      if found.Err? {
        return Some(found.error), last;
      }
      var mine := BeginCancel(group, found.value);
      thrown, last := AnswerGroup(found.value, mine, old(own));
    }

    /** The second half: each leg is asked to end, and the registry told whether both did. */
    method AnswerGroup(copy: Group, mine: nat, ghost others: set<nat>)
      returns (thrown: Option<string>, ghost last: Registry)
      requires Valid() && own == others + {mine} && mine !in others
      requires state.tasks[mine].CancellingGroup? && state.tasks[mine].copy == copy
      modifies this`state, this`own, registry, exchange
      ensures Valid() && own == others && old(exchange.calls) <= exchange.calls
      ensures GroupCancelled(copy, thrown, last, registry.View(), exchange.calls[|old(exchange.calls)|..])
      ensures thrown.None? ==> copy.groupId !in registry.View().groups
    {
      OthersAct();
      var takeProfitError, stopLossError := EndBothLegs(copy);
      OthersAct();
      last := registry.View();
      EndCancel(copy, mine, others, takeProfitError.None?, stopLossError.None?,
                exchange.calls[|old(exchange.calls)|..]);
      thrown := if takeProfitError.Some? || stopLossError.Some? then Some("incomplete") else None;
      CancellationCameOut(copy, thrown, last, takeProfitError.None?, stopLossError.None?,
                          exchange.calls[|old(exchange.calls)|..]);
    }

    method EndBothLegs(copy: Group) returns (takeProfitError: Option<string>, stopLossError: Option<string>)
      requires Valid()
      modifies this`state, registry, exchange
      ensures Valid() && old(exchange.calls) <= exchange.calls
      ensures forall t :: t in own ==> t in state.tasks && state.tasks[t] == old(state.tasks[t])
      ensures var made := exchange.calls[|old(exchange.calls)|..];
        BothAnswered(copy, takeProfitError.None?, stopLossError.None?, made) && EndsWith(exchange.calls, made)
    {
      takeProfitError := exchange.EndLeg(copy.takeProfit);
      ghost var first := exchange.calls;
      OthersAct();
      stopLossError := exchange.EndLeg(copy.stopLeg);
      BothAreAnswered(copy, takeProfitError.None?, stopLossError.None?, old(exchange.calls), first, exchange.calls);
    }
  }

  lemma CancellationCameOut(copy: Group, thrown: Option<string>, last: Registry, takeProfitDone: bool,
                            stopLossDone: bool, made: seq<Call>)
    requires BothAnswered(copy, takeProfitDone, stopLossDone, made)
    requires thrown.None? <==> takeProfitDone && stopLossDone
    ensures var ended := if takeProfitDone && stopLossDone then last.EndCancel(copy, copy.groupId) else last;
      GroupCancelled(copy, thrown, last, ended, made) && (thrown.None? ==> copy.groupId !in ended.groups)
  {
    hide BothAnswered;
  }

  lemma MadeSince(before: seq<Call>, made: seq<Call>)
    ensures (before + made)[|before|..] == made && EndsWith(before + made, made) && before <= before + made
  {
  }

  lemma PlacedQuietly(group: GroupId, symbol: string, takeProfitId: string, stopLossId: string, created: Registry,
                      ended: Registry)
    requires created.EarlyFill(group).None?
    ensures PlacementAnswered(group, symbol, Ok(NewGroup(group, symbol, takeProfitId, stopLossId)), created, EMPTY,
                              ended, PlacedLegs(group, takeProfitId, stopLossId))
  {
  }

  lemma PlacedAndHandled(group: GroupId, symbol: string, takeProfitId: string, stopLossId: string,
                         answer: Result<Group>, created: Registry, begun: Registry, ended: Registry, link: LinkId,
                         made: seq<Call>)
    requires |made| >= 2 && made[..2] == PlacedLegs(group, takeProfitId, stopLossId)
    requires created.EarlyFill(group) == Some(link)
    requires answer.Ok? ==> answer.value == NewGroup(group, symbol, takeProfitId, stopLossId)
    requires FillHandled(begun, ended, link, if answer.Ok? then None else Some(answer.error), made[2..])
    ensures PlacementAnswered(group, symbol, answer, created, begun, ended, made)
  {
    hide FillHandled;
    assert made[0] == made[..2][0] && made[1] == made[..2][1];
  }

  lemma PlacedAndMore(group: GroupId, takeProfitId: string, stopLossId: string, before: seq<Call>, calls: seq<Call>)
    requires before + PlacedLegs(group, takeProfitId, stopLossId) <= calls
    ensures before <= calls && |calls[|before|..]| >= 2
    ensures calls[|before|..][..2] == PlacedLegs(group, takeProfitId, stopLossId)
    ensures calls[|before|..][2..] == calls[|before + PlacedLegs(group, takeProfitId, stopLossId)|..]
  {
    var placed := before + PlacedLegs(group, takeProfitId, stopLossId);
    assert placed[|before|..] == PlacedLegs(group, takeProfitId, stopLossId);
    assert calls[..|placed|] == placed;
  }

  lemma BothAreAnswered(copy: Group, takeProfitDone: bool, stopLossDone: bool, before: seq<Call>, first: seq<Call>,
                        calls: seq<Call>)
    requires before <= first <= calls
    requires Answered(copy.takeProfit, takeProfitDone, first[|before|..])
    requires Answered(copy.stopLeg, stopLossDone, calls[|first|..])
    ensures BothAnswered(copy, takeProfitDone, stopLossDone, calls[|before|..]) && EndsWith(calls, calls[|before|..])
  {
    var made := calls[|before|..];
    var n := |first| - |before|;
    assert made[..n] == first[|before|..] && made[n..] == calls[|first|..];
  }

  // ---- The critical sections as events ----

  /** A fill starts at most the cancellation of the sibling. */
  predicate FillStarts(s: System, n: System, start: FillStart, dropped: set<nat>) {
    match start
    case NothingToDo => n.tasks.Keys == s.tasks.Keys - dropped
    case CancelSibling(group, sibling) =>
      && n.tasks.Keys == s.tasks.Keys - dropped + {s.nextTask} && n.tasks[s.nextTask].CancellingSibling?
      && n.tasks[s.nextTask].group == group && n.tasks[s.nextTask].sibling == sibling
  }

  lemma FillReported(s: System, link: LinkId)
    requires Inv(s)
    ensures var n := Apply(s, LegFilled(link)); var (next, start) := s.registry.BeginFill(link);
      n.registry == next && s.nextTask !in s.tasks && FillStarts(s, n, start, {})
  {
    hide Inv, Registry.Consistent, GenerationsFollow, Registry.BeginFill;
    TasksAreOld(s);
    InvHasGenerations(s);
    LearnFillKeeps(s, link);
    InvHasGenerations(LearnFill(s, link));
    FillMoves(LearnFill(s, link), link);
  }

  lemma EarlyFillReported(s: System, task: nat)
    requires Inv(s) && task in s.tasks && s.tasks[task].FilledEarly?
    ensures var n := Apply(s, ProcessEarlyFill(task)); var (next, start) := s.registry.BeginFill(s.tasks[task].link);
      n.registry == next && s.nextTask !in s.tasks && FillStarts(s, n, start, {task})
  {
    hide Inv, Registry.Consistent, GenerationsFollow, Registry.BeginFill, Fill;
    TasksAreOld(s);
    DropKeeps(s, task);
    InvHasGenerations(DropTask(s, task));
    FillMoves(DropTask(s, task), s.tasks[task].link);
  }

  lemma OwnFill(own: set<nat>, s: System, next: nat)
    requires own <= s.tasks.Keys && next !in s.tasks
    ensures OwnAfter(own, s.tasks.Keys, s.tasks.Keys - {}) == own
    ensures OwnAfter(own, s.tasks.Keys, s.tasks.Keys - {} + {next}) == own + {next}
  {
  }

  lemma OwnHandsOver(others: set<nat>, s: System, mine: nat, next: nat)
    requires others + {mine} <= s.tasks.Keys && mine !in others && next !in s.tasks
    ensures OwnAfter(others + {mine}, s.tasks.Keys, s.tasks.Keys - {mine}) == others
    ensures OwnAfter(others + {mine}, s.tasks.Keys, s.tasks.Keys - {mine} + {next}) == others + {next}
  {
  }

  lemma SiblingAnswerMeans(s: System, task: nat, answer: Option<string>)
    requires Inv(s) && task in s.tasks && s.tasks[task].CancellingSibling?
    ensures var n := Apply(s, SiblingAnswered(task, answer));
      n.registry == s.registry.EndFill(s.tasks[task].group, answer) && n.tasks.Keys == s.tasks.Keys - {task}
  {
    hide Inv, Registry.EndFill;
  }

  lemma PlacementIsStarted(s: System, group: GroupId)
    requires Inv(s) && !s.registry.PlacementConflicts(group)
    ensures var n := Apply(s, StartPlacement(group));
      && n.registry == s.registry.RegisterPlacement(group).value && s.nextTask !in s.tasks
      && n.tasks == s.tasks[s.nextTask := PlacingLegs(group)]
  {
    TasksAreOld(s);
    hide Inv;
  }

  lemma PlacementIsTakenBack(s: System, task: nat)
    requires task in s.tasks && s.tasks[task].PlacingLegs?
    ensures var n := Apply(s, FailPlacement(task));
      n.registry == s.registry.ClearPlacement(s.tasks[task].group) && n.tasks.Keys == s.tasks.Keys - {task}
  {
  }

  lemma CreationIsPlacement(s: System, task: nat, symbol: string, takeProfitOrderId: string, stopLossOrderId: string)
    requires Inv(s) && task in s.tasks && s.tasks[task].PlacingLegs?
    ensures var id := s.tasks[task].group;
      var n := Apply(s, LegsPlaced(task, symbol, takeProfitOrderId, stopLossOrderId));
      && n.registry == s.registry.CreateGroup(NewGroup(id, symbol, takeProfitOrderId, stopLossOrderId))
      && s.nextTask !in s.tasks
      && (match s.registry.EarlyFill(id)
          case None => n.tasks.Keys == s.tasks.Keys - {task}
          case Some(link) =>
            && n.tasks.Keys == s.tasks.Keys - {task} + {s.nextTask} && n.tasks[s.nextTask].FilledEarly?
            && n.tasks[s.nextTask].group == id && n.tasks[s.nextTask].link == link)
  {
    TasksAreOld(s);
    hide Inv, Registry.EarlyFill;
  }

  lemma GroupHasGeneration(s: System, group: GroupId)
    requires Inv(s) && group in s.registry.groups
    ensures group in s.generations && s.registry.groups[group].groupId == group
  {
    hide TasksFollow, PlacementsFollow, SuccessIsFinal;
  }

  lemma CancelIsStarted(s: System, group: GroupId)
    requires Inv(s) && group in s.registry.groups
    ensures var n := Apply(s, StartGroupCancel(group)); var copy := s.registry.groups[group];
      && n.registry == s.registry && s.nextTask !in s.tasks && copy.groupId == group
      && n.tasks.Keys == s.tasks.Keys + {s.nextTask}
      && n.tasks[s.nextTask].CancellingGroup? && n.tasks[s.nextTask].copy == copy
  {
    hide Inv;
    TasksAreOld(s);
    GroupHasGeneration(s, group);
  }

  /** Only a cancellation that got through for both legs changes the registry. */
  lemma GroupAnswerMeans(s: System, task: nat, takeProfitDone: bool, stopLossDone: bool)
    requires Inv(s) && task in s.tasks && s.tasks[task].CancellingGroup?
    ensures var copy := s.tasks[task].copy; var n := Apply(s, GroupAnswered(task, takeProfitDone, stopLossDone));
      && n.registry == (if takeProfitDone && stopLossDone then s.registry.EndCancel(copy, copy.groupId) else s.registry)
      && n.tasks.Keys == s.tasks.Keys - {task}
  {
    hide Inv, Registry.EndCancel;
  }
}
