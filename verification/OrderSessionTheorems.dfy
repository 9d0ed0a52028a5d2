/** What the order session guarantees over every order of callbacks and commands. */
module OrderSessionTheorems {
  import opened Domain
  import opened OrderStatus
  import opened OrderSessionState
  import opened OrderSessionProtocol

  // ---- Single entries ----

  /** How the result of an action may change the entry it is applied to. */
  predicate Settles(e: Entry, f: Entry) {
    && EntryEvolves(e, f) && EntryShaped(f) && f.action == NoAction
    && ((f.status == e.status && f.revision == e.revision) || (IsSettled(f.status) && IsAccepted(e)))
  }

  /** An exchange record may settle an entry, and changes nothing else about where it stands. */
  predicate Records(e: Entry, f: Entry, becameTerminal: bool) {
    && f.id == e.id && f.kind == e.kind && f.exchanger == e.exchanger && f.symbol == e.symbol
    && f.revision == e.revision && f.action == e.action
    && (f == e || (IsAccepted(e) && IsAccepted(f) && EntryShaped(f)))
    && (f.status == e.status || (IsSettled(f.status) && becameTerminal))
    && (becameTerminal ==> IsSettled(f.status) && IsAccepted(e))
  }

  /** A child takes the answer for its own order id, and that one only, unless the answer would take back that
      the child has ended. */
  lemma ChildFollowsItsAnswer(child: OrderInfo, refreshed: Option<OrderInfo>, exchanger: Exchanger)
    ensures var updated := UpdateChild(child, refreshed, exchanger);
      && updated.orderId == child.orderId
      && (IsTerminal(exchanger, child.status) ==> IsTerminal(exchanger, updated.status))
      && (refreshed.None? || refreshed.value.orderId != child.orderId ==> updated == child)
      && (refreshed.Some? && refreshed.value.orderId == child.orderId ==>
            updated == if IsTerminal(exchanger, child.status) && !IsTerminal(exchanger, refreshed.value.status)
                       then child
                       else refreshed.value)
  {
  }

  lemma BasicRecords(e: Entry, order: OrderInfo)
    requires EntryShaped(e) && IsAccepted(e) && e.kind == BasicOrder
    ensures var (f, becameTerminal) := ApplyBasicOrderRefresh(e, order); Records(e, f, becameTerminal)
  {
  }

  lemma OcoRecords(e: Entry, result: RefreshResult)
    requires EntryShaped(e) && e.kind == OcoGroup
    ensures var (f, becameTerminal) := ApplyOcoRefresh(e, result); Records(e, f, becameTerminal)
  {
    hide UpdateChild;
    if e.acceptedOco.Some? {
      ChildFollowsItsAnswer(e.acceptedOco.value.takeProfitOrder, result.takeProfitOrder, e.exchanger);
      ChildFollowsItsAnswer(e.acceptedOco.value.stopLossOrder, result.stopLossOrder, e.exchanger);
    }
  }

  lemma ResultRecords(e: Entry, result: RefreshResult)
    requires EntryShaped(e) && (result.basicOrder.Some? ==> IsAccepted(e))
    ensures var (f, becameTerminal) := ApplyEntryRefreshResult(e, result); Records(e, f, becameTerminal)
  {
    hide ApplyBasicOrderRefresh, ApplyOcoRefresh, EntryShaped, IsAccepted;
    if e.kind == BasicOrder && result.basicOrder.Some? {
      BasicRecords(e, result.basicOrder.value);
    } else if e.kind == OcoGroup {
      OcoRecords(e, result);
    }
  }

  lemma SettleSettles(e: Entry, result: RefreshResult)
    requires EntryShaped(e) && (result.basicOrder.Some? ==> IsAccepted(e))
    ensures Settles(e, Settle(e, result))
  {
    hide ApplyEntryRefreshResult;
    ResultRecords(e, result);
  }

  lemma ReleaseSettles(e: Entry)
    requires EntryShaped(e)
    ensures Settles(e, e.(action := NoAction))
  {
  }

  // ---- Frames ----

  lemma TasksFollowEvolving(s: System, n: System)
    requires TasksFollow(s) && Evolves(s.entries, n.entries)
    requires forall t :: t in n.tasks ==> t in s.tasks && n.tasks[t] == s.tasks[t]
    ensures TasksFollow(n)
  {
    forall t | t in n.tasks
      ensures TaskFollows(n.entries, n.tasks[t])
    {
      assert TaskFollows(s.entries, s.tasks[t]);
    }
  }

  /** One entry moves on, and its action is left alone. */
  predicate EntryStep(es: Entries, fs: Entries, id: EntryId) {
    && id in es && es.Keys == fs.Keys
    && (forall other :: other in es && other != id ==> fs[other] == es[other])
    && EntryEvolves(es[id], fs[id]) && EntryShaped(fs[id])
    && fs[id].action == es[id].action
  }

  lemma EntryStepEvolves(es: Entries, fs: Entries, id: EntryId)
    requires EntryStep(es, fs, id)
    ensures Evolves(es, fs) && es.Keys == fs.Keys
    ensures forall other :: other in es ==> fs[other].action == es[other].action
  {
  }

  /** The completed driver is gone, or has handed over to a new one for the same entry. */
  predicate Handover(s: System, n: System, id: EntryId, task: nat) {
    && n.nextEntryId == s.nextEntryId && n.owner == s.owner
    && ((n.tasks == s.tasks - {task} && n.driver == s.driver - {id} && n.nextTask == s.nextTask)
        || (n.nextTask == s.nextTask + 1 && s.nextTask in n.tasks && n.driver == s.driver[id := s.nextTask]
            && n.tasks == (s.tasks - {task})[s.nextTask := n.tasks[s.nextTask]]
            && IsDriver(n.tasks[s.nextTask]) && !n.tasks[s.nextTask].SubmissionTask?
            && n.tasks[s.nextTask].entryId == id))
  }

  predicate DriverStep(s: System, n: System, id: EntryId, task: nat) {
    && task in s.tasks && IsDriver(s.tasks[task]) && s.tasks[task].entryId == id
    && EntryStep(s.entries, n.entries, id) && Handover(s, n, id, task)
    && if id in n.driver then n.driver[id] in n.tasks && Drives(n.tasks[n.driver[id]], n.entries[id])
       else !IsPending(n.entries[id].status)
  }

  lemma OtherTasksStay(s: System, n: System, id: EntryId, task: nat)
    requires Numbered(s) && DriverStep(s, n, id, task)
    ensures s.entries.Keys == n.entries.Keys && n.owner == s.owner && task in s.tasks && IsDriver(s.tasks[task])
    ensures forall i :: i in s.entries ==> n.entries[i].action == s.entries[i].action
    ensures forall t :: t in n.tasks && !IsDriver(n.tasks[t]) ==> t in s.tasks && n.tasks[t] == s.tasks[t]
    ensures forall t :: t in s.tasks && !IsDriver(s.tasks[t]) ==> t in n.tasks && n.tasks[t] == s.tasks[t]
  {
    EntryStepEvolves(s.entries, n.entries, id);
    hide EntryStep, Evolves, Drives;
  }

  lemma DriverStepKeepsCovered(s: System, n: System, id: EntryId, task: nat)
    requires Numbered(s) && Covered(s) && DriverStep(s, n, id, task)
    ensures Covered(n)
  {
    hide DriverStep, Numbered, CoveredIds, ActionOf;
    OtherTasksStay(s, n, id, task);
    forall i | i in n.owner
      ensures n.owner[i] in n.tasks && i in CoveredIds(n.tasks[n.owner[i]])
      ensures n.entries[i].action == ActionOf(n.tasks[n.owner[i]])
    {
      CoveringIsAction(s.tasks[s.owner[i]], i);
    }
    forall t, i | t in n.tasks && i in CoveredIds(n.tasks[t])
      ensures i in n.owner && n.owner[i] == t
    {
      CoveringIsAction(n.tasks[t], i);
    }
  }

  /** What a driver's step does to the drivers of all entries. */
  lemma OtherDriversStay(s: System, n: System, id: EntryId, task: nat)
    requires Numbered(s) && DrivingOwns(s) && DriverStep(s, n, id, task)
    ensures task in s.tasks && s.tasks[task].entryId == id
    ensures forall t :: t in s.tasks && t != task ==> t in n.tasks && n.tasks[t] == s.tasks[t]
    ensures forall t :: t in n.tasks && t !in s.tasks ==> t == s.nextTask && id in n.driver && n.driver[id] == t
    ensures forall t :: t in n.tasks && t in s.tasks ==> t != task
    ensures forall other :: other != id ==> (other in n.driver <==> other in s.driver)
    ensures forall other :: other != id && other in n.driver ==> n.driver[other] == s.driver[other]
    ensures forall other :: other in s.entries ==>
              other in n.entries && (other != id ==> n.entries[other] == s.entries[other])
    ensures id in n.entries && s.driver[id] == task && n.entries.Keys == s.entries.Keys
    ensures id in n.driver ==> n.driver[id] == s.nextTask && s.nextTask in n.tasks
    ensures id in n.driver ==> IsDriver(n.tasks[s.nextTask]) && !n.tasks[s.nextTask].SubmissionTask?
                               && n.tasks[s.nextTask].entryId == id && Drives(n.tasks[s.nextTask], n.entries[id])
    ensures id !in n.driver ==> !IsPending(n.entries[id].status)
  {
    hide EntryEvolves, EntryShaped, Drives, IsPending;
  }

  lemma DriverStepKeepsDriven(s: System, n: System, id: EntryId, task: nat)
    requires Numbered(s) && Driven(s) && DriverStep(s, n, id, task)
    ensures Driven(n)
  {
    hide Numbered, DriverStep, Drives, IsPending;
    OtherDriversStay(s, n, id, task);
    forall t | t in n.tasks && IsDriver(n.tasks[t])
      ensures n.tasks[t].entryId in n.driver && n.driver[n.tasks[t].entryId] == t
    {
      if t in s.tasks {
        assert n.tasks[t] == s.tasks[t];
      }
    }
  }

  lemma DriverStepKeepsRest(s: System, n: System, id: EntryId, task: nat)
    requires Numbered(s) && Shaped(s) && TasksFollow(s) && DriverStep(s, n, id, task)
    ensures Numbered(n) && Shaped(n) && TasksFollow(n)
  {
    hide EntryShaped, Evolves, TasksFollow, Drives, IsPending;
    EntryStepEvolves(s.entries, n.entries, id);
    var kept := n.(tasks := s.tasks - {task});
    TasksFollowEvolving(s, kept);
    OneMoreTask(kept, n, s.nextTask);
  }

  lemma OneMoreTask(s: System, n: System, task: nat)
    requires TasksFollow(s) && n.entries == s.entries
    requires forall t :: t in n.tasks && t != task ==> t in s.tasks && n.tasks[t] == s.tasks[t]
    requires task in n.tasks ==> TaskFollows(n.entries, n.tasks[task])
    ensures TasksFollow(n)
  {
    hide TaskFollows;
  }

  lemma DriverStepKeeps(s: System, n: System, id: EntryId, task: nat)
    requires Inv(s) && DriverStep(s, n, id, task)
    ensures Inv(n) && Evolves(s.entries, n.entries)
  {
    hide Numbered, Shaped, TasksFollow, Covered, Driven, Evolves, EntryStep, Handover;
    DriverStepKeepsCovered(s, n, id, task);
    DriverStepKeepsDriven(s, n, id, task);
    DriverStepKeepsRest(s, n, id, task);
    EntryStepEvolves(s.entries, n.entries, id);
  }

  // ---- Callbacks of drivers ----

  lemma AcceptSteps(es: Entries, id: EntryId, order: OrderInfo, oco: OcoInfo)
    requires id in es && EntryShaped(es[id]) && es[id].status == Submitting
    ensures EntryStep(es, Accept(es, id, order, oco), id) && Accept(es, id, order, oco)[id].status == Accepted
    ensures Accept(es, id, order, oco) != es
  {
    assert Accept(es, id, order, oco)[id] != es[id];
  }

  lemma RefuseSteps(es: Entries, id: EntryId)
    requires id in es && EntryShaped(es[id]) && es[id].status == Submitting
    ensures EntryStep(es, FailSubmission(es, id), id) && !IsPending(FailSubmission(es, id)[id].status)
  {
  }

  lemma ContinueSteps(es: Entries, id: EntryId)
    requires id in es && EntryShaped(es[id]) && (IsPending(es[id].status) ==> es[id].status == Accepted)
    ensures EntryStep(es, Continue(es, id), id)
    ensures IsPending(Continue(es, id)[id].status) ==>
              Continue(es, id)[id].status == Waiting && es[id].status == Accepted
  {
  }

  lemma FinishWaitSteps(es: Entries, id: EntryId, revision: nat, order: OrderInfo, result: OcoWaitResult)
    requires id in es && EntryShaped(es[id]) && IsWaitAnswer(es[id], order, result)
    requires IsPending(es[id].status) ==> es[id].status == Waiting && es[id].revision == revision
    ensures EntryStep(es, FinishWait(es, id, revision, order, result), id)
    ensures !IsPending(FinishWait(es, id, revision, order, result)[id].status)
  {
  }

  lemma FailWaitSteps(es: Entries, id: EntryId, revision: nat)
    requires id in es && EntryShaped(es[id])
    requires IsPending(es[id].status) ==> es[id].status == Waiting && es[id].revision == revision
    ensures EntryStep(es, FailOrderWait(es, id, revision), id)
    ensures !IsPending(FailOrderWait(es, id, revision)[id].status)
  {
  }

  lemma StepsCompose(es: Entries, fs: Entries, gs: Entries, id: EntryId)
    requires EntryStep(es, fs, id) && EntryStep(fs, gs, id)
    ensures EntryStep(es, gs, id)
  {
  }

  lemma DriverOf(s: System, task: nat)
    requires Inv(s) && task in s.tasks && IsDriver(s.tasks[task])
    ensures var id := s.tasks[task].entryId;
      && id in s.entries && EntryShaped(s.entries[id]) && id in s.driver && s.driver[id] == task
      && Drives(s.tasks[task], s.entries[id]) && (s.tasks[task].SubmissionTask? ==> s.entries[id].status == Submitting)
      && s.nextTask !in s.tasks
  {
  }

  /** A completed driver moves its entry on, or its result is not wanted any more. */
  predicate MovesDriver(s: System, n: System, task: nat) {
    n == s || (task in s.tasks && IsDriver(s.tasks[task]) && DriverStep(s, n, s.tasks[task].entryId, task))
  }

  lemma DriverEnds(s: System, task: nat, id: EntryId, es: Entries)
    requires task in s.tasks && IsDriver(s.tasks[task]) && s.tasks[task].entryId == id
    requires EntryStep(s.entries, es, id) && !IsPending(es[id].status)
    ensures MovesDriver(s, EndDriver(s, task, id).(entries := es), task)
  {
    hide EntryStep, IsPending;
    assert Handover(s, EndDriver(s, task, id).(entries := es), id, task);
    assert id in es by { StepsItsEntry(s.entries, es, id); }
  }

  lemma StepsItsEntry(es: Entries, fs: Entries, id: EntryId)
    requires EntryStep(es, fs, id)
    ensures id in fs
  {
  }

  lemma DriverHandsOver(s: System, task: nat, id: EntryId, es: Entries, next: Task)
    requires task in s.tasks && IsDriver(s.tasks[task]) && s.tasks[task].entryId == id
    requires EntryStep(s.entries, es, id)
    requires IsDriver(next) && !next.SubmissionTask? && next.entryId == id && Drives(next, es[id])
    ensures MovesDriver(s, Drive(EndDriver(s, task, id).(entries := es), id, next), task)
  {
    hide EntryStep, Drives;
    var n := Drive(EndDriver(s, task, id).(entries := es), id, next);
    assert n.driver == s.driver[id := s.nextTask];
    assert Handover(s, n, id, task);
    assert id in es by { StepsItsEntry(s.entries, es, id); }
  }

  lemma AcceptSubmissionMoves(s: System, task: nat, order: OrderInfo, oco: OcoInfo)
    requires Inv(s)
    ensures MovesDriver(s, AcceptSubmission(s, task, order, oco), task)
  {
    hide Inv, DriverStep, EntryShaped, EntryStep, Accept, EndDriver, Drive;
    if task in s.tasks && s.tasks[task].SubmissionTask? {
      DriverOf(s, task);
      var id := s.tasks[task].entryId;
      AcceptSteps(s.entries, id, order, oco);
      DriverHandsOver(s, task, id, Accept(s.entries, id, order, oco), ContinuationTask(id));
    }
  }

  lemma EndContinuationMoves(s: System, task: nat, started: bool)
    requires Inv(s)
    ensures MovesDriver(s, EndContinuation(s, task, started), task)
  {
    hide Inv, DriverStep, EntryShaped, EntryStep, Continue, FailOrderWait, EndDriver, Drive;
    if task in s.tasks && s.tasks[task].ContinuationTask? {
      DriverOf(s, task);
      var id := s.tasks[task].entryId;
      var es := Continue(s.entries, id);
      ContinueSteps(s.entries, id);
      if !IsPending(es[id].status) {
        DriverEnds(s, task, id, es);
      } else if started {
        DriverHandsOver(s, task, id, es, WaitTask(id, es[id].revision));
      } else {
        FailWaitSteps(es, id, es[id].revision);
        StepsCompose(s.entries, es, FailOrderWait(es, id, es[id].revision), id);
        DriverEnds(s, task, id, FailOrderWait(es, id, es[id].revision));
      }
    }
  }

  lemma RefuseSubmissionMoves(s: System, task: nat)
    requires Inv(s)
    ensures MovesDriver(s, RefuseSubmission(s, task), task)
  {
    hide Inv, DriverStep, EntryShaped, EntryStep, EndDriver, FailSubmission;
    if task in s.tasks && s.tasks[task].SubmissionTask? {
      DriverOf(s, task);
      RefuseSteps(s.entries, s.tasks[task].entryId);
      DriverEnds(s, task, s.tasks[task].entryId, FailSubmission(s.entries, s.tasks[task].entryId));
    }
  }

  lemma EndWaitMoves(s: System, task: nat, order: OrderInfo, result: OcoWaitResult)
    requires Inv(s)
    ensures MovesDriver(s, EndWait(s, task, order, result), task)
  {
    hide Inv, DriverStep, EntryShaped, EntryStep, EndDriver, FinishWait, IsWaitAnswer;
    if CanEndWait(s, task, order, result) {
      DriverOf(s, task);
      var id := s.tasks[task].entryId;
      FinishWaitSteps(s.entries, id, s.tasks[task].revision, order, result);
      DriverEnds(s, task, id, FinishWait(s.entries, id, s.tasks[task].revision, order, result));
    }
  }

  lemma FailWaitMoves(s: System, task: nat)
    requires Inv(s)
    ensures MovesDriver(s, FailWait(s, task), task)
  {
    hide Inv, DriverStep, EntryShaped, EntryStep, EndDriver, FailOrderWait;
    if task in s.tasks && s.tasks[task].WaitTask? {
      DriverOf(s, task);
      var id := s.tasks[task].entryId;
      FailWaitSteps(s.entries, id, s.tasks[task].revision);
      DriverEnds(s, task, id, FailOrderWait(s.entries, id, s.tasks[task].revision));
    }
  }

  // ---- Placing ----

  /** A new entry, submitted by a task of its own or refused at once. */
  predicate Placed(s: System, n: System, e: Entry) {
    && e.id == s.nextEntryId && e.action == NoAction && EntryShaped(e)
    && n.entries == s.entries[e.id := e] && n.nextEntryId == e.id + 1 && n.owner == s.owner
    && ((n.tasks == s.tasks && n.nextTask == s.nextTask && n.driver == s.driver && !IsPending(e.status))
        || (n.tasks == s.tasks[s.nextTask := SubmissionTask(e.id)] && n.nextTask == s.nextTask + 1
            && n.driver == s.driver[e.id := s.nextTask] && e.status == Submitting))
  }

  lemma PlacePlaces(s: System, kind: EntryType, exchanger: Exchanger, symbol: string, started: bool)
    ensures var n := PlaceEntry(s, kind, exchanger, symbol, started);
      s.nextEntryId in n.entries && Placed(s, n, n.entries[s.nextEntryId])
  {
    var placed := s.entries[s.nextEntryId := NewEntry(s.nextEntryId, kind, exchanger, symbol)];
    if !started {
      var refused := FailSubmission(placed, s.nextEntryId);
      assert refused == s.entries[s.nextEntryId := refused[s.nextEntryId]];
    }
  }

  lemma PlacedIsNew(s: System, n: System, e: Entry)
    requires Numbered(s) && Placed(s, n, e)
    ensures e.id !in s.entries && Evolves(s.entries, n.entries)
    ensures forall id :: id in s.entries ==> id in n.entries && n.entries[id] == s.entries[id]
    ensures forall id :: id in n.entries ==> id in s.entries || id == e.id
    ensures forall t :: t in s.tasks ==> t in n.tasks && n.tasks[t] == s.tasks[t]
    ensures forall t :: t in n.tasks ==> t in s.tasks || (t == s.nextTask && n.tasks[t] == SubmissionTask(e.id))
  {
    hide EntryShaped;
  }

  lemma PlaceKeepsEntries(s: System, n: System, e: Entry)
    requires Numbered(s) && Shaped(s) && TasksFollow(s) && Placed(s, n, e)
    ensures Numbered(n) && Shaped(n) && TasksFollow(n)
  {
    hide EntryShaped, Evolves, TasksFollow;
    PlacedIsNew(s, n, e);
    var kept := n.(tasks := s.tasks);
    TasksFollowEvolving(s, kept);
    OneMoreTask(kept, n, s.nextTask);
  }

  lemma PlaceKeepsCovered(s: System, n: System, e: Entry)
    requires Numbered(s) && Covered(s) && Placed(s, n, e)
    ensures Covered(n)
  {
    PlacedIsNew(s, n, e);
    hide Numbered, EntryShaped, Evolves, ActionOf;
    forall t | t in n.tasks
      ensures forall i :: i in CoveredIds(n.tasks[t]) ==> i in n.owner && n.owner[i] == t
    {
      assert t in s.tasks ==> n.tasks[t] == s.tasks[t];
    }
  }

  lemma PlaceKeepsDriven(s: System, n: System, e: Entry)
    requires Numbered(s) && Driven(s) && Placed(s, n, e)
    ensures Driven(n)
  {
    hide EntryShaped, Evolves;
    PlacedIsNew(s, n, e);
    PlacedDrivers(s, n, e);
    hide Numbered, Placed, IsPending;
  }

  lemma PlacedDrivers(s: System, n: System, e: Entry)
    requires Placed(s, n, e)
    ensures e.id in n.entries && n.entries[e.id] == e
    ensures forall id :: id != e.id ==> (id in n.driver <==> id in s.driver)
    ensures forall id :: id != e.id && id in s.driver ==> n.driver[id] == s.driver[id]
    ensures IsPending(e.status) ==> e.id in n.driver && e.status == Submitting
    ensures s.nextTask in n.tasks && e.status == Submitting ==> e.id in n.driver && n.driver[e.id] == s.nextTask
    ensures e.id in n.driver && n.tasks != s.tasks ==> s.nextTask in n.tasks && n.driver[e.id] == s.nextTask
  {
    hide EntryShaped;
  }

  lemma PlaceKeeps(s: System, n: System, e: Entry)
    requires Inv(s) && Placed(s, n, e)
    ensures Inv(n) && Evolves(s.entries, n.entries)
  {
    hide Numbered, Shaped, TasksFollow, Covered, Driven, Evolves, Placed;
    PlacedIsNew(s, n, e);
    PlaceKeepsEntries(s, n, e);
    PlaceKeepsCovered(s, n, e);
    PlaceKeepsDriven(s, n, e);
  }

  // ---- Starting actions ----

  /** The covered entries were free and take the action; the others are as before. */
  predicate EntriesTake(es: Entries, fs: Entries, ids: set<EntryId>, action: Action) {
    && ids <= es.Keys && es.Keys == fs.Keys
    && (forall id :: id in ids ==> es[id].action == NoAction)
    && (forall id :: id in es ==> fs[id] == if id in ids then es[id].(action := action) else es[id])
  }

  predicate ActionStart(s: System, n: System, task: Task) {
    && !IsDriver(task) && ActionOf(task) != NoAction
    && EntriesTake(s.entries, n.entries, CoveredIds(task), ActionOf(task))
    && n == StartAction(s, n.entries, task)
    && TaskFollows(s.entries, task)
  }

  lemma CoveringIsAction(task: Task, id: EntryId)
    requires id in CoveredIds(task)
    ensures ActionOf(task) != NoAction && !IsDriver(task)
  {
  }

  lemma FreeEntriesAreNotOwned(s: System, ids: set<EntryId>)
    requires Covered(s) && ids <= s.entries.Keys && (forall id :: id in ids ==> s.entries[id].action == NoAction)
    ensures forall id :: id in ids ==> id !in s.owner
  {
    forall id | id in ids
      ensures id !in s.owner
    {
      if id in s.owner {
        CoveringIsAction(s.tasks[s.owner[id]], id);
      }
    }
  }

  lemma ActionStartKeepsCovered(s: System, n: System, task: Task)
    requires Numbered(s) && Covered(s) && ActionStart(s, n, task)
    ensures Covered(n)
  {
    hide TaskFollows, CoveredIds, ActionOf, CoveringOwns, OwnersCover;
    FreeEntriesAreNotOwned(s, CoveredIds(task));
    ActionStartKeepsCovering(s, n, task);
    ActionStartKeepsOwners(s, n, task);
  }

  lemma ActionStartKeepsCovering(s: System, n: System, task: Task)
    requires Numbered(s) && CoveringOwns(s) && ActionStart(s, n, task)
    requires forall id :: id in CoveredIds(task) ==> id !in s.owner
    ensures CoveringOwns(n)
  {
    hide TaskFollows, EntriesTake;
    forall t | t in n.tasks
      ensures forall i :: i in CoveredIds(n.tasks[t]) ==> i in n.owner && n.owner[i] == t
    {
      if t in s.tasks && t != s.nextTask {
        assert n.tasks[t] == s.tasks[t];
      }
    }
  }

  lemma ActionStartKeepsOwners(s: System, n: System, task: Task)
    requires Numbered(s) && OwnersCover(s) && ActionStart(s, n, task)
    requires forall id :: id in CoveredIds(task) ==> id !in s.owner
    ensures OwnersCover(n)
  {
    hide TaskFollows, CoveredIds, ActionOf;
    forall i | i in n.owner
      ensures i in n.entries && n.owner[i] in n.tasks && i in CoveredIds(n.tasks[n.owner[i]])
      ensures n.entries[i].action == ActionOf(n.tasks[n.owner[i]])
    {
      if i !in CoveredIds(task) {
        assert n.owner[i] == s.owner[i] && n.tasks[s.owner[i]] == s.tasks[s.owner[i]];
      }
    }
  }

  /** Starting an action leaves the drivers and what they look at alone. */
  lemma ActionStartSparesDrivers(s: System, n: System, task: Task)
    requires Numbered(s) && ActionStart(s, n, task)
    ensures s.entries.Keys == n.entries.Keys && n.driver == s.driver
    ensures forall id :: id in s.entries ==>
              n.entries[id].status == s.entries[id].status && n.entries[id].revision == s.entries[id].revision
    ensures forall t :: t in s.tasks ==> t in n.tasks && n.tasks[t] == s.tasks[t]
    ensures forall t :: t in n.tasks && IsDriver(n.tasks[t]) ==> t in s.tasks && n.tasks[t] == s.tasks[t]
  {
    hide TaskFollows, CoveredIds, ActionOf;
  }

  lemma ActionStartKeepsDriven(s: System, n: System, task: Task)
    requires Numbered(s) && Driven(s) && ActionStart(s, n, task)
    ensures Driven(n)
  {
    hide ActionStart, Numbered, IsDriver, IsPending;
    ActionStartSparesDrivers(s, n, task);
  }

  lemma TakingEvolves(es: Entries, fs: Entries, ids: set<EntryId>, action: Action)
    requires EntriesTake(es, fs, ids, action)
    ensures Evolves(es, fs)
    ensures (forall id :: id in es ==> EntryShaped(es[id])) ==> forall id :: id in fs ==> EntryShaped(fs[id])
  {
  }

  lemma ActionStartKeepsRest(s: System, n: System, task: Task)
    requires Numbered(s) && Shaped(s) && TasksFollow(s) && ActionStart(s, n, task)
    ensures Numbered(n) && Shaped(n) && TasksFollow(n) && Evolves(s.entries, n.entries)
  {
    hide TaskFollows, TasksFollow, Evolves, CoveredIds, ActionOf, EntryShaped;
    TakingEvolves(s.entries, n.entries, CoveredIds(task), ActionOf(task));
    var kept := n.(tasks := s.tasks);
    TasksFollowEvolving(s, kept);
    TaskFollowsEvolving(s.entries, n.entries, task);
    OneMoreTask(kept, n, s.nextTask);
  }

  lemma ActionStartKeeps(s: System, n: System, task: Task)
    requires Inv(s) && ActionStart(s, n, task)
    ensures Inv(n) && Evolves(s.entries, n.entries)
  {
    hide Numbered, Shaped, TasksFollow, Covered, Driven, Evolves, ActionStart;
    ActionStartKeepsCovered(s, n, task);
    ActionStartKeepsDriven(s, n, task);
    ActionStartKeepsRest(s, n, task);
  }

  lemma TaskFollowsEvolving(es: Entries, fs: Entries, task: Task)
    requires TaskFollows(es, task) && Evolves(es, fs)
    ensures TaskFollows(fs, task)
  {
  }

  lemma RequestsFollowEntries(e: Entry)
    requires EntryShaped(e)
    ensures CreateEntryRefreshRequest(e).Some? ==>
              var request := CreateEntryRefreshRequest(e).value;
              && request.entryId == e.id && request.revision == e.revision && request.kind == e.kind
              && (request.basicOrder.Some? ==> IsAccepted(e))
  {
  }

  lemma EntryOf(s: System, id: EntryId)
    requires Inv(s) && id in s.entries
    ensures EntryShaped(s.entries[id]) && s.entries[id].id == id
  {
  }

  /** A command starts an action, or is not available. */
  ghost predicate StartsAction(s: System, n: System) {
    n == s || exists task: Task :: ActionStart(s, n, task)
  }

  /** A request that fits its free entry covers it from now on. */
  lemma SingleActionStarts(s: System, id: EntryId, action: Action, task: Task)
    requires Inv(s) && CanRefresh(s.entries, id) && action != NoAction && ActionOf(task) == action
    requires task.RefreshTask? || task.CancelTask?
    requires task.request == CreateEntryRefreshRequest(s.entries[id]).value
    ensures ActionStart(s, StartAction(s, s.entries[id := s.entries[id].(action := action)], task), task)
  {
    hide Inv, CreateEntryRefreshRequest, EntryShaped, CoveredIds, StartAction, ActionStart;
    EntryOf(s, id);
    RequestsFollowEntries(s.entries[id]);
    OneCovered(s.entries[id], task);
    SingleActionIsStart(s, id, action, task);
  }

  lemma BeginRefreshStarts(s: System, id: EntryId)
    requires Inv(s)
    ensures StartsAction(s, BeginRefresh(s, id))
  {
    hide Inv, StartAction, ActionStart, CreateEntryRefreshRequest;
    if CanRefresh(s.entries, id) {
      SingleActionStarts(s, id, Refreshing, RefreshTask(CreateEntryRefreshRequest(s.entries[id]).value));
    }
  }

  lemma BeginCancelStarts(s: System, id: EntryId)
    requires Inv(s)
    ensures StartsAction(s, BeginCancel(s, id))
  {
    hide Inv, StartAction, ActionStart, CreateEntryRefreshRequest;
    if CanCancel(s.entries, id) {
      SingleActionStarts(s, id, Cancelling, CancelTask(CreateEntryRefreshRequest(s.entries[id]).value));
    }
  }

  lemma SingleActionIsStart(s: System, id: EntryId, action: Action, task: Task)
    requires id in s.entries && s.entries[id].action == NoAction && action != NoAction && ActionOf(task) == action
    requires CoveredIds(task) == {id} && TaskFollows(s.entries, task)
    ensures ActionStart(s, StartAction(s, s.entries[id := s.entries[id].(action := action)], task), task)
  {
    hide TaskFollows, CoveredIds, ActionOf;
    CoveringIsAction(task, id);
  }

  lemma PairRequestFollows(es: Entries, id: EntryId)
    requires id in es && es[id].id == id && EntryShaped(es[id])
    ensures RequestFollows(es, PairRequest(es[id])) && PairRequest(es[id]).revision == es[id].revision
    ensures PairRequest(es[id]).entryId == id
  {
    RequestsFollowEntries(es[id]);
  }

  lemma BeginCancelAllStarts(s: System, id: EntryId, requests: seq<RefreshRequest>)
    requires Inv(s)
    ensures StartsAction(s, BeginCancelAll(s, id, requests))
  {
    hide Inv, StartAction, StartPairAction, ActionStart, ArePairRequests, EntriesTake, TaskFollows;
    if CanCancelAll(s.entries, id)
       && ArePairRequests(s.entries, s.entries[id].exchanger, s.entries[id].symbol, requests) {
      AllEntries(s);
      PairActionTakes(s.entries, id, requests);
      StartsPairAction(s, requests);
    }
  }

  lemma AllEntries(s: System)
    requires Inv(s)
    ensures forall id :: id in s.entries ==> s.entries[id].id == id && EntryShaped(s.entries[id])
  {
  }

  lemma StartsPairAction(s: System, requests: seq<RefreshRequest>)
    requires EntriesTake(s.entries, StartPairAction(s.entries, requests), CoveredIds(CancelAllTask(requests)),
                         CancellingAll)
    requires TaskFollows(s.entries, CancelAllTask(requests))
    ensures ActionStart(s, StartAction(s, StartPairAction(s.entries, requests), CancelAllTask(requests)),
                        CancelAllTask(requests))
  {
    hide EntriesTake, TaskFollows, StartPairAction, CoveredIds;
  }

  lemma PairActionTakes(es: Entries, id: EntryId, requests: seq<RefreshRequest>)
    requires forall other :: other in es ==> es[other].id == other && EntryShaped(es[other])
    requires CanCancelAll(es, id) && ArePairRequests(es, es[id].exchanger, es[id].symbol, requests)
    ensures EntriesTake(es, StartPairAction(es, requests), CoveredIds(CancelAllTask(requests)), CancellingAll)
    ensures TaskFollows(es, CancelAllTask(requests))
  {
    hide PairRequest, EntryShaped, RequestFollows, EntriesTake, StartPairAction, CoveredIds;
    forall i | 0 <= i < |requests|
      ensures RequestFollows(es, requests[i]) && requests[i].revision == es[requests[i].entryId].revision
      ensures es[requests[i].entryId].action == NoAction && requests[i].entryId in es
    {
      PairRequestFollows(es, requests[i].entryId);
    }
    RequestsTake(es, requests);
  }

  lemma RequestsTake(es: Entries, requests: seq<RefreshRequest>)
    requires forall i :: 0 <= i < |requests| ==>
               requests[i].entryId in es && requests[i].revision == es[requests[i].entryId].revision
               && es[requests[i].entryId].action == NoAction
    ensures EntriesTake(es, StartPairAction(es, requests), CoveredIds(CancelAllTask(requests)), CancellingAll)
  {
    hide StartPairAction;
    StartPairActionAt(es, requests);
    assert forall other :: Mentions(requests, other) <==> other in CoveredIds(CancelAllTask(requests));
  }

  // ---- Ending actions ----

  /** Every entry covered by the completed task is released; the others are as before. */
  predicate ActionEnd(s: System, n: System, task: nat) {
    && task in s.tasks && !IsDriver(s.tasks[task])
    && n == EndAction(s, n.entries, task)
    && n.entries.Keys == s.entries.Keys
    && (forall id :: id in s.entries ==>
          if id in CoveredIds(s.tasks[task]) then Settles(s.entries[id], n.entries[id])
          else n.entries[id] == s.entries[id])
  }

  lemma ActionEndKeepsCovered(s: System, n: System, task: nat)
    requires Covered(s) && ActionEnd(s, n, task)
    ensures Covered(n)
  {
    hide EntryEvolves, EntryShaped, CoveredIds, ActionOf;
    forall id | id in n.entries && n.entries[id].action != NoAction
      ensures id in n.owner
    {
      assert id !in CoveredIds(s.tasks[task]);
    }
    forall id | id in n.owner
      ensures n.owner[id] in n.tasks
    {
      assert id in CoveredIds(s.tasks[s.owner[id]]);
    }
    forall t | t in n.tasks
      ensures forall i :: i in CoveredIds(n.tasks[t]) ==> i in n.owner && n.owner[i] == t
    {
      assert n.tasks[t] == s.tasks[t];
    }
  }

  lemma ActionEndKeepsDriven(s: System, n: System, task: nat)
    requires Driven(s) && Shaped(s) && ActionEnd(s, n, task)
    ensures Driven(n)
  {
    hide CoveredIds, EntryEvolves, EntryShaped;
    assert forall t :: t in s.tasks && IsDriver(s.tasks[t]) ==> t in n.tasks && n.tasks[t] == s.tasks[t];
    forall id | id in s.entries && IsPending(n.entries[id].status)
      ensures n.entries[id].status == s.entries[id].status && n.entries[id].revision == s.entries[id].revision
    {
    }
    forall id | id in n.driver
      ensures n.tasks[n.driver[id]].SubmissionTask? ==> n.entries[id].status == Submitting
    {
      if s.tasks[s.driver[id]].SubmissionTask? {
        SubmittingStays(s.entries[id], n.entries[id]);
      }
    }
  }

  lemma SubmittingStays(e: Entry, f: Entry)
    requires EntryShaped(e) && e.status == Submitting && (f == e || Settles(e, f))
    ensures f.status == Submitting
  {
  }

  lemma ActionEndKeepsRest(s: System, n: System, task: nat)
    requires Numbered(s) && Shaped(s) && TasksFollow(s) && ActionEnd(s, n, task)
    ensures Numbered(n) && Shaped(n) && TasksFollow(n) && Evolves(s.entries, n.entries)
  {
    hide CoveredIds;
    forall id | id in s.entries
      ensures EntryEvolves(s.entries[id], n.entries[id]) && EntryShaped(n.entries[id])
    {
    }
    hide EntryShaped, ActionEnd;
    assert Numbered(n) && Evolves(s.entries, n.entries);
    TasksFollowEvolving(s, n);
    hide EntryEvolves;
  }

  lemma ActionEndKeeps(s: System, n: System, task: nat)
    requires Inv(s) && ActionEnd(s, n, task)
    ensures Inv(n) && Evolves(s.entries, n.entries)
  {
    hide Numbered, Shaped, TasksFollow, Covered, Driven, Evolves, ActionEnd;
    ActionEndKeepsCovered(s, n, task);
    ActionEndKeepsDriven(s, n, task);
    ActionEndKeepsRest(s, n, task);
  }

  /** What the completion of a task leaves of one covered entry. */
  predicate Released(es: Entries, fs: Entries, task: Task, answers: seq<Answers>, id: EntryId) {
    && id in es && id in fs
    && (match task
        case RefreshTask(request) => fs[id] == Outcome(es[id], AnswerTo(request, answers, 0))
        case CancelTask(request) => fs[id] == Outcome(es[id], AnswerTo(request, answers, 0))
        case CancelAllTask(requests) =>
          forall i :: 0 <= i < |requests| && requests[i].entryId == id ==>
                fs[id] == Outcome(es[id], AnswerTo(requests[i], answers, i))
        case _ => true)
  }

  /** The result is applied if the entry is still at the revision it was asked for, and dropped otherwise;
      either way the action is over. */
  function Outcome(e: Entry, result: RefreshResult): Entry {
    if e.revision == result.request.revision then Settle(e, result) else e.(action := NoAction)
  }

  lemma OutcomeSettles(es: Entries, request: RefreshRequest, answers: seq<Answers>, i: nat)
    requires RequestFollows(es, request) && EntryShaped(es[request.entryId])
    ensures Settles(es[request.entryId], Outcome(es[request.entryId], AnswerTo(request, answers, i)))
  {
    hide Settle, Settles, EntryShaped;
    SettleSettles(es[request.entryId], AnswerTo(request, answers, i));
    ReleaseSettles(es[request.entryId]);
  }

  lemma SingleEnds(es: Entries, request: RefreshRequest, action: Action, answers: seq<Answers>)
    requires request.entryId in es && es[request.entryId].action == action
    ensures var result := AnswerTo(request, answers, 0);
      FinishEntryRefresh(es, result, action) == es[request.entryId := Outcome(es[request.entryId], result)]
  {
    hide Settle;
  }

  /** An entry whose cancellation-all ends takes the outcome of its own request. */
  lemma OneEnds(es: Entries, result: RefreshResult, applied: Entry)
    requires result.request.entryId in es && es[result.request.entryId].action == CancellingAll
    requires applied == ApplyOne(es, result)[result.request.entryId]
    ensures (if applied.action == CancellingAll then applied.(action := NoAction) else applied)
            == Outcome(es[result.request.entryId], result)
  {
    hide ApplyEntryRefreshResult;
    SettleReleases(es[result.request.entryId], result);
  }

  lemma CancelAllEnds(es: Entries, requests: seq<RefreshRequest>, answers: seq<Answers>)
    requires TaskFollows(es, CancelAllTask(requests))
    requires forall i :: 0 <= i < |requests| ==> es[requests[i].entryId].action == CancellingAll
    ensures var fs := EndedEntries(es, CancelAllTask(requests), answers);
      && fs.Keys == es.Keys
      && (forall i :: 0 <= i < |requests| ==>
            fs[requests[i].entryId] == Outcome(es[requests[i].entryId], AnswerTo(requests[i], answers, i)))
      && (forall id :: id in es && !Mentions(requests, id) ==> fs[id] == es[id])
  {
    hide ApplyCancelAll, FinishPairAction, ApplyOne, Settle, Outcome, GetEntryRefreshResult;
    var results := seq(|requests|, i requires 0 <= i < |requests| => AnswerTo(requests[i], answers, i));
    ResultsAreAnswers(requests, answers);
    ApplyCancelAllAt(es, results);
    var applied := ApplyCancelAll(es, results);
    FinishPairActionAt(applied, requests);
    forall i | 0 <= i < |requests|
      ensures FinishPairAction(applied, requests)[requests[i].entryId]
              == Outcome(es[requests[i].entryId], AnswerTo(requests[i], answers, i))
    {
      var id := requests[i].entryId;
      assert id == results[i].request.entryId && Mentions(requests, id);
      OneEnds(es, results[i], applied[id]);
    }
  }

  lemma ResultsAreAnswers(requests: seq<RefreshRequest>, answers: seq<Answers>)
    ensures var results := seq(|requests|, i requires 0 <= i < |requests| => AnswerTo(requests[i], answers, i));
      forall i :: 0 <= i < |requests| ==> results[i].request == requests[i]
  {
  }

  lemma SettleReleases(e: Entry, result: RefreshResult)
    ensures Settle(e, result).action == NoAction
  {
  }

  /** Completing a refresh or cancellation: current results are applied, stale ones dropped, and no covered
      entry is left in the action. */
  lemma EndReleases(s: System, task: nat, answers: seq<Answers>)
    requires Inv(s) && task in s.tasks && !IsDriver(s.tasks[task])
    ensures var es := EndedEntries(s.entries, s.tasks[task], answers);
      && (forall id :: id in CoveredIds(s.tasks[task]) ==> Released(s.entries, es, s.tasks[task], answers, id))
      && ActionEnd(s, EndAction(s, es, task), task)
  {
    hide Inv, EndedEntries, Released, ActionEnd, EndAction;
    CoversItsEntries(s, task);
    TaskFollowsEntries(s, task);
    match s.tasks[task]
    case RefreshTask(request) => SingleReleases(s, task, request, answers);
    case CancelTask(request) => SingleReleases(s, task, request, answers);
    case CancelAllTask(requests) => AllRelease(s, task, requests, answers);
  }

  lemma TaskFollowsEntries(s: System, task: nat)
    requires Inv(s) && task in s.tasks
    ensures TaskFollows(s.entries, s.tasks[task])
  {
  }

  lemma SingleReleases(s: System, task: nat, request: RefreshRequest, answers: seq<Answers>)
    requires task in s.tasks && (s.tasks[task] == RefreshTask(request) || s.tasks[task] == CancelTask(request))
    requires RequestFollows(s.entries, request) && EntryShaped(s.entries[request.entryId])
    requires s.entries[request.entryId].action == ActionOf(s.tasks[task])
    ensures var es := EndedEntries(s.entries, s.tasks[task], answers);
      && (forall id :: id in CoveredIds(s.tasks[task]) ==> Released(s.entries, es, s.tasks[task], answers, id))
      && ActionEnd(s, EndAction(s, es, task), task)
  {
    hide Settles, Outcome, FinishEntryRefresh, AnswerTo, EntryShaped, RequestFollows;
    RequestIsKnown(s.entries, request);
    SingleEnds(s.entries, request, ActionOf(s.tasks[task]), answers);
    OutcomeSettles(s.entries, request, answers, 0);
  }

  lemma RequestIsKnown(es: Entries, request: RefreshRequest)
    requires RequestFollows(es, request)
    ensures request.entryId in es && forall answers, i: nat :: AnswerTo(request, answers, i).request == request
  {
  }

  lemma AllRelease(s: System, task: nat, requests: seq<RefreshRequest>, answers: seq<Answers>)
    requires task in s.tasks && s.tasks[task] == CancelAllTask(requests)
    requires TaskFollows(s.entries, CancelAllTask(requests))
    requires forall id :: id in CoveredIds(CancelAllTask(requests)) ==>
               id in s.entries && s.entries[id].action == CancellingAll && EntryShaped(s.entries[id])
    ensures var es := EndedEntries(s.entries, CancelAllTask(requests), answers);
      && (forall id :: id in CoveredIds(CancelAllTask(requests)) ==>
              Released(s.entries, es, CancelAllTask(requests), answers, id))
      && ActionEnd(s, EndAction(s, es, task), task)
  {
    hide EndedEntries, AnswerTo, Outcome, Settles, EntryShaped, RequestFollows;
    forall i | 0 <= i < |requests|
      ensures requests[i].entryId in CoveredIds(CancelAllTask(requests))
    {
    }
    CancelAllEnds(s.entries, requests, answers);
    var es := EndedEntries(s.entries, CancelAllTask(requests), answers);
    forall id | id in s.entries
      ensures if id in CoveredIds(CancelAllTask(requests)) then Settles(s.entries[id], es[id])
              else es[id] == s.entries[id]
    {
      if id in CoveredIds(CancelAllTask(requests)) {
        var i :| 0 <= i < |requests| && requests[i].entryId == id;
        OutcomeSettles(s.entries, requests[i], answers, i);
      }
    }
  }

  lemma CoversItsEntries(s: System, task: nat)
    requires Inv(s) && task in s.tasks
    ensures forall id :: id in CoveredIds(s.tasks[task]) ==>
              id in s.entries && s.entries[id].action == ActionOf(s.tasks[task]) && EntryShaped(s.entries[id])
  {
  }

  lemma FailureEnds(es: Entries, task: Task)
    requires forall id :: id in CoveredIds(task) ==> id in es && es[id].action == ActionOf(task)
    ensures var fs := FailedEntries(es, task);
      && fs.Keys == es.Keys
      && forall id :: id in es ==> fs[id] == if id in CoveredIds(task) then es[id].(action := NoAction) else es[id]
  {
    if task.CancelAllTask? {
      FinishPairActionAt(es, task.requests);
      assert forall id :: Mentions(task.requests, id) <==> id in CoveredIds(task);
      hide FinishPairAction;
    }
  }

  /** A failed refresh or cancellation only ends the action. */
  lemma FailureReleases(s: System, task: nat)
    requires Inv(s) && task in s.tasks && !IsDriver(s.tasks[task])
    ensures var es := FailedEntries(s.entries, s.tasks[task]);
      && es.Keys == s.entries.Keys
      && (forall id :: id in s.entries ==>
            es[id] == if id in CoveredIds(s.tasks[task]) then s.entries[id].(action := NoAction) else s.entries[id])
      && ActionEnd(s, EndAction(s, es, task), task)
  {
    hide Inv, FailedEntries, Settles, EntryShaped;
    CoversItsEntries(s, task);
    FailureEnds(s.entries, s.tasks[task]);
    forall id | id in CoveredIds(s.tasks[task])
      ensures Settles(s.entries[id], s.entries[id].(action := NoAction))
    {
      ReleaseSettles(s.entries[id]);
    }
  }

  /** The end of an action, if there was one. */
  predicate EndsAction(s: System, n: System, task: nat) {
    n == s || ActionEnd(s, n, task)
  }

  lemma FinishActionEnds(s: System, task: nat, answers: seq<Answers>)
    requires Inv(s)
    ensures EndsAction(s, FinishAction(s, task, answers), task)
  {
    hide Inv, ActionEnd, EndAction, EndedEntries, Released;
    if task in s.tasks && !IsDriver(s.tasks[task]) {
      EndReleases(s, task, answers);
    }
  }

  lemma FailActionEnds(s: System, task: nat)
    requires Inv(s)
    ensures EndsAction(s, FailAction(s, task), task)
  {
    hide Inv, ActionEnd, EndAction, FailedEntries;
    if task in s.tasks && !IsDriver(s.tasks[task]) {
      FailureReleases(s, task);
    }
  }

  // ---- Every run ----

  lemma MovesDriverKeeps(s: System, n: System, task: nat)
    requires Inv(s) && MovesDriver(s, n, task)
    ensures Inv(n) && Evolves(s.entries, n.entries)
  {
    hide Inv, Evolves, DriverStep;
    StayingEvolves(s.entries);
    if n != s {
      DriverStepKeeps(s, n, s.tasks[task].entryId, task);
    }
  }

  lemma StartsActionKeeps(s: System, n: System)
    requires Inv(s) && StartsAction(s, n)
    ensures Inv(n) && Evolves(s.entries, n.entries)
  {
    hide Inv, Evolves, ActionStart;
    StayingEvolves(s.entries);
    if n != s {
      var task: Task :| ActionStart(s, n, task);
      ActionStartKeeps(s, n, task);
    }
  }

  lemma EndsActionKeeps(s: System, n: System, task: nat)
    requires Inv(s) && EndsAction(s, n, task)
    ensures Inv(n) && Evolves(s.entries, n.entries)
  {
    hide Inv, Evolves, ActionEnd;
    StayingEvolves(s.entries);
    if n != s {
      ActionEndKeeps(s, n, task);
    }
  }

  /** Every event is one of four kinds of move: an entry is placed, a driver moves its entry on, an action
      starts, or an action ends. */
  ghost predicate Moves(s: System, n: System, event: Event) {
    match event
    case Place(_, _, _, _) => s.nextEntryId in n.entries && Placed(s, n, n.entries[s.nextEntryId])
    case SubmissionAccepted(task, _, _) => MovesDriver(s, n, task)
    case SubmissionRefused(task) => MovesDriver(s, n, task)
    case Continued(task, _) => MovesDriver(s, n, task)
    case WaitEnded(task, _, _) => MovesDriver(s, n, task)
    case WaitFailed(task) => MovesDriver(s, n, task)
    case StartRefresh(_) => StartsAction(s, n)
    case StartCancel(_) => StartsAction(s, n)
    case StartCancelAll(_, _) => StartsAction(s, n)
    case ActionEnded(task, _) => EndsAction(s, n, task)
    case ActionFailed(task) => EndsAction(s, n, task)
  }

  lemma EventMoves(s: System, event: Event)
    requires Inv(s)
    ensures Moves(s, Apply(s, event), event)
  {
    hide Inv, Placed, MovesDriver, StartsAction, EndsAction;
    hide PlaceEntry, AcceptSubmission, RefuseSubmission, EndContinuation, EndWait, FailWait;
    hide BeginRefresh, BeginCancel, BeginCancelAll, FinishAction, FailAction;
    match event
    case Place(kind, exchanger, symbol, started) => PlacePlaces(s, kind, exchanger, symbol, started);
    case SubmissionAccepted(task, order, oco) => AcceptSubmissionMoves(s, task, order, oco);
    case SubmissionRefused(task) => RefuseSubmissionMoves(s, task);
    case Continued(task, started) => EndContinuationMoves(s, task, started);
    case WaitEnded(task, order, result) => EndWaitMoves(s, task, order, result);
    case WaitFailed(task) => FailWaitMoves(s, task);
    case StartRefresh(id) => BeginRefreshStarts(s, id);
    case StartCancel(id) => BeginCancelStarts(s, id);
    case StartCancelAll(id, requests) => BeginCancelAllStarts(s, id, requests);
    case ActionEnded(task, answers) => FinishActionEnds(s, task, answers);
    case ActionFailed(task) => FailActionEnds(s, task);
  }

  lemma MovesKeep(s: System, n: System, event: Event)
    requires Inv(s) && Moves(s, n, event)
    ensures Inv(n) && Evolves(s.entries, n.entries)
  {
    hide Inv, Evolves, Placed, MovesDriver, StartsAction, EndsAction;
    match event
    case Place(_, _, _, _) => PlaceKeeps(s, n, n.entries[s.nextEntryId]);
    case SubmissionAccepted(task, _, _) => MovesDriverKeeps(s, n, task);
    case SubmissionRefused(task) => MovesDriverKeeps(s, n, task);
    case Continued(task, _) => MovesDriverKeeps(s, n, task);
    case WaitEnded(task, _, _) => MovesDriverKeeps(s, n, task);
    case WaitFailed(task) => MovesDriverKeeps(s, n, task);
    case StartRefresh(_) => StartsActionKeeps(s, n);
    case StartCancel(_) => StartsActionKeeps(s, n);
    case StartCancelAll(_, _) => StartsActionKeeps(s, n);
    case ActionEnded(task, _) => EndsActionKeeps(s, n, task);
    case ActionFailed(task) => EndsActionKeeps(s, n, task);
  }

  lemma EventKeeps(s: System, event: Event)
    requires Inv(s)
    ensures Inv(Apply(s, event)) && Evolves(s.entries, Apply(s, event).entries)
  {
    hide *;
    EventMoves(s, event);
    MovesKeep(s, Apply(s, event), event);
  }

  lemma StayingEvolves(es: Entries)
    ensures Evolves(es, es)
  {
  }

  lemma OneCovered(e: Entry, task: Task)
    requires CreateEntryRefreshRequest(e).Some?
    requires task == RefreshTask(CreateEntryRefreshRequest(e).value)
             || task == CancelTask(CreateEntryRefreshRequest(e).value)
    ensures CoveredIds(task) == {e.id}
  {
  }

  lemma EvolvingComposes(es: Entries, fs: Entries, gs: Entries)
    requires Evolves(es, fs) && Evolves(fs, gs)
    ensures Evolves(es, gs)
  {
    hide EntryEvolves;
    forall id | id in es
      ensures id in gs && EntryEvolves(es[id], gs[id])
    {
      EntryEvolvingComposes(es[id], fs[id], gs[id]);
    }
  }

  lemma EntryEvolvingComposes(e: Entry, f: Entry, g: Entry)
    requires EntryEvolves(e, f) && EntryEvolves(f, g)
    ensures EntryEvolves(e, g)
  {
  }

  /** Over every order of commands and callbacks the invariant holds, and each entry only evolves: settled
      entries stay settled, refused ones stay refused, revisions never fall. */
  lemma {:induction false} SessionsKeepTheirPromises(s: System, events: seq<Event>)
    requires Inv(s)
    ensures Inv(Run(s, events)) && Evolves(s.entries, Run(s, events).entries)
    decreases |events|
  {
    hide Inv, Evolves, Apply;
    StayingEvolves(s.entries);
    if events != [] {
      EventKeeps(s, events[0]);
      SessionsKeepTheirPromises(Apply(s, events[0]), events[1..]);
      EvolvingComposes(s.entries, Apply(s, events[0]).entries, Run(s, events).entries);
    }
  }

  lemma InitialHolds()
    ensures Inv(INITIAL)
  {
  }

  // ---- What the invariant says to a user ----

  /** An OCO entry is settled only when both of its children have ended; it is filled exactly if one of them
      is, and shows that one, and otherwise neither is. */
  lemma SettledOcoHasEnded(events: seq<Event>, id: EntryId)
    requires var es := Run(INITIAL, events).entries; id in es && es[id].kind == OcoGroup && IsSettled(es[id].status)
    ensures var e := Run(INITIAL, events).entries[id];
      && e.acceptedOco.Some?
      && var takeProfit, stopLoss := e.acceptedOco.value.takeProfitOrder, e.acceptedOco.value.stopLossOrder;
      && IsTerminal(e.exchanger, takeProfit.status) && IsTerminal(e.exchanger, stopLoss.status)
      && (e.status == FilledEntry
          <==> IsFilled(e.exchanger, takeProfit.status) || IsFilled(e.exchanger, stopLoss.status))
      && (e.status == FilledEntry ==>
            && e.terminalOrder in {Some(takeProfit), Some(stopLoss)}
            && IsFilled(e.exchanger, e.terminalOrder.value.status))
  {
    hide Run;
    InitialHolds();
    SessionsKeepTheirPromises(INITIAL, events);
    assert EntryShaped(Run(INITIAL, events).entries[id]);
    hide Inv;
  }

  /** What a current result makes of a basic order: the record it brings, a settlement exactly when that record
      is terminal, and a new revision exactly when the status changed. */
  lemma BasicResultIsApplied(e: Entry, result: RefreshResult)
    requires EntryShaped(e) && IsAccepted(e) && e.kind == BasicOrder && result.basicOrder.Some?
    ensures var f, order := Settle(e, result), result.basicOrder.value;
      var ended := IsTerminal(e.exchanger, order.status);
      && f.action == NoAction && f.revision == e.revision + (if f.status == e.status then 0 else 1)
      && (IsSettled(e.status) && !ended ==> f == e.(action := NoAction))
      && (!IsSettled(e.status) && !ended ==> f.status == e.status && f.acceptedOrder == Some(order))
      && (ended ==> f.acceptedOrder == Some(order) == f.terminalOrder)
      && (ended ==> f.status == if IsFilled(e.exchanger, order.status) then FilledEntry else TerminalEntry)
  {
  }

  /** And of an OCO order: each child takes its own answer, and the entry is settled exactly when both have
      ended then. */
  lemma OcoResultIsApplied(e: Entry, result: RefreshResult)
    requires EntryShaped(e) && e.kind == OcoGroup && e.acceptedOco.Some?
    ensures var f := Settle(e, result); var before, after := e.acceptedOco.value, f.acceptedOco;
      && f.action == NoAction && f.revision == e.revision + (if f.status == e.status then 0 else 1)
      && after == Some(before.(
           takeProfitOrder := UpdateChild(before.takeProfitOrder, result.takeProfitOrder, e.exchanger),
           stopLossOrder := UpdateChild(before.stopLossOrder, result.stopLossOrder, e.exchanger)))
      && var takeProfit, stopLoss := after.value.takeProfitOrder.status, after.value.stopLossOrder.status;
      && (IsSettled(f.status) <==> IsTerminal(e.exchanger, takeProfit) && IsTerminal(e.exchanger, stopLoss))
      && (f.status == FilledEntry
          <==> IsSettled(f.status) && (IsFilled(e.exchanger, takeProfit) || IsFilled(e.exchanger, stopLoss)))
      && (!IsSettled(f.status) ==> f.status == e.status)
  {
    hide UpdateChild;
    ChildFollowsItsAnswer(e.acceptedOco.value.takeProfitOrder, result.takeProfitOrder, e.exchanger);
    ChildFollowsItsAnswer(e.acceptedOco.value.stopLossOrder, result.stopLossOrder, e.exchanger);
  }

  /** No entry is stuck in an action: exactly one task in flight covers it, and it is of that action. */
  lemma NoEntryIsStuck(events: seq<Event>, id: EntryId)
    requires id in Run(INITIAL, events).entries && Run(INITIAL, events).entries[id].action != NoAction
    ensures var s := Run(INITIAL, events);
      exists t :: && t in s.tasks && id in CoveredIds(s.tasks[t]) && ActionOf(s.tasks[t]) == s.entries[id].action
                  && forall u :: u in s.tasks && id in CoveredIds(s.tasks[u]) ==> u == t
  {
    InitialHolds();
    SessionsKeepTheirPromises(INITIAL, events);
    hide Run;
    var s := Run(INITIAL, events);
    assert s.owner[id] in s.tasks && id in CoveredIds(s.tasks[s.owner[id]]);
  }

  /** No entry is stuck on its way: while it is being submitted, just accepted or waited for, exactly one
      task will move it on, and the result it brings is current. */
  lemma NoEntryIsForgotten(events: seq<Event>, id: EntryId)
    requires id in Run(INITIAL, events).entries && IsPending(Run(INITIAL, events).entries[id].status)
    ensures var s := Run(INITIAL, events);
      exists t :: && t in s.tasks && IsDriver(s.tasks[t]) && s.tasks[t].entryId == id
        && Drives(s.tasks[t], s.entries[id])
                  && forall u :: u in s.tasks && IsDriver(s.tasks[u]) && s.tasks[u].entryId == id ==> u == t
  {
    InitialHolds();
    SessionsKeepTheirPromises(INITIAL, events);
    hide Run;
    var s := Run(INITIAL, events);
    assert s.driver[id] in s.tasks && IsDriver(s.tasks[s.driver[id]]) && s.tasks[s.driver[id]].entryId == id;
    hide Covered, Shaped, TasksFollow;
  }

  /** A settled entry stays settled; a filled one shows an order that was reported filled, and a basic one
      that ended otherwise shows the terminal report it ended with. */
  lemma SettlementIsFinal(events: seq<Event>, more: seq<Event>, id: EntryId)
    requires id in Run(INITIAL, events).entries
    ensures var e := Run(INITIAL, events).entries[id]; var later := Run(Run(INITIAL, events), more).entries;
      && id in later
      && (IsSettled(e.status) ==> IsSettled(later[id].status))
      && (e.status == SubmissionFailed ==> later[id] == e.(action := later[id].action))
      && (later[id].status == FilledEntry ==>
            later[id].terminalOrder.Some? && IsFilled(later[id].exchanger, later[id].terminalOrder.value.status))
      && (later[id].status == TerminalEntry && later[id].kind == BasicOrder ==>
            later[id].terminalOrder.Some? && IsTerminal(later[id].exchanger, later[id].terminalOrder.value.status)
            && !IsFilled(later[id].exchanger, later[id].terminalOrder.value.status))
  {
    InitialHolds();
    SessionsKeepTheirPromises(INITIAL, events);
    SessionsKeepTheirPromises(Run(INITIAL, events), more);
    hide Run;
    assert EntryShaped(Run(Run(INITIAL, events), more).entries[id]);
    hide Covered, Driven, TasksFollow, Numbered;
  }

  /** The result of a wait is applied exactly while its entry is still waiting; there is no wait whose
      result would be dropped although its entry still waits for one. */
  lemma WaitResultsAreNeitherLostNorStale(s: System, task: nat, order: OrderInfo, result: OcoWaitResult)
    requires Inv(s) && task in s.tasks && s.tasks[task].WaitTask?
    requires s.tasks[task].entryId in s.entries && IsWaitAnswer(s.entries[s.tasks[task].entryId], order, result)
    ensures var id := s.tasks[task].entryId; var n := Apply(s, WaitEnded(task, order, result));
      && id in s.entries && id in n.entries
      && (s.entries[id].status == Waiting ==>
              n.entries[id].status == FilledEntry || n.entries[id].status == MonitoringFailed)
      && (s.entries[id].status != Waiting ==> n.entries == s.entries)
      && (s.entries[id].status == Waiting && s.entries[id].kind == BasicOrder ==>
              n.entries[id].terminalOrder == Some(order))
  {
    DriverOf(s, task);
    hide Inv;
  }

  /** When monitoring fails while a refresh or cancellation of the entry is in flight, the result of that
      action still counts exactly if the action is a cancellation. */
  lemma MonitoringFailureSparesCancellations(s: System, wait: nat, task: nat)
    requires Inv(s) && wait in s.tasks && s.tasks[wait].WaitTask? && task in s.tasks
    requires var id := s.tasks[wait].entryId;
      id in CoveredIds(s.tasks[task]) && id in s.entries && s.entries[id].status == Waiting
    ensures var id := s.tasks[wait].entryId; var n := Apply(s, WaitFailed(wait));
      && id in n.entries && n.entries[id].status == MonitoringFailed && n.entries[id].action == s.entries[id].action
      && (n.entries[id].revision == s.entries[id].revision <==> !s.tasks[task].RefreshTask?)
  {
    hide Inv, EntryShaped;
    DriverOf(s, wait);
    CoversItsEntries(s, task);
  }

  /** The event completes this refresh or cancellation. */
  predicate Ends(event: Event, task: nat) {
    match event
    case ActionEnded(t, _) => t == task
    case ActionFailed(t) => t == task
    case _ => false
  }

  /** The entry is covered by this action and nothing else will move it on. */
  predicate LeftToAction(s: System, id: EntryId, task: nat) {
    && id in s.entries && id !in s.driver
    && task in s.tasks && !IsDriver(s.tasks[task]) && id in CoveredIds(s.tasks[task])
  }

  /** Nothing about the entry and the action changed. */
  predicate Untouched(s: System, n: System, id: EntryId, task: nat) {
    && LeftToAction(n, id, task) && id in s.entries && n.entries[id] == s.entries[id]
    && task in s.tasks && n.tasks[task] == s.tasks[task]
  }

  lemma DriverSpares(s: System, n: System, t: nat, id: EntryId, task: nat)
    requires Inv(s) && LeftToAction(s, id, task) && MovesDriver(s, n, t)
    ensures Untouched(s, n, id, task)
  {
    if n != s {
      hide Shaped, TasksFollow, Covered, DriverStep, CoveredIds, Drives, IsPending;
      assert s.tasks[t].entryId != id;
      OtherDriversStay(s, n, s.tasks[t].entryId, t);
      IsADriver(s, n, t);
    }
  }

  lemma IsADriver(s: System, n: System, t: nat)
    requires n != s && MovesDriver(s, n, t)
    ensures t in s.tasks && IsDriver(s.tasks[t])
  {
  }

  lemma PlacingSpares(s: System, n: System, e: Entry, id: EntryId, task: nat)
    requires Inv(s) && LeftToAction(s, id, task) && Placed(s, n, e)
    ensures Untouched(s, n, id, task)
  {
    hide Shaped, TasksFollow, Covered, Driven, EntryShaped, CoveredIds, Evolves;
    PlacedIsNew(s, n, e);
    PlacedDrivers(s, n, e);
  }

  lemma StartedLeaves(s: System, n: System, started: Task)
    requires ActionStart(s, n, started)
    ensures n.driver == s.driver
    ensures forall id :: id in s.entries && s.entries[id].action != NoAction ==>
              id in n.entries && n.entries[id] == s.entries[id]
    ensures forall t :: t in s.tasks && t < s.nextTask ==> t in n.tasks && n.tasks[t] == s.tasks[t]
  {
    hide TaskFollows, CoveredIds, ActionOf, IsDriver;
  }

  lemma ActionIsOn(s: System, id: EntryId, task: nat)
    requires Inv(s) && LeftToAction(s, id, task)
    ensures s.entries[id].action != NoAction && task < s.nextTask
  {
    CoversItsEntries(s, task);
    CoveringIsAction(s.tasks[task], id);
  }

  lemma StartSpares(s: System, n: System, id: EntryId, task: nat)
    requires Inv(s) && LeftToAction(s, id, task) && StartsAction(s, n)
    ensures Untouched(s, n, id, task)
  {
    hide Inv, ActionStart, CoveredIds, IsDriver;
    if n != s {
      var started: Task :| ActionStart(s, n, started);
      ActionIsOn(s, id, task);
      StartedLeaves(s, n, started);
    }
  }

  lemma CoveredByOne(s: System, id: EntryId, task: nat, t: nat)
    requires Inv(s) && LeftToAction(s, id, task) && t in s.tasks && t != task
    ensures id !in CoveredIds(s.tasks[t])
  {
    hide Numbered, Shaped, TasksFollow, OwnersCover, Driven, CoveredIds, IsDriver;
  }

  lemma EndedLeaves(s: System, n: System, t: nat, id: EntryId)
    requires ActionEnd(s, n, t) && id in s.entries && id !in CoveredIds(s.tasks[t])
    ensures id in n.entries && n.entries[id] == s.entries[id] && n.driver == s.driver && n.tasks == s.tasks - {t}
  {
    hide Settles, CoveredIds, IsDriver;
  }

  lemma EndSpares(s: System, n: System, t: nat, id: EntryId, task: nat)
    requires Inv(s) && LeftToAction(s, id, task) && EndsAction(s, n, t) && t != task
    ensures Untouched(s, n, id, task)
  {
    hide Inv, ActionEnd, CoveredIds, IsDriver;
    if n != s {
      EndsKnownTask(s, n, t);
      CoveredByOne(s, id, task, t);
      EndedLeaves(s, n, t, id);
    }
  }

  lemma EndsKnownTask(s: System, n: System, t: nat)
    requires ActionEnd(s, n, t)
    ensures t in s.tasks
  {
  }

  lemma MovesSpare(s: System, n: System, event: Event, id: EntryId, task: nat)
    requires Inv(s) && LeftToAction(s, id, task) && Moves(s, n, event) && !Ends(event, task)
    ensures Untouched(s, n, id, task)
  {
    hide Inv, Placed, MovesDriver, StartsAction, EndsAction, LeftToAction, Untouched;
    match event
    case Place(_, _, _, _) => PlacingSpares(s, n, n.entries[s.nextEntryId], id, task);
    case SubmissionAccepted(t, _, _) => DriverSpares(s, n, t, id, task);
    case SubmissionRefused(t) => DriverSpares(s, n, t, id, task);
    case Continued(t, _) => DriverSpares(s, n, t, id, task);
    case WaitEnded(t, _, _) => DriverSpares(s, n, t, id, task);
    case WaitFailed(t) => DriverSpares(s, n, t, id, task);
    case StartRefresh(_) => StartSpares(s, n, id, task);
    case StartCancel(_) => StartSpares(s, n, id, task);
    case StartCancelAll(_, _) => StartSpares(s, n, id, task);
    case ActionEnded(t, _) => EndSpares(s, n, t, id, task);
    case ActionFailed(t) => EndSpares(s, n, t, id, task);
  }

  lemma {:induction false} RunSpares(s: System, events: seq<Event>, id: EntryId, task: nat)
    requires Inv(s) && LeftToAction(s, id, task)
    requires forall i :: 0 <= i < |events| ==> !Ends(events[i], task)
    ensures Inv(Run(s, events)) && Untouched(s, Run(s, events), id, task)
    decreases |events|
  {
    hide Inv, Apply, Moves, Ends;
    if events != [] {
      var n := Apply(s, events[0]);
      EventMoves(s, events[0]);
      MovesSpare(s, n, events[0], id, task);
      EventKeeps(s, events[0]);
      RunSpares(n, events[1..], id, task);
    }
  }

  /** After its monitoring failed, a covered entry is left to the action. */
  lemma FailedWaitLeaves(s: System, wait: nat, task: nat)
    requires Inv(s) && wait in s.tasks && s.tasks[wait].WaitTask? && task in s.tasks
    requires s.tasks[wait].entryId in CoveredIds(s.tasks[task])
    requires (s.tasks[task].CancelTask? || s.tasks[task].CancelAllTask?)
    requires s.tasks[wait].entryId in s.entries && s.entries[s.tasks[wait].entryId].status == Waiting
    ensures var id := s.tasks[wait].entryId; var n := Apply(s, WaitFailed(wait));
      && LeftToAction(n, id, task) && n.tasks[task] == s.tasks[task]
      && n.entries[id] == s.entries[id].(status := MonitoringFailed)
  {
    hide Inv, EntryShaped, CoveredIds;
    DriverOf(s, wait);
    CoversItsEntries(s, task);
  }

  /** The request with which a cancellation covers the entry. */
  predicate IsRequestOf(task: Task, i: nat, request: RefreshRequest) {
    match task
    case CancelTask(r) => i == 0 && r == request
    case CancelAllTask(requests) => i < |requests| && requests[i] == request
    case _ => false
  }

  lemma RequestIsCovered(task: Task, i: nat, request: RefreshRequest)
    requires IsRequestOf(task, i, request)
    ensures request.entryId in CoveredIds(task) && !IsDriver(task)
  {
  }

  lemma CancellationEnds(s: System, task: nat, i: nat, request: RefreshRequest, answers: seq<Answers>)
    requires Inv(s) && task in s.tasks && IsRequestOf(s.tasks[task], i, request)
    requires request.entryId in s.entries
    ensures var n := Apply(s, ActionEnded(task, answers));
      request.entryId in n.entries
      && n.entries[request.entryId] == Outcome(s.entries[request.entryId], AnswerTo(request, answers, i))
  {
    hide Inv, EndedEntries, Outcome, AnswerTo, ActionEnd;
    assert request.entryId in CoveredIds(s.tasks[task]);
    EndReleases(s, task, answers);
  }

  /** So a cancellation of one order or of all orders of the pair that began from the entry's revision is
      applied to the entry in full after the monitoring failure, however late it comes back: whatever else
      happens before it ends leaves the entry as the failure left it. */
  lemma CancellationSurvivesMonitoringFailure(s: System, wait: nat, task: nat, i: nat, request: RefreshRequest,
                                              events: seq<Event>, answers: seq<Answers>)
    requires Inv(s) && wait in s.tasks && s.tasks[wait].WaitTask? && task in s.tasks
    requires IsRequestOf(s.tasks[task], i, request) && request.entryId == s.tasks[wait].entryId
    requires request.entryId in s.entries && s.entries[request.entryId].status == Waiting
    requires request.revision == s.entries[request.entryId].revision
    requires forall k :: 0 <= k < |events| ==> !Ends(events[k], task)
    ensures var failed := s.entries[request.entryId].(status := MonitoringFailed);
      var m := Run(Apply(s, WaitFailed(wait)), events); var n := Apply(m, ActionEnded(task, answers));
      && request.entryId in m.entries && m.entries[request.entryId] == failed
      && request.entryId in n.entries && n.entries[request.entryId] == Settle(failed, AnswerTo(request, answers, i))
  {
    hide Inv, Run, Apply, Ends, EntryShaped, Settle, AnswerTo, CoveredIds;
    RequestIsCovered(s.tasks[task], i, request);
    FailedWaitLeaves(s, wait, task);
    EventKeeps(s, WaitFailed(wait));
    var m := Run(Apply(s, WaitFailed(wait)), events);
    RunSpares(Apply(s, WaitFailed(wait)), events, request.entryId, task);
    CancellationEnds(m, task, i, request, answers);
    AnswerIsFor(request, answers, i);
  }

  lemma AnswerIsFor(request: RefreshRequest, answers: seq<Answers>, i: nat)
    ensures AnswerTo(request, answers, i).request == request
  {
  }
}
