/** The run manager hands out run ids and update sequences and publishes a snapshot for every change; the
    run model merges the snapshots it is sent. Each function of Manager is one critical section. */
module RunManagerState {
  import opened Domain
  import opened ChainState

  type RunId = nat

  /** Ids and sequences are 64-bit counters that start at 1; 0 is what they wrap to. */
  const LIMIT: nat := 0x1_0000_0000_0000_0000

  function Next(counter: nat): nat {
    (counter + 1) % LIMIT
  }

  datatype RunSnapshot = RunSnapshot(runId: RunId, chain: Chain, updateSequence: nat, simulated: bool,
                                     cancellationRequested: bool)

  predicate IsRunTerminal(status: ChainStatus) {
    status == ChainCompleted || status == ChainFailed || status == ChainCancelled
  }

  /** `issued` are the ids ever taken from the counter, `published` the snapshots sent out, oldest first, and
      `told` the runs that were told to cancel, in the order in which they were. */
  datatype Manager = Manager(
    runs: map<RunId, RunSnapshot>,
    nextRunId: nat,
    nextUpdateSequence: nat,
    issued: set<RunId>,
    published: seq<RunSnapshot>,
    told: seq<RunId>)
  {
    /** Starts a run whose chain could be built. A build that throws has used up an id, and a thread
        that does not start an id and a sequence, but no run is left behind. */
    function StartRun(definitionKnown: bool, chain: Result<Chain>, simulated: bool, threadStarts: bool)
      : (Manager, Result<RunId>)
    {
      if !definitionKnown then (this, Err("Unknown operation-chain definition"))
      else if nextRunId == 0 then (this, Err("Operation-chain run ID space is exhausted"))
      else if nextUpdateSequence == 0 then (this, Err("Operation-chain update sequence space is exhausted"))
      else
        var id := nextRunId;
        var taken := this.(nextRunId := Next(id), issued := issued + {id});
        if chain.Err? then (taken, Err(chain.error))
        else
          var snapshot := RunSnapshot(id, chain.value, nextUpdateSequence, simulated, false);
          var numbered := taken.(nextUpdateSequence := Next(nextUpdateSequence));
          if id in runs then (numbered, Err("Operation-chain run ID collision"))
          else if !threadStarts then (numbered, Err("thread did not start"))
          else (numbered.(runs := runs[id := snapshot], published := published + [snapshot]), Ok(id))
    }

    function Change(id: RunId, snapshot: RunSnapshot): Manager {
      this.(runs := runs[id := snapshot], nextUpdateSequence := Next(nextUpdateSequence),
            published := published + [snapshot])
    }

    function RequestRunCancellation(id: RunId): Result<Manager> {
      if id !in runs then Err("Unknown operation-chain run")
      else if runs[id].cancellationRequested || IsRunTerminal(runs[id].chain.status) then Ok(this)
      else if nextUpdateSequence == 0 then Err("Operation-chain update sequence space is exhausted")
      else
        var snapshot := runs[id].(cancellationRequested := true, updateSequence := nextUpdateSequence);
        Ok(Change(id, snapshot).(told := told + [id]))
    }

    function UpdateRun(id: RunId, chain: Chain): Result<Manager> {
      if id !in runs then Ok(this)
      else if chain.revision <= runs[id].chain.revision then Ok(this)
      else if nextUpdateSequence == 0 then Err("Operation-chain update sequence space is exhausted")
      else Ok(Change(id, runs[id].(chain := chain, updateSequence := nextUpdateSequence)))
    }
  }

  const INITIAL := Manager(map[], 1, 1, {}, [], [])

  datatype Event =
    | StartRunEvent(definitionKnown: bool, built: Result<Chain>, simulated: bool, threadStarts: bool)
    | CancelEvent(id: RunId)
    | UpdateEvent(id: RunId, chain: Chain)

  function Apply(m: Manager, event: Event): Manager {
    match event
    case StartRunEvent(definitionKnown, chain, simulated, threadStarts) =>
      m.StartRun(definitionKnown, chain, simulated, threadStarts).0
    case CancelEvent(id) => (match m.RequestRunCancellation(id) case Ok(next) => next case Err(_) => m)
    case UpdateEvent(id, chain) => (match m.UpdateRun(id, chain) case Ok(next) => next case Err(_) => m)
  }

  function Run(m: Manager, events: seq<Event>): Manager
    decreases |events|
  {
    if events == [] then m else Run(Apply(m, events[0]), events[1..])
  }

  // ---- The run model ----

  function Merge(runs: map<RunId, RunSnapshot>, snapshot: RunSnapshot): map<RunId, RunSnapshot> {
    if snapshot.runId in runs && runs[snapshot.runId].updateSequence >= snapshot.updateSequence then runs
    else runs[snapshot.runId := snapshot]
  }

  function MergeAll(runs: map<RunId, RunSnapshot>, delivered: seq<RunSnapshot>): map<RunId, RunSnapshot> {
    if delivered == [] then runs
    else Merge(MergeAll(runs, delivered[..|delivered| - 1]), delivered[|delivered| - 1])
  }

  // ---- What every run of the manager keeps ----

  /** A counter that has not wrapped is above everything it gave out; one that has stays at 0. */
  predicate IsPast(number: nat, counter: nat) {
    1 <= number < LIMIT && (counter == 0 || number < counter)
  }

  predicate Numbered(m: Manager) {
    && m.nextRunId < LIMIT && m.nextUpdateSequence < LIMIT
    && (forall id :: id in m.issued ==> IsPast(id, m.nextRunId))
    && (forall id :: id in m.runs ==> id in m.issued && m.runs[id].runId == id)
    && (forall i :: 0 <= i < |m.published| ==> IsPast(m.published[i].updateSequence, m.nextUpdateSequence))
  }

  predicate NotBehind(a: RunSnapshot, b: RunSnapshot) {
    && a.updateSequence <= b.updateSequence
    && (a.updateSequence == b.updateSequence ==> a == b)
    && a.chain.revision <= b.chain.revision
    && (a.cancellationRequested ==> b.cancellationRequested)
  }

  /** The stored snapshot of a run is the newest of those published about it, in every respect. */
  predicate NewestStored(m: Manager) {
    && (forall i :: 0 <= i < |m.published| ==>
          m.published[i].runId in m.runs && NotBehind(m.published[i], m.runs[m.published[i].runId]))
    && (forall id :: id in m.runs ==> m.runs[id] in m.published)
  }

  predicate Ordered(m: Manager) {
    forall i, j :: 0 <= i < j < |m.published| ==>
      && m.published[i].updateSequence < m.published[j].updateSequence
      && (m.published[i].runId == m.published[j].runId ==> NotBehind(m.published[i], m.published[j]))
  }

  predicate Inv(m: Manager) {
    Numbered(m) && NewestStored(m) && Ordered(m)
  }

  lemma PastStaysPast(counter: nat)
    requires 0 < counter < LIMIT
    ensures IsPast(counter, Next(counter)) && Next(counter) < LIMIT
    ensures forall number :: IsPast(number, counter) ==> IsPast(number, Next(counter)) && number != counter
  {
  }

  predicate ChangeFits(m: Manager, id: RunId, snapshot: RunSnapshot) {
    && 0 < m.nextUpdateSequence < LIMIT
    && snapshot.runId == id && snapshot.updateSequence == m.nextUpdateSequence
    && (id in m.runs ==>
          m.runs[id].chain.revision <= snapshot.chain.revision
          && (m.runs[id].cancellationRequested ==> snapshot.cancellationRequested))
  }

  lemma PublishedIsEarlier(m: Manager, id: RunId, snapshot: RunSnapshot)
    requires Numbered(m) && NewestStored(m) && ChangeFits(m, id, snapshot)
    ensures forall i :: 0 <= i < |m.published| ==> m.published[i].updateSequence < snapshot.updateSequence
    ensures forall i :: 0 <= i < |m.published| && m.published[i].runId == id ==> NotBehind(m.published[i], snapshot)
    ensures |m.Change(id, snapshot).published| == |m.published| + 1
    ensures forall i :: 0 <= i < |m.published| ==> m.Change(id, snapshot).published[i] == m.published[i]
    ensures m.Change(id, snapshot).published[|m.published|] == snapshot
  {
    forall i | 0 <= i < |m.published|
      ensures m.published[i].updateSequence < snapshot.updateSequence
    {
      assert IsPast(m.published[i].updateSequence, m.nextUpdateSequence);
    }
  }

  lemma ChangeKeepsNumbered(m: Manager, id: RunId, snapshot: RunSnapshot)
    requires Numbered(m) && ChangeFits(m, id, snapshot) && id in m.issued
    ensures Numbered(m.Change(id, snapshot))
  {
    hide IsPast, Next;
    PastStaysPast(m.nextUpdateSequence);
    var n := m.Change(id, snapshot);
    forall i | 0 <= i < |n.published|
      ensures IsPast(n.published[i].updateSequence, n.nextUpdateSequence)
    {
      if i < |m.published| {
        assert n.published[i] == m.published[i];
        assert IsPast(m.published[i].updateSequence, m.nextUpdateSequence);
      }
    }
  }

  lemma ChangeKeepsNewest(m: Manager, id: RunId, snapshot: RunSnapshot)
    requires Numbered(m) && NewestStored(m) && ChangeFits(m, id, snapshot)
    ensures NewestStored(m.Change(id, snapshot))
  {
    PublishedIsEarlier(m, id, snapshot);
    var n := m.Change(id, snapshot);
    forall other | other in n.runs
      ensures n.runs[other] in n.published
    {
      if other != id {
        var i :| 0 <= i < |m.published| && m.published[i] == m.runs[other];
        assert n.published[i] == n.runs[other];
      }
    }
    forall i | 0 <= i < |n.published|
      ensures n.published[i].runId in n.runs && NotBehind(n.published[i], n.runs[n.published[i].runId])
    {
      if i < |m.published| {
        assert NotBehind(m.published[i], m.runs[m.published[i].runId]);
      }
    }
    hide NotBehind, Numbered;
  }

  lemma ChangeKeepsOrdered(m: Manager, id: RunId, snapshot: RunSnapshot)
    requires Numbered(m) && NewestStored(m) && Ordered(m) && ChangeFits(m, id, snapshot)
    ensures Ordered(m.Change(id, snapshot))
  {
    hide Numbered, NewestStored, NotBehind, ChangeFits;
    PublishedIsEarlier(m, id, snapshot);
    assert snapshot.runId == id by { FitsItsRun(m, id, snapshot); }
  }

  lemma FitsItsRun(m: Manager, id: RunId, snapshot: RunSnapshot)
    requires ChangeFits(m, id, snapshot)
    ensures snapshot.runId == id
  {
  }

  lemma StoredIsPublished(m: Manager, id: RunId)
    requires Inv(m) && id in m.runs
    ensures exists i :: 0 <= i < |m.published| && m.published[i] == m.runs[id] && m.published[i].runId == id
  {
    hide Ordered, IsPast;
    assert m.runs[id] in m.published;
  }

  lemma ChangeKeeps(m: Manager, id: RunId, snapshot: RunSnapshot)
    requires Inv(m) && ChangeFits(m, id, snapshot) && id in m.issued
    ensures Inv(m.Change(id, snapshot))
    ensures id in m.runs ==> NotBehind(m.runs[id], snapshot)
  {
    hide Numbered, NewestStored, Ordered, NotBehind, ChangeFits;
    PublishedIsEarlier(m, id, snapshot);
    ChangeKeepsNumbered(m, id, snapshot);
    ChangeKeepsNewest(m, id, snapshot);
    ChangeKeepsOrdered(m, id, snapshot);
    if id in m.runs {
      StoredIsPublished(m, id);
    }
  }

  lemma TakingIdKeeps(m: Manager)
    requires Inv(m) && m.nextRunId != 0
    ensures m.nextRunId !in m.issued && m.nextRunId !in m.runs
    ensures Inv(m.(nextRunId := Next(m.nextRunId), issued := m.issued + {m.nextRunId}))
  {
    PastStaysPast(m.nextRunId);
    hide NewestStored, Ordered, Next, IsPast;
  }

  lemma TakingSequenceKeeps(m: Manager)
    requires Inv(m) && m.nextUpdateSequence != 0
    ensures Inv(m.(nextUpdateSequence := Next(m.nextUpdateSequence)))
  {
    PastStaysPast(m.nextUpdateSequence);
    hide NewestStored, Ordered, Next, IsPast;
  }

  lemma StartKeeps(m: Manager, definitionKnown: bool, chain: Result<Chain>, simulated: bool, threadStarts: bool)
    requires Inv(m)
    ensures var (n, answer) := m.StartRun(definitionKnown, chain, simulated, threadStarts);
      && Inv(n) && m.issued <= n.issued
      && (answer.Ok? ==> answer.value !in m.issued && answer.value in n.issued)
      && (answer.Err? ==> n.runs == m.runs && n.published == m.published)
      && (chain.Ok? ==> answer != Err("Operation-chain run ID collision"))
  {
    if definitionKnown && m.nextRunId != 0 && m.nextUpdateSequence != 0 {
      TakingIdKeeps(m);
      var id := m.nextRunId;
      var taken := m.(nextRunId := Next(id), issued := m.issued + {id});
      if chain.Ok? {
        TakingSequenceKeeps(taken);
        assert ChangeFits(taken, id, RunSnapshot(id, chain.value, m.nextUpdateSequence, simulated, false));
        ChangeKeeps(taken, id, RunSnapshot(id, chain.value, m.nextUpdateSequence, simulated, false));
      }
    }
    hide Inv, Next, ChangeFits;
  }

  predicate Grows(m: Manager, n: Manager) {
    m.issued <= n.issued && forall id :: id in m.runs ==> id in n.runs && NotBehind(m.runs[id], n.runs[id])
  }

  lemma ChangeGrows(m: Manager, id: RunId, snapshot: RunSnapshot)
    requires id in m.runs ==> NotBehind(m.runs[id], snapshot)
    ensures Grows(m, m.Change(id, snapshot))
  {
  }

  lemma StartGrows(m: Manager, definitionKnown: bool, chain: Result<Chain>, simulated: bool, threadStarts: bool)
    ensures Grows(m, m.StartRun(definitionKnown, chain, simulated, threadStarts).0)
  {
    hide Next;
  }

  /** What is promised about snapshots does not depend on who was told. */
  lemma ToldIsApart(m: Manager, told: seq<RunId>)
    requires Inv(m)
    ensures Inv(m.(told := told))
  {
    hide IsPast, NotBehind;
  }

  lemma NothingGrows(m: Manager)
    ensures Grows(m, m)
  {
  }

  lemma CancelKeeps(m: Manager, id: RunId)
    requires Inv(m)
    ensures var n := Apply(m, CancelEvent(id)); Inv(n) && Grows(m, n)
  {
    hide Inv, Grows, ChangeFits, NotBehind, Next;
    NothingGrows(m);
    if id in m.runs && m.nextUpdateSequence != 0 {
      StoredIsPast(m, id);
      var snapshot := m.runs[id].(cancellationRequested := true, updateSequence := m.nextUpdateSequence);
      SnapshotFits(m, id, snapshot);
      ChangeKeeps(m, id, snapshot);
      ChangeGrows(m, id, snapshot);
      ToldIsApart(m.Change(id, snapshot), m.told + [id]);
      ToldGrows(m, m.Change(id, snapshot), m.told + [id]);
    }
  }

  lemma ToldGrows(m: Manager, n: Manager, told: seq<RunId>)
    requires Grows(m, n)
    ensures Grows(m, n.(told := told))
  {
  }

  lemma SnapshotFits(m: Manager, id: RunId, snapshot: RunSnapshot)
    requires Inv(m) && m.nextUpdateSequence != 0 && id in m.runs && snapshot.runId == id
    requires snapshot.updateSequence == m.nextUpdateSequence && m.runs[id].chain.revision <= snapshot.chain.revision
    requires m.runs[id].cancellationRequested ==> snapshot.cancellationRequested
    ensures ChangeFits(m, id, snapshot)
  {
    hide NewestStored, Ordered, IsPast;
  }

  lemma UpdateKeeps(m: Manager, id: RunId, chain: Chain)
    requires Inv(m)
    ensures var n := Apply(m, UpdateEvent(id, chain)); Inv(n) && Grows(m, n)
  {
    hide Inv, Grows, ChangeFits, NotBehind, Next;
    NothingGrows(m);
    if id in m.runs && m.nextUpdateSequence != 0 && chain.revision > m.runs[id].chain.revision {
      StoredIsPast(m, id);
      var snapshot := m.runs[id].(chain := chain, updateSequence := m.nextUpdateSequence);
      SnapshotFits(m, id, snapshot);
      ChangeKeeps(m, id, snapshot);
      ChangeGrows(m, id, snapshot);
    }
  }

  lemma EventKeeps(m: Manager, event: Event)
    requires Inv(m)
    ensures Inv(Apply(m, event)) && Grows(m, Apply(m, event))
  {
    hide Inv, Grows, Next;
    match event
    case StartRunEvent(definitionKnown, chain, simulated, threadStarts) =>
      StartKeeps(m, definitionKnown, chain, simulated, threadStarts);
      StartGrows(m, definitionKnown, chain, simulated, threadStarts);
    case CancelEvent(id) => CancelKeeps(m, id);
    case UpdateEvent(id, chain) => UpdateKeeps(m, id, chain);
  }

  lemma StoredIsPast(m: Manager, id: RunId)
    requires Inv(m) && id in m.runs
    ensures IsPast(m.runs[id].updateSequence, m.nextUpdateSequence) && id in m.issued && m.runs[id].runId == id
  {
    var i :| 0 <= i < |m.published| && m.published[i] == m.runs[id];
  }

  /** Over every sequence of starts, cancellations and updates, also past the end of both counters: ids
      and sequences are never given out twice, and what is stored about a run never goes back. */
  lemma {:induction false} ManagerKeepsItsPromises(m: Manager, events: seq<Event>)
    requires Inv(m)
    ensures var n := Run(m, events);
      Inv(n) && Grows(m, n)
    decreases |events|
  {
    hide Inv;
    if events != [] {
      EventKeeps(m, events[0]);
      ManagerKeepsItsPromises(Apply(m, events[0]), events[1..]);
    }
    hide Apply;
  }

  /** A started run gets an id that was never given out before, in any run of the manager. */
  lemma RunIdsAreNeverReused(events: seq<Event>, definitionKnown: bool, chain: Result<Chain>, simulated: bool,
                             threadStarts: bool)
    ensures var m := Run(INITIAL, events);
            var answer := m.StartRun(definitionKnown, chain, simulated, threadStarts).1;
      answer.Ok? ==> 1 <= answer.value < LIMIT && answer.value !in m.issued && answer.value !in m.runs
  {
    ManagerKeepsItsPromises(INITIAL, events);
    StartKeeps(Run(INITIAL, events), definitionKnown, chain, simulated, threadStarts);
    hide Run;
  }

  /** Sequences of published snapshots are never used twice. */
  lemma SequencesAreNeverReused(events: seq<Event>, i: nat, j: nat)
    requires i < |Run(INITIAL, events).published| && j < |Run(INITIAL, events).published|
    requires Run(INITIAL, events).published[i].updateSequence == Run(INITIAL, events).published[j].updateSequence
    ensures i == j
  {
    ManagerKeepsItsPromises(INITIAL, events);
    hide Run;
  }

  // ---- What a request, an update and a start bring about ----

  /** Every run of the manager other than this one is as it was, and what was published stays. */
  ghost predicate OnlyRunChanged(m: Manager, n: Manager, id: RunId) {
    && n.nextRunId == m.nextRunId && n.issued == m.issued
    && m.published <= n.published
    && (forall other :: other != id ==> (other in n.runs <==> other in m.runs))
    && (forall other :: other != id && other in m.runs ==> n.runs[other] == m.runs[other])
  }

  /** A request for a run that is neither ended nor flagged reaches it: the run is told to cancel, its flag is
      set and nothing else about it, and exactly one snapshot is published, which shows the flag. A request for
      a run that has ended or was flagged before changes and publishes nothing, and is no error. */
  lemma RequestReachesTheRun(events: seq<Event>, id: RunId)
    ensures var m := Run(INITIAL, events); var answer := m.RequestRunCancellation(id);
      && (id !in m.runs ==> answer.Err?)
      && (id in m.runs && (m.runs[id].cancellationRequested || IsRunTerminal(m.runs[id].chain.status)) ==>
            answer == Ok(m))
      && (id in m.runs && !m.runs[id].cancellationRequested
          && m.runs[id].chain.status in {ChainPending, ChainRunning} ==>
            if m.nextUpdateSequence == 0 then answer.Err?
            else
              && answer.Ok? && OnlyRunChanged(m, answer.value, id)
              && id in answer.value.runs && answer.value.runs[id].cancellationRequested
              && answer.value.runs[id].chain == m.runs[id].chain
              && answer.value.runs[id].simulated == m.runs[id].simulated
              && answer.value.published == m.published + [answer.value.runs[id]]
              && answer.value.told == m.told + [id])
  {
    hide Run;
  }

  /** A newer record of a known run is stored and published, with its flag as it was; an older one, or one of
      an unknown run, changes nothing. */
  lemma UpdateReachesTheRun(events: seq<Event>, id: RunId, chain: Chain)
    ensures var m := Run(INITIAL, events); var answer := m.UpdateRun(id, chain);
      && (id !in m.runs || chain.revision <= m.runs[id].chain.revision ==> answer == Ok(m))
      && (id in m.runs && chain.revision > m.runs[id].chain.revision ==>
            if m.nextUpdateSequence == 0 then answer.Err?
            else
              && answer.Ok? && OnlyRunChanged(m, answer.value, id) && answer.value.told == m.told
              && id in answer.value.runs && answer.value.runs[id].chain == chain
              && answer.value.runs[id].cancellationRequested == m.runs[id].cancellationRequested
              && answer.value.published == m.published + [answer.value.runs[id]])
  {
    hide Run;
  }

  /** A start succeeds exactly if the definition is known, both counters have numbers left, the run can be built
      and its thread starts; then the run is stored under the id in the answer, not flagged, and published. */
  lemma StartStoresTheRun(events: seq<Event>, definitionKnown: bool, chain: Result<Chain>, simulated: bool,
                          threadStarts: bool)
    ensures var m := Run(INITIAL, events);
      var (n, answer) := m.StartRun(definitionKnown, chain, simulated, threadStarts);
      && (answer.Ok? <==> definitionKnown && m.nextRunId != 0 && m.nextUpdateSequence != 0 && chain.Ok? && threadStarts)
      && (answer.Ok? ==>
            && n.runs.Keys == m.runs.Keys + {answer.value} && (forall id :: id in m.runs ==> n.runs[id] == m.runs[id])
            && n.runs[answer.value].chain == chain.value && n.runs[answer.value].simulated == simulated
            && !n.runs[answer.value].cancellationRequested && n.told == m.told
            && n.published == m.published + [n.runs[answer.value]])
  {
    hide Run, Inv, Next;
    StartsRight();
    ManagerKeepsItsPromises(INITIAL, events);
    StartKeeps(Run(INITIAL, events), definitionKnown, chain, simulated, threadStarts);
    if Run(INITIAL, events).nextRunId != 0 {
      TakingIdKeeps(Run(INITIAL, events));
    }
  }

  /** The runs that were told to cancel are exactly the flagged ones, and each was told once. */
  ghost predicate ToldOnce(m: Manager) {
    && (forall id :: id in m.told <==> id in m.runs && m.runs[id].cancellationRequested)
    && (forall i, j :: 0 <= i < j < |m.told| ==> m.told[i] != m.told[j])
  }

  lemma EventKeepsTold(m: Manager, event: Event)
    requires Inv(m) && ToldOnce(m)
    ensures ToldOnce(Apply(m, event))
  {
    hide NewestStored, Ordered, Next;
    match event
    case StartRunEvent(definitionKnown, chain, simulated, threadStarts) =>
      if m.nextRunId != 0 {
        TakingIdKeeps(m);
      }
    case CancelEvent(id) =>
    case UpdateEvent(id, chain) =>
  }

  lemma {:induction false} ToldOnceAlways(m: Manager, events: seq<Event>)
    requires Inv(m) && ToldOnce(m)
    ensures ToldOnce(Run(m, events))
    decreases |events|
  {
    hide Inv, ToldOnce, Apply;
    if events != [] {
      EventKeeps(m, events[0]);
      EventKeepsTold(m, events[0]);
      ToldOnceAlways(Apply(m, events[0]), events[1..]);
    }
  }

  /** Over every sequence of events, a run is told to cancel exactly if it is flagged, and never twice. */
  lemma OneRequestPerRun(events: seq<Event>)
    ensures ToldOnce(Run(INITIAL, events))
  {
    hide Run, Inv;
    StartsRight();
    ToldOnceAlways(INITIAL, events);
  }

  // ---- Convergence ----

  /** Whatever was delivered, in any order and however often: the model knows exactly the runs it was told
      of, each by the newest snapshot it was told. */
  lemma {:induction false} ModelHoldsNewest(delivered: seq<RunSnapshot>)
    ensures var model := MergeAll(map[], delivered);
      && (forall i :: 0 <= i < |delivered| ==>
            delivered[i].runId in model && delivered[i].updateSequence <= model[delivered[i].runId].updateSequence)
      && (forall id :: id in model ==> model[id] in delivered && model[id].runId == id)
  {
    if delivered != [] {
      var init := delivered[..|delivered| - 1];
      ModelHoldsNewest(init);
      assert forall i :: 0 <= i < |init| ==> init[i] == delivered[i];
      assert delivered[|delivered| - 1] in delivered;
      assert forall s :: s in init ==> s in delivered;
    }
  }

  predicate SameSnapshots(a: seq<RunSnapshot>, b: seq<RunSnapshot>) {
    (forall s :: s in a ==> s in b) && (forall s :: s in b ==> s in a)
  }

  /** Once every published snapshot was delivered at least once, in whatever order, the model is the
      manager's own map. */
  lemma NotificationsConverge(events: seq<Event>, delivered: seq<RunSnapshot>)
    requires SameSnapshots(delivered, Run(INITIAL, events).published)
    ensures MergeAll(map[], delivered) == Run(INITIAL, events).runs
  {
    hide Run, Inv, Grows;
    StartsRight();
    ManagerKeepsItsPromises(INITIAL, events);
    var m := Run(INITIAL, events);
    ModelHoldsNewest(delivered);
    var model := MergeAll(map[], delivered);
    hide MergeAll;
    forall id | id in model
      ensures id in m.runs && model[id] == m.runs[id]
    {
      ModelAgrees(m, delivered, model, id);
    }
    forall id | id in m.runs
      ensures id in model
    {
      StoredIsPublished(m, id);
      assert m.runs[id] in delivered;
    }
  }

  lemma StartsRight()
    ensures Inv(INITIAL)
  {
  }

  lemma ModelAgrees(m: Manager, delivered: seq<RunSnapshot>, model: map<RunId, RunSnapshot>, id: RunId)
    requires Inv(m) && SameSnapshots(delivered, m.published) && id in model
    requires forall i :: 0 <= i < |delivered| ==>
               delivered[i].runId in model && delivered[i].updateSequence <= model[delivered[i].runId].updateSequence
    requires model[id] in delivered && model[id].runId == id
    ensures id in m.runs && model[id] == m.runs[id]
  {
    assert model[id] in m.published;
    var i :| 0 <= i < |m.published| && m.published[i] == model[id];
    assert NotBehind(m.published[i], m.runs[id]);
    assert m.runs[id] in delivered;
    StoredIsPast(m, id);
    var j :| 0 <= j < |delivered| && delivered[j] == m.runs[id];
  }

  /** Before that, a further snapshot never takes the model back: neither the revision of a run nor its
      cancellation flag, however late the snapshot comes. */
  lemma ModelNeverGoesBack(events: seq<Event>, delivered: seq<RunSnapshot>, further: RunSnapshot, id: RunId)
    requires forall s :: s in delivered + [further] ==> s in Run(INITIAL, events).published
    requires id in MergeAll(map[], delivered)
    ensures var before := MergeAll(map[], delivered); var after := MergeAll(map[], delivered + [further]);
      id in after && NotBehind(before[id], after[id])
  {
    ManagerKeepsItsPromises(INITIAL, events);
    ModelHoldsNewest(delivered);
    assert (delivered + [further])[..|delivered|] == delivered;
    var before := MergeAll(map[], delivered);
    assert MergeAll(map[], delivered + [further]) == Merge(before, further);
    assert before[id] in delivered + [further] && further in delivered + [further];
    MergeNeverGoesBack(Run(INITIAL, events), before, further, id);
    hide *;
  }

  /** Once a flagged snapshot of a run was delivered, the model shows the run as flagged, whatever else is
      delivered before or after. */
  lemma FlagIsShown(events: seq<Event>, delivered: seq<RunSnapshot>, flagged: RunSnapshot)
    requires forall s :: s in delivered ==> s in Run(INITIAL, events).published
    requires flagged in delivered && flagged.cancellationRequested
    ensures var model := MergeAll(map[], delivered);
      flagged.runId in model && model[flagged.runId].cancellationRequested
  {
    hide Run, Inv;
    StartsRight();
    ManagerKeepsItsPromises(INITIAL, events);
    ModelHoldsNewest(delivered);
    var model := MergeAll(map[], delivered);
    hide MergeAll;
    var k :| 0 <= k < |delivered| && delivered[k] == flagged;
    assert delivered[k].runId in model && delivered[k].updateSequence <= model[delivered[k].runId].updateSequence;
    LaterIsNotBehind(Run(INITIAL, events), flagged, model[flagged.runId]);
  }

  lemma LaterIsNotBehind(m: Manager, a: RunSnapshot, b: RunSnapshot)
    requires Inv(m) && a in m.published && b in m.published
    requires a.runId == b.runId && a.updateSequence <= b.updateSequence
    ensures NotBehind(a, b)
  {
    hide Numbered, NewestStored;
    var i :| 0 <= i < |m.published| && m.published[i] == a;
    var j :| 0 <= j < |m.published| && m.published[j] == b;
  }

  lemma MergeNeverGoesBack(m: Manager, before: map<RunId, RunSnapshot>, further: RunSnapshot, id: RunId)
    requires Ordered(m) && id in before && before[id].runId == id
    requires before[id] in m.published && further in m.published
    ensures id in Merge(before, further) && NotBehind(before[id], Merge(before, further)[id])
  {
    var i :| 0 <= i < |m.published| && m.published[i] == before[id];
    var j :| 0 <= j < |m.published| && m.published[j] == further;
  }
}

/** The two objects that hold the runs. */
module RunManagerObject {
  import opened Domain
  import opened ChainState
  import opened RunManagerState

  class OperationChainRunManager {
    var runs: map<RunId, RunSnapshot>
    var nextRunId: nat
    var nextUpdateSequence: nat
    ghost var issued: set<RunId>
    ghost var published: seq<RunSnapshot>
    ghost var told: seq<RunId>

    ghost function View(): Manager
      reads this
    {
      Manager(runs, nextRunId, nextUpdateSequence, issued, published, told)
    }

    constructor ()
      ensures View() == INITIAL
    {
      runs, nextRunId, nextUpdateSequence, issued, published, told := map[], 1, 1, {}, [], [];
    }

    method StartRun(definitionKnown: bool, chain: Result<Chain>, simulated: bool, threadStarts: bool)
      returns (answer: Result<RunId>)
      modifies this
      ensures (View(), answer) == old(View()).StartRun(definitionKnown, chain, simulated, threadStarts)
    {
      if !definitionKnown {
        return Err("Unknown operation-chain definition");
      }
      if nextRunId == 0 {
        return Err("Operation-chain run ID space is exhausted");
      }
      if nextUpdateSequence == 0 {
        return Err("Operation-chain update sequence space is exhausted");
      }
      var runId := nextRunId;
      nextRunId := Next(nextRunId);
      issued := issued + {runId};
      if chain.Err? {
        return Err(chain.error);
      }
      var snapshot := RunSnapshot(runId, chain.value, nextUpdateSequence, simulated, false);
      nextUpdateSequence := Next(nextUpdateSequence);
      if runId in runs {
        return Err("Operation-chain run ID collision");
      }
      runs := runs[runId := snapshot];
      if !threadStarts {
        runs := runs - {runId};
        assert runs == old(runs);
        return Err("thread did not start");
      }
      published := published + [snapshot];
      return Ok(runId);
    }

    method RequestRunCancellation(runId: RunId) returns (thrown: Option<string>)
      modifies this
      ensures match old(View()).RequestRunCancellation(runId)
              case Ok(next) => thrown == None && View() == next
              case Err(error) => thrown == Some(error) && View() == old(View())
    {
      if runId !in runs {
        return Some("Unknown operation-chain run");
      }
      if runs[runId].cancellationRequested || IsRunTerminal(runs[runId].chain.status) {
        return None;
      }
      if nextUpdateSequence == 0 {
        return Some("Operation-chain update sequence space is exhausted");
      }
      var snapshot := runs[runId].(cancellationRequested := true, updateSequence := nextUpdateSequence);
      nextUpdateSequence := Next(nextUpdateSequence);
      runs := runs[runId := snapshot];
      told := told + [runId];
      published := published + [snapshot];
      return None;
    }

    method UpdateRun(runId: RunId, chain: Chain) returns (thrown: Option<string>)
      modifies this
      ensures match old(View()).UpdateRun(runId, chain)
              case Ok(next) => thrown == None && View() == next
              case Err(error) => thrown == Some(error) && View() == old(View())
    {
      if runId !in runs || chain.revision <= runs[runId].chain.revision {
        return None;
      }
      if nextUpdateSequence == 0 {
        return Some("Operation-chain update sequence space is exhausted");
      }
      var snapshot := runs[runId].(chain := chain, updateSequence := nextUpdateSequence);
      nextUpdateSequence := Next(nextUpdateSequence);
      runs := runs[runId := snapshot];
      published := published + [snapshot];
      return None;
    }
  }

  class OperationChainRunModel {
    var runs: map<RunId, RunSnapshot>
    ghost var delivered: seq<RunSnapshot>

    /** The model is what its deliveries merge to. */
    ghost predicate Valid()
      reads this
    {
      runs == MergeAll(map[], delivered)
    }

    constructor ()
      ensures Valid() && delivered == []
    {
      runs, delivered := map[], [];
    }

    method UpdateRun(snapshot: RunSnapshot)
      requires Valid()
      modifies this
      ensures Valid() && delivered == old(delivered) + [snapshot] && runs == Merge(old(runs), snapshot)
    {
      delivered := delivered + [snapshot];
      assert delivered[..|delivered| - 1] == old(delivered);
      if snapshot.runId in runs && runs[snapshot.runId].updateSequence >= snapshot.updateSequence {
        return;
      }
      runs := runs[snapshot.runId := snapshot];
    }

    /** Every stored run once. */
    method GetRuns() returns (snapshots: seq<RunSnapshot>)
      requires Valid()
      ensures forall s :: s in snapshots <==> s.runId in runs && runs[s.runId] == s
      ensures |snapshots| == |runs|
    {
      ModelHoldsNewest(delivered);
      snapshots := [];
      var left := runs.Keys;
      while left != {}
        invariant left <= runs.Keys && |snapshots| + |left| == |runs.Keys|
        invariant forall s :: s in snapshots <==> s.runId in runs && s.runId !in left && runs[s.runId] == s
        decreases |left|
      {
        var id :| id in left;
        snapshots := snapshots + [runs[id]];
        left := left - {id};
      }
    }
  }
}
