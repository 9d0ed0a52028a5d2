/** The simulated run: the same snapshots as a real run, without an exchange. It goes through its first
    steps, stays at an awaiting one, and ends only by cancellation. */
module SimulatedRun {
  import opened Domain
  import opened ChainState
  import opened ChainShape

  datatype Plan = Plan(
    operations: seq<Operation>,
    initial: Context,
    awaitingStepIndex: nat,
    succeededStepContexts: seq<Context>,
    acceptedIdentifiers: seq<AcceptedIds>,
    startDelay: int,
    stepDelay: int)

  function PlanError(plan: Plan): Option<string> {
    if plan.awaitingStepIndex >= |plan.operations| then Some("Awaiting step index is out of range")
    else if |plan.succeededStepContexts| != plan.awaitingStepIndex then Some("one output context per Succeeded step")
    else if |plan.acceptedIdentifiers| != |plan.operations| then Some("identifier data for every step")
    else if plan.startDelay < 0 then Some("non-negative start delay")
    else if plan.stepDelay < 0 then Some("non-negative step delay")
    else None
  }

  // ---- Transitions that differ from those of a real run ----

  function FinishedStep(chain: Chain, i: nat, context: Context, ids: AcceptedIds, now: Time): Result<Chain> {
    if i >= |chain.steps| then Err("step index")
    else if chain.steps[i].status != StepRunning then Err("Simulated operation-chain step is not running")
    else
      var step := chain.steps[i].(status := StepSucceeded, output := Some(context), ids := ids,
                                  finishedAt := Some(now));
      Ok(chain.(current := context, steps := chain.steps[i := step]).Touch(now))
  }

  function AwaitingStep(chain: Chain, i: nat, ids: AcceptedIds, now: Time): Result<Chain> {
    if i >= |chain.steps| then Err("step index")
    else if chain.steps[i].status != StepRunning then Err("Simulated operation-chain step is not running")
    else Ok(chain.(steps := chain.steps[i := chain.steps[i].(status := StepAwaiting, ids := ids)]).Touch(now))
  }

  function CancelledStep(chain: Chain, i: nat, now: Time): Result<Chain> {
    if i >= |chain.steps| then Err("step index")
    else if !chain.steps[i].IsActive() then Err("Simulated operation-chain step is not cancellable")
    else
      var step := chain.steps[i].(status := StepCancelled, finishedAt := Some(now));
      Ok(chain.(status := ChainCancelled, currentStep := None, finishedAt := Some(now), steps := chain.steps[i := step])
         .Touch(now))
  }

  /** What a step recorded is what the plan says: the operation, the output context once it succeeded, and
      the accepted identifiers from the moment it awaits or succeeds, and none before. */
  predicate StepRecordsPlan(plan: Plan, step: Step, j: nat)
    requires PlanError(plan).None?
  {
    && j < |plan.operations| && step.operation == plan.operations[j]
    && (step.status == StepSucceeded ==>
          j < plan.awaitingStepIndex && step.output == Some(plan.succeededStepContexts[j]))
    && (step.status in {StepSucceeded, StepAwaiting} ==> step.ids == plan.acceptedIdentifiers[j])
    && (step.status in {StepPending, StepRunning} ==> step.ids == NO_IDS)
  }

  predicate RecordsPlan(plan: Plan, chain: Chain)
    requires PlanError(plan).None?
  {
    && |chain.steps| == |plan.operations| && chain.initial == plan.initial
    && (forall j :: 0 <= j < |chain.steps| ==> StepRecordsPlan(plan, chain.steps[j], j))
  }

  /** The run stands before or in step `done`, and recorded what the plan says. */
  predicate FollowsPlan(plan: Plan, chain: Chain, done: nat, started: bool) {
    && PlanError(plan).None? && StatusAgrees(chain, done, started)
    && done <= plan.awaitingStepIndex && RecordsPlan(plan, chain)
  }

  lemma FreshFollows(plan: Plan, now: Time)
    requires PlanError(plan).None?
    ensures FollowsPlan(plan, FreshChain(plan.operations, plan.initial, now), 0, false)
  {
    hide StatusAgrees;
    FreshAgrees(plan.operations, plan.initial, now);
  }

  /** The rest of the record stays when one step is rewritten. */
  lemma RewriteRecords(plan: Plan, chain: Chain, next: Chain, i: nat)
    requires PlanError(plan).None? && RecordsPlan(plan, chain) && OnlyStepChanged(chain, next, i)
    requires next.initial == chain.initial && (i < |next.steps| ==> StepRecordsPlan(plan, next.steps[i], i))
    ensures RecordsPlan(plan, next)
  {
    hide StepRecordsPlan;
  }

  lemma FinishedStepAgrees(chain: Chain, done: nat, context: Context, ids: AcceptedIds, now: Time)
    requires StatusAgrees(chain, done, true) && chain.status == ChainRunning && chain.steps[done].status == StepRunning
    ensures var next := FinishedStep(chain, done, context, ids, now);
      next.Ok? && StatusAgrees(next.value, done + 1, false) && next.value.status == ChainRunning
  {
    var next := FinishedStep(chain, done, context, ids, now).value;
    assert forall j :: 0 <= j < done ==> next.steps[j] == chain.steps[j];
    assert ContextAfter(next, done) == ContextAfter(chain, done);
    assert ProgressAt(next, done + 1, false);
  }

  lemma FinishedStepFollows(plan: Plan, chain: Chain, done: nat, now: Time)
    requires FollowsPlan(plan, chain, done, true) && chain.status == ChainRunning && done < plan.awaitingStepIndex
    requires chain.steps[done].status == StepRunning
    ensures var next := FinishedStep(chain, done, plan.succeededStepContexts[done], plan.acceptedIdentifiers[done],
                                     now);
      next.Ok? && FollowsPlan(plan, next.value, done + 1, false) && next.value.status == ChainRunning
      && next.value.revision == chain.revision + 1
  {
    hide StatusAgrees;
    var next := FinishedStep(chain, done, plan.succeededStepContexts[done], plan.acceptedIdentifiers[done], now);
    FinishedStepAgrees(chain, done, plan.succeededStepContexts[done], plan.acceptedIdentifiers[done], now);
    RewriteRecords(plan, chain, next.value, done);
  }

  lemma AwaitingStepAgrees(chain: Chain, done: nat, ids: AcceptedIds, now: Time)
    requires StatusAgrees(chain, done, true) && chain.status == ChainRunning && chain.steps[done].status == StepRunning
    ensures var next := AwaitingStep(chain, done, ids, now);
      next.Ok? && StatusAgrees(next.value, done, true) && next.value.status == ChainRunning
  {
    var next := AwaitingStep(chain, done, ids, now).value;
    assert forall j :: 0 <= j < done ==> next.steps[j] == chain.steps[j];
    assert ProgressAt(next, done, true);
  }

  lemma AwaitingStepFollows(plan: Plan, chain: Chain, done: nat, now: Time)
    requires FollowsPlan(plan, chain, done, true) && chain.status == ChainRunning
    requires chain.steps[done].status == StepRunning
    ensures var next := AwaitingStep(chain, done, plan.acceptedIdentifiers[done], now);
      next.Ok? && FollowsPlan(plan, next.value, done, true) && next.value.status == ChainRunning
      && next.value.steps[done].status == StepAwaiting && next.value.revision == chain.revision + 1
  {
    hide StatusAgrees;
    AwaitingStepAgrees(chain, done, plan.acceptedIdentifiers[done], now);
    RewriteRecords(plan, chain, AwaitingStep(chain, done, plan.acceptedIdentifiers[done], now).value, done);
  }

  lemma CancelledStepAgrees(chain: Chain, done: nat, now: Time)
    requires StatusAgrees(chain, done, true) && chain.status == ChainRunning
    ensures var next := CancelledStep(chain, done, now);
      next.Ok? && StatusAgrees(next.value, done, true) && next.value.status == ChainCancelled
  {
    var next := CancelledStep(chain, done, now).value;
    assert forall j :: 0 <= j < done ==> next.steps[j] == chain.steps[j];
    assert ProgressAt(next, done, true);
  }

  lemma CancelledStepFollows(plan: Plan, chain: Chain, done: nat, now: Time)
    requires FollowsPlan(plan, chain, done, true) && chain.status == ChainRunning
    ensures var next := CancelledStep(chain, done, now);
      next.Ok? && FollowsPlan(plan, next.value, done, true) && next.value.status == ChainCancelled
      && next.value.revision == chain.revision + 1
  {
    hide StatusAgrees;
    CancelledStepAgrees(chain, done, now);
    RewriteRecords(plan, chain, CancelledStep(chain, done, now).value, done);
  }

  /** The transitions that a simulated run shares with a real one. */
  lemma SharedTransitionsFollow(plan: Plan, chain: Chain, done: nat, now: Time)
    requires FollowsPlan(plan, chain, done, false)
    ensures chain.status == ChainPending ==>
              && chain.StartExecution(now).Ok? && FollowsPlan(plan, chain.StartExecution(now).value, 0, false)
              && chain.CancelPendingExecution(now).Ok?
              && FollowsPlan(plan, chain.CancelPendingExecution(now).value, 0, false)
    ensures chain.status == ChainRunning ==>
              && chain.CancelExecutionBetweenSteps(now).Ok?
              && FollowsPlan(plan, chain.CancelExecutionBetweenSteps(now).value, done, false)
              && chain.StartStep(done, chain.current, now).Ok?
              && FollowsPlan(plan, chain.StartStep(done, chain.current, now).value, done, true)
  {
    hide StatusAgrees, StepRecordsPlan;
    if chain.status == ChainPending {
      assert done == 0 by { PendingIsAtStart(chain, done); }
      StartExecutionAgrees(chain, now);
      CancelPendingAgrees(chain, now);
    } else if chain.status == ChainRunning {
      CancelBetweenAgrees(chain, done, now);
      StartStepAgrees(chain, done, now);
      StartedStepRecords(plan, chain, done, now);
      RewriteRecords(plan, chain, chain.StartStep(done, chain.current, now).value, done);
    }
  }

  lemma PendingIsAtStart(chain: Chain, done: nat)
    requires chain.status == ChainPending && StatusAgrees(chain, done, false)
    ensures done == 0
  {
  }

  lemma StartedStepRecords(plan: Plan, chain: Chain, i: nat, now: Time)
    requires PlanError(plan).None? && RecordsPlan(plan, chain) && chain.StartStep(i, chain.current, now).Ok?
    ensures i < |chain.steps| && StepRecordsPlan(plan, chain.StartStep(i, chain.current, now).value.steps[i], i)
  {
    assert StepRecordsPlan(plan, chain.steps[i], i);
  }

  /** How many reports a running snapshot has behind it: the start, and two for each step, when it starts and
      when it succeeds or awaits. */
  function ReportsUntil(chain: Chain, done: nat, started: bool): nat
    requires started ==> done < |chain.steps|
  {
    1 + 2 * done + if !started then 0 else if chain.steps[done].status == StepAwaiting then 2 else 1
  }

  predicate Counted(plan: Plan, chain: Chain, done: nat, started: bool)
    requires FollowsPlan(plan, chain, done, started)
  {
    && (chain.status == ChainPending ==> chain.revision == 0)
    && (chain.status == ChainRunning ==> chain.revision == ReportsUntil(chain, done, started))
    && (started && chain.steps[done].status == StepAwaiting ==> done == plan.awaitingStepIndex)
  }

  /** The report of this number, as long as the run is not cancelled: the start of the run, then for each step
      its start, and its success or, for the awaiting one, its awaiting. */
  predicate IsMilestone(plan: Plan, chain: Chain, number: nat) {
    if number <= 1 then number == 1 && forall j :: 0 <= j < |chain.steps| ==> chain.steps[j].status == StepPending
    else
      var j := (number - 2) / 2;
      && j <= plan.awaitingStepIndex && j < |chain.steps|
      && chain.steps[j].status == (if number % 2 == 0 then StepRunning
                                   else if j < plan.awaitingStepIndex then StepSucceeded else StepAwaiting)
  }

  /** Observers see every revision once, in order, well shaped, each milestone of the plan in its turn, and
      never a completed or failed run. */
  ghost predicate GoodReports(plan: Plan, published: seq<Chain>) {
    forall k :: 0 <= k < |published| ==>
      && published[k].revision == k + 1
      && WellShaped(published[k])
      && published[k].status in {ChainRunning, ChainCancelled}
      && (published[k].status == ChainRunning ==> IsMilestone(plan, published[k], k + 1))
      && (published[k].status == ChainCancelled ==> k == |published| - 1)
  }

  ghost predicate AllRunning(published: seq<Chain>) {
    forall k :: 0 <= k < |published| ==> published[k].status == ChainRunning
  }

  lemma CountedIsMilestone(plan: Plan, chain: Chain, done: nat, started: bool)
    requires FollowsPlan(plan, chain, done, started) && Counted(plan, chain, done, started)
    requires chain.status == ChainRunning
    ensures IsMilestone(plan, chain, chain.revision)
  {
    hide RecordsPlan, ContextAfter;
    if started || done > 0 {
      var j := if started then done else done - 1;
      assert (chain.revision - 2) / 2 == j && j < |chain.steps|;
    }
  }

  lemma ReportIsGood(plan: Plan, published: seq<Chain>, next: Chain, done: nat, started: bool)
    requires GoodReports(plan, published) && FollowsPlan(plan, next, done, started)
    requires Counted(plan, next, done, started)
    requires next.revision == |published| + 1 && next.status in {ChainRunning, ChainCancelled}
    requires AllRunning(published)
    ensures GoodReports(plan, published + [next])
    ensures next.status != ChainCancelled ==> AllRunning(published + [next])
  {
    hide StatusAgrees, RecordsPlan, Counted, IsMilestone;
    if next.status == ChainRunning {
      CountedIsMilestone(plan, next, done, started);
    }
    assert WellShaped(next);
  }

  class SimulatedOperationChainRun {
    const plan: Plan
    var snapshot: Chain
    var cancellationRequested: bool
    var stopRequested: bool
    ghost var done: nat
    ghost var started: bool
    ghost var published: seq<Chain>
    ghost var slept: nat
    ghost var requestedAt: nat

    ghost predicate Valid()
      reads this
    {
      && FollowsPlan(plan, snapshot, done, started) && Counted(plan, snapshot, done, started)
      && snapshot.status in {ChainPending, ChainRunning, ChainCancelled}
      && (snapshot.status == ChainCancelled ==> cancellationRequested)
      && |published| == snapshot.revision && GoodReports(plan, published)
      && (snapshot.status != ChainCancelled ==> AllRunning(published))
      && RequestIsHeeded()
    }

    /** After the request, which came when `requestedAt` snapshots had been reported, at most the report that was
        under way and the cancelled one are published. */
    ghost predicate RequestIsHeeded()
      reads this
    {
      cancellationRequested ==>
        requestedAt <= |published| <= requestedAt + if snapshot.status == ChainCancelled then 2 else 1
    }

    /** Every delay that was slept through led on to its milestone: at the end, the run has reported the
        milestone of its last full delay, or the one after it, before which the next delay was cut short. */
    ghost predicate EveryDelayLedOn()
      reads this
    {
      var milestones := if snapshot.status == ChainCancelled then |published| - 1 else |published|;
      if slept == 0 then milestones == 0
      else
        && slept <= plan.awaitingStepIndex + 2 && milestones in {2 * slept - 1, 2 * slept}
        && (slept == plan.awaitingStepIndex + 2 ==> milestones == 2 * slept - 1)
    }

    constructor (plan: Plan, now: Time)
      requires PlanError(plan).None?
      ensures Valid() && snapshot == FreshChain(plan.operations, plan.initial, now) && this.plan == plan && !started
      ensures done == 0 && slept == 0
    {
      this.plan := plan;
      snapshot := FreshChain(plan.operations, plan.initial, now);
      cancellationRequested, stopRequested := false, false;
      done, started, published, slept, requestedAt := 0, false, [], 0, 0;
      new;
      FreshFollows(plan, now);
    }

    /** Other threads may request a cancellation, or the application's stop, at any time. */
    method OthersAct()
      requires Valid()
      modifies this`cancellationRequested, this`stopRequested, this`requestedAt
      ensures Valid() && (old(cancellationRequested) ==> cancellationRequested && requestedAt == old(requestedAt))
      ensures !old(cancellationRequested) && cancellationRequested ==> requestedAt == |published|
      ensures (old(stopRequested) ==> stopRequested)
    {
      var cancel: bool := *;
      var stop: bool := *;
      if cancel && !cancellationRequested {
        cancellationRequested, requestedAt := true, |published|;
      }
      stopRequested := stopRequested || stop;
    }

    method Now() returns (now: Time) {
      now := *;
    }

    /** Stores a transition's result and reports it. A request may come in first, but nothing that was begun after
        it is reported, except the cancellation. */
    method Publish(next: Chain, ghost nextDone: nat, ghost nextStarted: bool)
      requires Valid() && FollowsPlan(plan, next, nextDone, nextStarted) && next.revision == snapshot.revision + 1
      requires Counted(plan, next, nextDone, nextStarted) && snapshot.status != ChainCancelled
      requires next.status == if cancellationRequested then ChainCancelled else ChainRunning
      modifies this`snapshot, this`done, this`started, this`published
      modifies this`cancellationRequested, this`stopRequested, this`requestedAt
      ensures Valid() && snapshot == next && done == nextDone && started == nextStarted
      ensures published == old(published) + [next]
    {
      OthersAct();
      Report(next, nextDone, nextStarted);
    }

    method Report(next: Chain, ghost nextDone: nat, ghost nextStarted: bool)
      requires Valid() && FollowsPlan(plan, next, nextDone, nextStarted) && next.revision == snapshot.revision + 1
      requires Counted(plan, next, nextDone, nextStarted) && snapshot.status != ChainCancelled
      requires next.status == ChainRunning || (next.status == ChainCancelled && cancellationRequested)
      requires next.status == ChainRunning && cancellationRequested ==> |published| == requestedAt
      modifies this`snapshot, this`done, this`started, this`published
      ensures Valid() && snapshot == next && done == nextDone && started == nextStarted
      ensures published == old(published) + [next]
    {
      ReportIsGood(plan, published, next, nextDone, nextStarted);
      snapshot := next;
      done, started := nextDone, nextStarted;
      published := published + [next];
    }

    /** Sleeps for a delay; the result is whether the run goes on. */
    method WaitForDelay() returns (goesOn: bool)
      requires Valid()
      modifies this`cancellationRequested, this`stopRequested, this`requestedAt, this`slept
      ensures Valid() && (goesOn ==> !cancellationRequested && !stopRequested)
      ensures !goesOn ==> cancellationRequested || stopRequested
      ensures slept == old(slept) + if goesOn then 1 else 0
    {
      OthersAct();
      goesOn := !cancellationRequested && !stopRequested;
      slept := slept + if goesOn then 1 else 0;
    }

    /** Sleeps until a cancellation is requested; false if the application stops first. */
    method WaitForCancellation() returns (cancelled: bool)
      requires Valid()
      modifies this`cancellationRequested, this`stopRequested, this`requestedAt
      ensures Valid() && cancelled == cancellationRequested && (!cancelled ==> stopRequested)
    {
      OthersAct();
      cancelled := cancellationRequested;
      if !cancelled {
        stopRequested := true;
      }
    }

    method CancelStepAndExecution(stepIndex: nat)
      requires Valid() && cancellationRequested && started && done == stepIndex && snapshot.status == ChainRunning
      modifies this`snapshot, this`done, this`started, this`published
      modifies this`cancellationRequested, this`stopRequested, this`requestedAt
      ensures Valid() && snapshot.status == ChainCancelled && |published| == |old(published)| + 1
    {
      var now := Now();
      CancelledStepFollows(plan, snapshot, stepIndex, now);
      Publish(CancelledStep(snapshot, stepIndex, now).value, stepIndex, true);
    }

    /** The run ends cancelled unless the application stops; it never completes and never fails. */
    method Execute() returns (stopped: bool)
      requires Valid() && snapshot.status == ChainPending && slept == 0
      modifies this
      ensures Valid() && (stopped <==> snapshot.status != ChainCancelled) && EveryDelayLedOn()
      ensures stopped ==> stopRequested
    {
      var goesOn := WaitForDelay();
      var now := Now();
      if !goesOn {
        if cancellationRequested {
          SharedTransitionsFollow(plan, snapshot, done, now);
          Publish(snapshot.CancelPendingExecution(now).value, 0, false);
          return false;
        }
        return true;
      }

      SharedTransitionsFollow(plan, snapshot, done, now);
      Publish(snapshot.StartExecution(now).value, 0, false);
      var stepIndex := 0;
      while stepIndex < plan.awaitingStepIndex
        invariant stepIndex <= plan.awaitingStepIndex && Valid()
        invariant snapshot.status == ChainRunning && done == stepIndex && !started && slept == 1 + stepIndex
      {
        var ended := RunStep(stepIndex);
        if ended.Some? {
          return ended.value;
        }
        stepIndex := stepIndex + 1;
      }
      var ended := RunStep(stepIndex);
      return ended.value;
    }

    /** One round of the loop; the result is how execute ends, unless the loop goes on, which it does
        exactly past a step that succeeded. */
    method RunStep(stepIndex: nat) returns (ended: Option<bool>)
      requires Valid() && stepIndex <= plan.awaitingStepIndex
      requires snapshot.status == ChainRunning && done == stepIndex && !started && slept == 1 + stepIndex
      modifies this
      ensures Valid()
      ensures ended.None? ==> snapshot.status == ChainRunning && done == stepIndex + 1 && !started
      ensures ended.None? ==> slept == 2 + stepIndex
      ensures ended.Some? ==> EveryDelayLedOn() && (ended.value <==> snapshot.status != ChainCancelled)
      ensures ended == Some(true) ==> stopRequested
      ensures stepIndex == plan.awaitingStepIndex ==> ended.Some?
    {
      OthersAct();
      if stopRequested {
        return Some(true);
      }
      if cancellationRequested {
        CancelBetweenSteps(stepIndex);
        return Some(false);
      }
      StartStep(stepIndex);
      ended := PassStep(stepIndex);
    }

    method CancelBetweenSteps(stepIndex: nat)
      requires Valid() && cancellationRequested && !started && done == stepIndex && snapshot.status == ChainRunning
      modifies this`snapshot, this`done, this`started, this`published
      modifies this`cancellationRequested, this`stopRequested, this`requestedAt
      ensures Valid() && snapshot.status == ChainCancelled && |published| == |old(published)| + 1
    {
      var now := Now();
      SharedTransitionsFollow(plan, snapshot, stepIndex, now);
      Publish(snapshot.CancelExecutionBetweenSteps(now).value, stepIndex, false);
    }

    method StartStep(stepIndex: nat)
      requires Valid() && !cancellationRequested && !started && done == stepIndex && snapshot.status == ChainRunning
      modifies this`snapshot, this`done, this`started, this`published
      modifies this`cancellationRequested, this`stopRequested, this`requestedAt
      ensures Valid() && snapshot.status == ChainRunning && done == stepIndex && started
      ensures snapshot.steps[done].status == StepRunning
    {
      var now := Now();
      SharedTransitionsFollow(plan, snapshot, stepIndex, now);
      Publish(snapshot.StartStep(stepIndex, snapshot.current, now).value, stepIndex, true);
    }

    /** From the start of a step to its success, its cancellation, or the application's stop. */
    method PassStep(stepIndex: nat) returns (ended: Option<bool>)
      requires Valid() && stepIndex <= plan.awaitingStepIndex
      requires snapshot.status == ChainRunning && done == stepIndex && started
      requires snapshot.steps[done].status == StepRunning && slept == 1 + stepIndex
      modifies this
      ensures Valid()
      ensures ended.None? ==> snapshot.status == ChainRunning && done == stepIndex + 1 && !started
      ensures ended.None? ==> slept == 2 + stepIndex
      ensures ended.Some? ==> EveryDelayLedOn() && (ended.value <==> snapshot.status != ChainCancelled)
      ensures ended == Some(true) ==> stopRequested
      ensures stepIndex == plan.awaitingStepIndex ==> ended.Some?
    {
      var goesOn := WaitForDelay();
      if !goesOn {
        if cancellationRequested {
          CancelStepAndExecution(stepIndex);
          return Some(false);
        }
        return Some(true);
      }
      if stepIndex < plan.awaitingStepIndex {
        FinishStep(stepIndex);
        return None;
      }
      ended := AwaitCancellation(stepIndex);
    }

    method SucceededSnapshot(stepIndex: nat) returns (next: Chain)
      requires Valid() && stepIndex < plan.awaitingStepIndex
      requires snapshot.status == ChainRunning && done == stepIndex && started
      requires snapshot.steps[done].status == StepRunning
      ensures FollowsPlan(plan, next, stepIndex + 1, false) && Counted(plan, next, stepIndex + 1, false)
      ensures next.status == ChainRunning
      ensures next.revision == snapshot.revision + 1
    {
      var now := Now();
      FinishedStepFollows(plan, snapshot, stepIndex, now);
      var context, ids := plan.succeededStepContexts[stepIndex], plan.acceptedIdentifiers[stepIndex];
      next := FinishedStep(snapshot, stepIndex, context, ids, now).value;
    }

    method FinishStep(stepIndex: nat)
      requires Valid() && !cancellationRequested && stepIndex < plan.awaitingStepIndex
      requires snapshot.status == ChainRunning && done == stepIndex && started
      requires snapshot.steps[done].status == StepRunning
      modifies this`snapshot, this`done, this`started, this`published
      modifies this`cancellationRequested, this`stopRequested, this`requestedAt
      ensures Valid() && snapshot.status == ChainRunning && done == stepIndex + 1 && !started
    {
      var next := SucceededSnapshot(stepIndex);
      Publish(next, stepIndex + 1, false);
    }

    method MarkStepAwaiting(stepIndex: nat)
      requires Valid() && !cancellationRequested && stepIndex == plan.awaitingStepIndex
      requires snapshot.status == ChainRunning && done == stepIndex && started
      requires snapshot.steps[done].status == StepRunning
      modifies this`snapshot, this`done, this`started, this`published
      modifies this`cancellationRequested, this`stopRequested, this`requestedAt
      ensures Valid() && snapshot.status == ChainRunning && done == stepIndex && started
      ensures snapshot.steps[done].status == StepAwaiting && |published| == |old(published)| + 1
    {
      var now := Now();
      AwaitingStepFollows(plan, snapshot, stepIndex, now);
      var next := AwaitingStep(snapshot, stepIndex, plan.acceptedIdentifiers[stepIndex], now);
      Publish(next.value, stepIndex, true);
    }

    /** The last step awaits a fill that never comes. */
    method AwaitCancellation(stepIndex: nat) returns (ended: Option<bool>)
      requires Valid() && !cancellationRequested && stepIndex == plan.awaitingStepIndex
      requires snapshot.status == ChainRunning && done == stepIndex && started
      requires snapshot.steps[done].status == StepRunning && slept == 2 + stepIndex
      modifies this
      ensures Valid() && ended.Some? && EveryDelayLedOn() && (ended.value <==> snapshot.status != ChainCancelled)
      ensures ended == Some(true) ==> stopRequested
    {
      MarkStepAwaiting(stepIndex);
      var cancelled := WaitForCancellation();
      if cancelled {
        CancelStepAndExecution(stepIndex);
      }
      return Some(!cancelled);
    }
  }

  /** A run is made for a usable plan only. */
  method CreateSimulatedRun(plan: Plan, now: Time) returns (thrown: Option<string>, run: SimulatedOperationChainRun?)
    ensures thrown == PlanError(plan) && (run == null <==> thrown.Some?)
    ensures run != null ==>
              fresh(run) && run.Valid() && run.snapshot == FreshChain(plan.operations, plan.initial, now)
              && run.plan == plan
  {
    thrown, run := PlanError(plan), null;
    if thrown.None? {
      run := new SimulatedOperationChainRun(plan, now);
    }
  }
}
