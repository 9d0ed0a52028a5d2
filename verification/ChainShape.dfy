/** Each transition of the snapshot, taken where the chain stands for it, passes its guard and
    leads to the next well-shaped snapshot. */
module ChainShape {
  import opened Domain
  import opened ChainState

  lemma FreshAgrees(operations: seq<Operation>, initial: Context, now: Time)
    ensures StatusAgrees(FreshChain(operations, initial, now), 0, false)
  {
  }

  lemma StartExecutionAgrees(chain: Chain, now: Time)
    requires chain.status == ChainPending && StatusAgrees(chain, 0, false)
    ensures var next := chain.StartExecution(now);
      next.Ok? && next.value.status == ChainRunning && StatusAgrees(next.value, 0, false)
      && next.value.steps == chain.steps && next.value.current == chain.current
  {
    assert ProgressAt(chain.StartExecution(now).value, 0, false);
  }

  lemma StartStepAgrees(chain: Chain, done: nat, now: Time)
    requires chain.status == ChainRunning && done < |chain.steps| && StatusAgrees(chain, done, false)
    ensures var next := chain.StartStep(done, chain.current, now);
      next.Ok? && next.value.status == ChainRunning && StatusAgrees(next.value, done, true)
      && next.value.steps[done].status == StepRunning && OnlyStepChanged(chain, next.value, done)
      && next.value.current == chain.current
  {
    var next := chain.StartStep(done, chain.current, now).value;
    assert forall j :: 0 <= j < done ==> next.steps[j] == chain.steps[j];
  }

  lemma MarkStepAwaitingAgrees(chain: Chain, done: nat, ids: AcceptedIds, now: Time)
    requires chain.status == ChainRunning && StatusAgrees(chain, done, true)
    requires chain.steps[done].status == StepRunning
    ensures var next := chain.MarkStepAwaiting(done, ids, now);
      next.Ok? && next.value.status == ChainRunning && StatusAgrees(next.value, done, true)
      && next.value.steps[done].status == StepAwaiting && OnlyStepChanged(chain, next.value, done)
      && next.value.current == chain.current
  {
    var next := chain.MarkStepAwaiting(done, ids, now).value;
    assert forall j :: 0 <= j < done ==> next.steps[j] == chain.steps[j];
  }

  lemma FinishStepAgrees(chain: Chain, done: nat, context: Context, now: Time)
    requires chain.status == ChainRunning && StatusAgrees(chain, done, true)
    ensures var next := chain.FinishStep(done, context, now);
      next.Ok? && next.value.status == ChainRunning && StatusAgrees(next.value, done + 1, false)
      && next.value.steps[done].status == StepSucceeded && OnlyStepChanged(chain, next.value, done)
      && next.value.current == context && next.value.steps[done].output == Some(context)
      && next.value.steps[done].input == Some(chain.current)
  {
    var next := chain.FinishStep(done, context, now).value;
    assert forall j :: 0 <= j < done ==> next.steps[j] == chain.steps[j];
    assert ContextAfter(next, done) == ContextAfter(chain, done);
  }

  lemma FinishExecutionAgrees(chain: Chain, now: Time)
    requires chain.status == ChainRunning && StatusAgrees(chain, |chain.steps|, false)
    ensures var next := chain.FinishExecution(now);
      next.Ok? && next.value.status == ChainCompleted && StatusAgrees(next.value, |chain.steps|, false)
      && next.value.steps == chain.steps && next.value.current == chain.current
  {
    assert ProgressAt(chain.FinishExecution(now).value, |chain.steps|, false);
  }

  lemma CancelPendingAgrees(chain: Chain, now: Time)
    requires chain.status == ChainPending && StatusAgrees(chain, 0, false)
    ensures var next := chain.CancelPendingExecution(now);
      next.Ok? && next.value.status == ChainCancelled && StatusAgrees(next.value, 0, false)
      && next.value.steps == chain.steps && next.value.current == chain.current
  {
    assert ProgressAt(chain.CancelPendingExecution(now).value, 0, false);
  }

  lemma CancelBetweenAgrees(chain: Chain, done: nat, now: Time)
    requires chain.status == ChainRunning && done < |chain.steps| && StatusAgrees(chain, done, false)
    ensures var next := chain.CancelExecutionBetweenSteps(now);
      next.Ok? && next.value.status == ChainCancelled && StatusAgrees(next.value, done, false)
      && next.value.steps == chain.steps && next.value.current == chain.current
  {
    assert ProgressAt(chain.CancelExecutionBetweenSteps(now).value, done, false);
  }

  lemma CancelStepAgrees(chain: Chain, done: nat, now: Time)
    requires chain.status == ChainRunning && StatusAgrees(chain, done, true)
    ensures var next := chain.CancelStepAndExecution(done, chain.current, now);
      next.Ok? && next.value.status == ChainCancelled && StatusAgrees(next.value, done, true)
      && next.value.steps[done].status == StepCancelled && OnlyStepChanged(chain, next.value, done)
      && next.value.current == chain.current
  {
    var next := chain.CancelStepAndExecution(done, chain.current, now).value;
    assert forall j :: 0 <= j < done ==> next.steps[j] == chain.steps[j];
    assert ProgressAt(next, done, true);
  }

  lemma FailExecutionAgrees(chain: Chain, done: nat, message: string, now: Time)
    requires chain.status == ChainRunning && StatusAgrees(chain, done, true)
    ensures var next := chain.FailExecution(done, message, chain.current, now);
      next.Ok? && next.value.status == ChainFailed && StatusAgrees(next.value, done, true)
      && next.value.steps[done].status == StepFailed && OnlyStepChanged(chain, next.value, done)
      && next.value.current == chain.current && next.value.error == message
  {
    var next := chain.FailExecution(done, message, chain.current, now).value;
    assert forall j :: 0 <= j < done ==> next.steps[j] == chain.steps[j];
    assert ProgressAt(next, done, true);
  }

  predicate OnlyStepChanged(before: Chain, after: Chain, index: nat) {
    && |after.steps| == |before.steps|
    && (forall j :: 0 <= j < |before.steps| && j != index ==> after.steps[j] == before.steps[j])
    && (index < |before.steps| ==> after.steps[index].operation == before.steps[index].operation)
    && after.revision == before.revision + 1
  }

  /** 3 revisions for each order step and 2 for each transfer. */
  lemma {:induction false} RevisionsByKind(operations: seq<Operation>)
    ensures RevisionsOf(operations) == 3 * (|operations| - CountSends(operations)) + 2 * CountSends(operations)
  {
    if operations != [] {
      var n := |operations|;
      RevisionsByKind(operations[..n - 1]);
      CountSendsLast(operations);
    }
  }

  lemma {:induction false} CountSendsLast(operations: seq<Operation>)
    requires operations != []
    ensures var n := |operations|;
      CountSends(operations) == CountSends(operations[..n - 1]) + if operations[n - 1].SendTo? then 1 else 0
  {
    var n := |operations|;
    if n > 1 {
      CountSendsLast(operations[1..]);
      assert operations[1..][..n - 2] == operations[..n - 1][1..];
    }
  }

  // ---- The chain at each position of the executor ----

  /** How far the recorded steps have come: none, `done` succeeded, step `i` started, ... */
  datatype Position = Unstarted | Between(done: nat) | Inside(i: nat) | Stopping | Over

  predicate HasOperations(operations: seq<Operation>, chain: Chain) {
    && |chain.steps| == |operations|
    && (forall j :: 0 <= j < |operations| ==> chain.steps[j].operation == operations[j])
  }

  ghost predicate ChainAt(operations: seq<Operation>, chain: Chain, position: Position) {
    && HasOperations(operations, chain)
    && match position {
         case Unstarted => StatusAgrees(chain, 0, false) && chain.status == ChainPending && chain.revision == 0
         case Between(done) =>
           && done <= |operations| && StatusAgrees(chain, done, false) && chain.status == ChainRunning
           && chain.revision == 1 + RevisionsOf(operations[..done])
         case Inside(i) =>
           && i < |operations| && StatusAgrees(chain, i, true) && chain.status == ChainRunning
           && chain.revision
              == 1 + RevisionsOf(operations[..i]) + (if chain.steps[i].status == StepAwaiting then 2 else 1)
         case Stopping =>
           && chain.status == ChainRunning
           && (exists done: nat :: done < |operations| && StatusAgrees(chain, done, false))
         case Over =>
           && WellShaped(chain) && chain.status in {ChainCompleted, ChainFailed, ChainCancelled}
           && (chain.status == ChainCompleted ==> chain.revision == 2 + RevisionsOf(operations))
       }
  }

  /** Only step `i` was rewritten, to `status`; the context on record is as before. */
  predicate Rewrites(before: Chain, after: Chain, i: nat, status: StepStatus) {
    && OnlyStepChanged(before, after, i) && i < |after.steps| && after.steps[i].status == status
    && after.current == before.current
  }

  predicate KeepsSteps(before: Chain, after: Chain) {
    after.steps == before.steps && after.current == before.current
  }

  lemma StartExecutionAt(operations: seq<Operation>, chain: Chain, now: Time)
    requires ChainAt(operations, chain, Unstarted)
    ensures var next := chain.StartExecution(now);
      && next.Ok? && ChainAt(operations, next.value, Between(0))
      && KeepsSteps(chain, next.value)
  {
    StartExecutionAgrees(chain, now);
  }

  lemma StartStepAt(operations: seq<Operation>, chain: Chain, i: nat, now: Time)
    requires ChainAt(operations, chain, Between(i)) && i < |operations|
    ensures var next := chain.StartStep(i, chain.current, now);
      && next.Ok? && ChainAt(operations, next.value, Inside(i))
      && Rewrites(chain, next.value, i, StepRunning)
  {
    StartStepAgrees(chain, i, now);
  }

  lemma MarkStepAwaitingAt(operations: seq<Operation>, chain: Chain, i: nat, ids: AcceptedIds, now: Time)
    requires ChainAt(operations, chain, Inside(i)) && chain.steps[i].status == StepRunning
    ensures var next := chain.MarkStepAwaiting(i, ids, now);
      && next.Ok? && ChainAt(operations, next.value, Inside(i))
      && Rewrites(chain, next.value, i, StepAwaiting)
  {
    MarkStepAwaitingAgrees(chain, i, ids, now);
  }

  lemma FinishStepAt(operations: seq<Operation>, chain: Chain, i: nat, context: Context, now: Time)
    requires ChainAt(operations, chain, Inside(i))
    requires chain.steps[i].status == StepAwaiting <==> !operations[i].SendTo?
    ensures var next := chain.FinishStep(i, context, now);
      && next.Ok? && ChainAt(operations, next.value, Between(i + 1))
      && OnlyStepChanged(chain, next.value, i) && next.value.steps[i].status == StepSucceeded
      && next.value.current == context && next.value.steps[i].output == Some(context)
      && next.value.steps[i].input == Some(chain.current)
  {
    hide StatusAgrees, RevisionsOf, StepRevisions;
    FinishStepAgrees(chain, i, context, now);
    FinishedIsBetween(operations, chain, chain.FinishStep(i, context, now).value, i);
  }

  lemma FinishedIsBetween(operations: seq<Operation>, chain: Chain, next: Chain, i: nat)
    requires ChainAt(operations, chain, Inside(i))
    requires chain.steps[i].status == StepAwaiting <==> !operations[i].SendTo?
    requires OnlyStepChanged(chain, next, i) && StatusAgrees(next, i + 1, false) && next.status == ChainRunning
    ensures ChainAt(operations, next, Between(i + 1))
  {
    hide StatusAgrees, RevisionsOf;
    RevisionsGrow(operations, i);
  }

  lemma RevisionsGrow(operations: seq<Operation>, i: nat)
    requires i < |operations|
    ensures RevisionsOf(operations[..i + 1]) == RevisionsOf(operations[..i]) + StepRevisions(operations[i])
  {
    assert operations[..i + 1][..i] == operations[..i];
  }

  lemma FinishExecutionAt(operations: seq<Operation>, chain: Chain, now: Time)
    requires ChainAt(operations, chain, Between(|operations|))
    ensures var next := chain.FinishExecution(now);
      && next.Ok? && ChainAt(operations, next.value, Over)
      && KeepsSteps(chain, next.value)
  {
    assert operations[..|operations|] == operations;
    FinishExecutionAgrees(chain, now);
  }

  lemma CancelPendingAt(operations: seq<Operation>, chain: Chain, now: Time)
    requires ChainAt(operations, chain, Unstarted)
    ensures var next := chain.CancelPendingExecution(now);
      && next.Ok? && ChainAt(operations, next.value, Over)
      && KeepsSteps(chain, next.value)
  {
    CancelPendingAgrees(chain, now);
  }

  lemma BetweenMayStop(operations: seq<Operation>, chain: Chain, done: nat)
    requires ChainAt(operations, chain, Between(done)) && done < |operations|
    ensures ChainAt(operations, chain, Stopping)
  {
  }

  lemma CancelBetweenAt(operations: seq<Operation>, chain: Chain, now: Time)
    requires ChainAt(operations, chain, Stopping)
    ensures var next := chain.CancelExecutionBetweenSteps(now);
      && next.Ok? && ChainAt(operations, next.value, Over)
      && KeepsSteps(chain, next.value)
  {
    var done: nat :| done < |operations| && StatusAgrees(chain, done, false);
    CancelBetweenAgrees(chain, done, now);
  }

  lemma CancelStepAt(operations: seq<Operation>, chain: Chain, i: nat, now: Time)
    requires ChainAt(operations, chain, Inside(i))
    ensures var next := chain.CancelStepAndExecution(i, chain.current, now);
      && next.Ok? && ChainAt(operations, next.value, Over)
      && Rewrites(chain, next.value, i, StepCancelled)
  {
    CancelStepAgrees(chain, i, now);
  }

  lemma FailExecutionAt(operations: seq<Operation>, chain: Chain, i: nat, message: string, now: Time)
    requires ChainAt(operations, chain, Inside(i))
    ensures var next := chain.FailExecution(i, message, chain.current, now);
      && next.Ok? && ChainAt(operations, next.value, Over)
      && Rewrites(chain, next.value, i, StepFailed) && next.value.status == ChainFailed && next.value.error == message
  {
    FailExecutionAgrees(chain, i, message, now);
  }
}
