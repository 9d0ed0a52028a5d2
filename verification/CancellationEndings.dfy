/** How a run ends, said without the steps that lead there: by what became of its steps, and by whether and
    when a cancellation was requested. */
module CancellationEndings {
  import opened Domain
  import opened CoordinatorState
  import opened ChainState
  import opened ChainShape
  import opened CancellationProtocol
  import opened CancellationInvariant
  import opened CancellationMoves
  import opened CancellationSteps
  import opened CancellationTheorems

  // ---- The turns that decide an ending ----

  /** Where the loop goes after looking at the request. */
  predicate Turns(operations: seq<Operation>, s: System, next: Pc) {
    var requested := s.coordinator.cancellationRequested;
    match s.pc
    case AtStart => next == if requested then CancellingPending else StartingRun
    case StartingRun => next == CheckingStep(0)
    case CheckingStep(i) =>
      next == if i >= |operations| then FinishingRun else if requested then CancellingBetween else StartingStep(i)
    case StartingStep(i) => next == StartingOperation(i)
    case StartingOperation(i) => next == CheckingOperation(i)
    case FinishingStep(i) => next == CheckingAfterStep(i)
    case CheckingAfterStep(i) =>
      next == if requested && i + 1 < |operations| then CancellingBetween else CheckingStep(i + 1)
    case _ => true
  }

  /** Which status each end records, and that it stays. */
  predicate Records(s: System, t: System) {
    match s.pc
    case CancellingPending => t.pc == FinishingChain(Returned, Completed) && t.chain.status == ChainCancelled
    case CancellingBetween => t.pc == FinishingChain(Returned, Completed) && t.chain.status == ChainCancelled
    case CancellingStep(_) => t.pc == FinishingChain(Returned, Completed) && t.chain.status == ChainCancelled
    case FailingStep(_, _, _) => t.pc.FinishingChain? && t.chain.status == ChainFailed
    case FinishingRun => t.pc == FinishingChain(Returned, Completed) && t.chain.status == ChainCompleted
    case FinishingChain(ending, _) =>
      Ended(t.pc) && t.chain == s.chain && (ending == Returned ==> t.pc == Done(Returned))
    case ChoosingException(_, _) => t.pc.Done? && t.chain == s.chain
    case _ => !Ended(t.pc)
  }

  predicate SameOrders(s: System, t: System) {
    t.log.accepted == s.log.accepted && t.log.exit == s.log.exit
  }

  predicate Leads(operations: seq<Operation>, s: System, t: System) {
    && t.coordinator.cancellationRequested == s.coordinator.cancellationRequested
    && Turns(operations, s, t.pc) && Records(s, t)
    && !s.pc.Done? && !s.pc.Escaped?
    && (InOperation(s.pc) || SameOrders(s, t))
    && (InOperation(s.pc) ==>
          && (s.pc.CheckingOperation? && s.coordinator.cancellationRequested ==> t.pc == Leaving(s.pc.i, SawRequest))
          && (t.log.exit == Some(SawRequest) ==> s.coordinator.cancellationRequested || s.log.exit == Some(SawRequest))
          && (s.pc.CheckingOperation? || s.pc.Leaving? ==> t.log.accepted == s.log.accepted)
          && (s.pc.Leaving? && s.pc.exit.SawRequest? ==> t.pc == CancellingStep(s.pc.i) && SameOrders(s, t))
          && !t.pc.CancellingPending? && !t.pc.CancellingBetween?)
    && (Handling(s.pc) ==> !t.pc.CancellingPending? && !t.pc.CancellingBetween?)
  }

  lemma OperationLeads(operations: seq<Operation>, s: System, choice: Choice, now: Time)
    requires InOperation(s.pc) && ExecutorEnabled(operations, s, choice)
    ensures Leads(operations, s, OperationStep(operations, s, choice, now))
  {
    hide OperationStep, ExecutorEnabled;
    OperationMovesOn(operations, s, choice, now);
    OperationFrame(operations, s, choice, now);
  }

  lemma HandlerLeads(operations: seq<Operation>, s: System, now: Time)
    requires Handling(s.pc) && !HandlerStep(s, now).pc.Escaped?
    ensures Leads(operations, s, HandlerStep(s, now))
  {
    hide HandlerStep;
    HandlerFrame(s, now);
  }

  lemma LoopLeads(operations: seq<Operation>, s: System, now: Time)
    requires !InOperation(s.pc) && !Handling(s.pc) && !s.pc.Done? && !s.pc.Escaped?
    requires !LoopStep(operations, s, now).pc.Escaped?
    ensures Leads(operations, s, LoopStep(operations, s, now))
  {
    hide LoopStep, Leads;
    if s.pc.CancellingPending? || s.pc.CancellingBetween? || s.pc.FinishingRun? || Ended(s.pc) {
      EndLeads(operations, s, now);
    } else {
      TurnLeads(operations, s, now);
    }
  }

  lemma EndLeads(operations: seq<Operation>, s: System, now: Time)
    requires s.pc.CancellingPending? || s.pc.CancellingBetween? || s.pc.FinishingRun? || Ended(s.pc)
    requires !s.pc.Done? && !LoopStep(operations, s, now).pc.Escaped?
    ensures Leads(operations, s, LoopStep(operations, s, now))
  {
  }

  lemma TurnLeads(operations: seq<Operation>, s: System, now: Time)
    requires !InOperation(s.pc) && !Handling(s.pc) && !Ended(s.pc) && !s.pc.Escaped?
    requires !s.pc.CancellingPending? && !s.pc.CancellingBetween? && !s.pc.FinishingRun?
    requires !LoopStep(operations, s, now).pc.Escaped?
    ensures Leads(operations, s, LoopStep(operations, s, now))
  {
  }

  lemma ExecutorLeads(operations: seq<Operation>, s: System, choice: Choice, now: Time)
    requires Inv(operations, s) && ExecutorEnabled(operations, s, choice)
    ensures Leads(operations, s, ExecutorStep(operations, s, choice, now))
  {
    hide Inv, OperationStep, HandlerStep, LoopStep, Leads;
    StepKeepsInvariant(operations, s, Executor(choice, now));
    InvNeverEscapes(operations, ExecutorStep(operations, s, choice, now));
    if InOperation(s.pc) {
      OperationLeads(operations, s, choice, now);
    } else if Handling(s.pc) {
      HandlerLeads(operations, s, now);
    } else {
      LoopLeads(operations, s, now);
    }
  }

  lemma InvNeverEscapes(operations: seq<Operation>, s: System)
    requires Inv(operations, s)
    ensures !s.pc.Escaped?
  {
    hide FlagsFollowExecutor, OrdersFollowExecutor, OrdersLogged, FlagsFollowWorker, VerdictFollowsWorker;
  }

  /** What the canceller leaves alone. */
  predicate Waits(s: System, t: System) {
    && t.pc == s.pc && t.chain == s.chain && t.log.accepted == s.log.accepted && t.log.exit == s.log.exit
    && (s.coordinator.cancellationRequested ==> t.coordinator.cancellationRequested)
  }

  lemma CancellerWaits(operations: seq<Operation>, s: System, choice: Choice)
    requires CancellerEnabled(s, choice)
    ensures Waits(s, CancellerStep(s, choice))
  {
  }

  lemma StepDecides(operations: seq<Operation>, s: System, event: Event)
    requires Inv(operations, s) && Enabled(operations, s, event)
    ensures event.Canceller? ==> Waits(s, Apply(operations, s, event))
    ensures event.Executor? ==> Leads(operations, s, Apply(operations, s, event))
  {
    hide Inv, Leads, Waits, ExecutorEnabled, CancellerEnabled, ExecutorStep, CancellerStep;
    match event
    case Executor(choice, now) => ExecutorLeads(operations, s, choice, now);
    case Canceller(choice) => CancellerWaits(operations, s, choice);
  }

  // ---- No cancellation without a request ----

  /** Whatever leads to a cancelled record was asked for. */
  predicate CancelsOnRequest(s: System) {
    (s.pc.CancellingPending? || s.pc.CancellingBetween? || s.log.exit == Some(SawRequest)
     || (Ended(s.pc) && s.chain.status == ChainCancelled)) ==>
      s.coordinator.cancellationRequested
  }

  lemma ConfirmedOnRequest(operations: seq<Operation>, s: System)
    requires Inv(operations, s) && s.pc.CancellingStep? && s.log.exit != Some(SawRequest)
    ensures s.coordinator.verdict == ConfirmedCancelled && s.coordinator.cancellationRequested
  {
    hide FlagsFollowExecutor, OrdersFollowExecutor, OrdersLogged, CaptureFollows, StepsRecorded, ChainFollowsExecutor;
  }

  lemma LeadsOnRequest(operations: seq<Operation>, s: System, t: System)
    requires Inv(operations, s) && CancelsOnRequest(s) && Leads(operations, s, t)
    ensures CancelsOnRequest(t)
  {
    hide Inv;
    if s.pc.CancellingStep? && s.log.exit != Some(SawRequest) {
      ConfirmedOnRequest(operations, s);
    }
  }

  lemma {:induction false} CancelledOnRequest(t: Trace, k: nat)
    requires IsRun(t) && k < |t.states|
    ensures CancelsOnRequest(t.states[k])
  {
    hide Inv, Leads, Waits, Apply, Enabled, IsRun, CancelsOnRequest;
    if k == 0 {
      StartsUncancelled(t);
    } else {
      RunShape(t);
      CancelledOnRequest(t, k - 1);
      RunKeepsInvariant(t, k - 1);
      StepOf(t, k - 1);
      StepDecides(t.operations, t.states[k - 1], t.events[k - 1]);
      if t.events[k - 1].Executor? {
        LeadsOnRequest(t.operations, t.states[k - 1], t.states[k]);
      } else {
        WaitsOnRequest(t.states[k - 1], t.states[k]);
      }
    }
  }

  lemma WaitsOnRequest(s: System, t: System)
    requires CancelsOnRequest(s) && Waits(s, t)
    ensures CancelsOnRequest(t)
  {
  }

  lemma StartsUncancelled(t: Trace)
    requires IsRun(t)
    ensures |t.states| > 0 && CancelsOnRequest(t.states[0])
  {
  }

  // ---- A natural completion counts ----

  /** A completed action leaves no room for another verdict than its own, and without a request there is none. */
  predicate CompletionCounts(c: Coordinator) {
    && (c.actionCompletedNaturally ==> c.verdict in {Undecided, NaturalCompletion})
    && (!c.cancellationRequested ==> c.verdict == Undecided)
  }

  lemma OperationKeepsCompletion(operations: seq<Operation>, s: System, choice: Choice, now: Time)
    requires CompletionCounts(s.coordinator)
    ensures CompletionCounts(OperationStep(operations, s, choice, now).coordinator)
  {
    hide CompletionCounts, ContextAfterFill, AcceptedIdentifiers;
    var c := s.coordinator;
    CompletingCounts(c);
    match s.pc
    case Registering(_, action) => RegisteringCounts(c, action);
    case Leaving(_, _) => hide LeaveOperation;
    case _ => hide StepLeft;
  }

  lemma CompletingCounts(c: Coordinator)
    requires CompletionCounts(c)
    ensures CompletionCounts(c.CompleteActionNaturally()) && CompletionCounts(c.FinishOperation())
  {
  }

  lemma RegisteringCounts(c: Coordinator, action: Action)
    requires CompletionCounts(c)
    ensures c.RegisterAction(action).Ok? ==> CompletionCounts(c.RegisterAction(action).value)
  {
  }

  lemma LoopKeepsCompletion(operations: seq<Operation>, s: System, choice: Choice, now: Time)
    requires CompletionCounts(s.coordinator) && ExecutorEnabled(operations, s, choice)
    ensures CompletionCounts(ExecutorStep(operations, s, choice, now).coordinator)
  {
    if InOperation(s.pc) {
      hide OperationStep;
      OperationKeepsCompletion(operations, s, choice, now);
    }
  }

  lemma RecordingIsRequested(operations: seq<Operation>, s: System)
    requires Inv(operations, s) && s.worker != NotRequested
    ensures s.coordinator.cancellationRequested
  {
    hide FlagsFollowExecutor, OrdersFollowExecutor, OrdersLogged, CaptureFollows, StepsRecorded, ChainFollowsExecutor;
  }

  lemma CancellerKeepsCompletion(s: System, choice: Choice)
    requires CompletionCounts(s.coordinator) && CancellerEnabled(s, choice)
    requires s.worker != NotRequested ==> s.coordinator.cancellationRequested
    ensures CompletionCounts(CancellerStep(s, choice).coordinator)
  {
  }

  lemma StepKeepsCompletion(operations: seq<Operation>, s: System, event: Event)
    requires Inv(operations, s) && Enabled(operations, s, event) && CompletionCounts(s.coordinator)
    ensures CompletionCounts(Apply(operations, s, event).coordinator)
  {
    hide Inv, CompletionCounts, ExecutorEnabled, CancellerEnabled, ExecutorStep, CancellerStep;
    match event
    case Executor(choice, now) => LoopKeepsCompletion(operations, s, choice, now);
    case Canceller(choice) =>
      if s.worker != NotRequested {
        RecordingIsRequested(operations, s);
      }
      CancellerKeepsCompletion(s, choice);
  }

  /** Once the operation in progress has completed naturally, no cancellation and no failure of one is ever
      recorded for it, not even when the request comes only afterwards. */
  lemma {:induction false} CompletionIsNeverReplaced(t: Trace, k: nat)
    requires IsRun(t) && k < |t.states|
    ensures CompletionCounts(t.states[k].coordinator)
  {
    hide Inv, Apply, Enabled;
    if k > 0 {
      hide IsRun, CompletionCounts;
      RunShape(t);
      CompletionIsNeverReplaced(t, k - 1);
      RunKeepsInvariant(t, k - 1);
      StepOf(t, k - 1);
      StepKeepsCompletion(t.operations, t.states[k - 1], t.events[k - 1]);
    }
  }

  // ---- The ending ----

  predicate AllSucceeded(chain: Chain) {
    forall j :: 0 <= j < |chain.steps| ==> chain.steps[j].status == StepSucceeded
  }

  predicate SomeFailed(chain: Chain) {
    exists j :: 0 <= j < |chain.steps| && chain.steps[j].status == StepFailed
  }

  /** The recorded status is what became of the steps. */
  predicate StatusIsExact(chain: Chain) {
    match chain.status
    case ChainCompleted => AllSucceeded(chain)
    case ChainFailed => SomeFailed(chain)
    case ChainCancelled => !SomeFailed(chain) && (chain.steps == [] || !AllSucceeded(chain))
    case _ => false
  }

  predicate EndsExactly(operations: seq<Operation>, s: System) {
    && |s.chain.steps| == |operations| && StatusIsExact(s.chain)
    && (operations != [] ==> (s.chain.status == ChainCompleted <==> AllSucceeded(s.chain)))
    && (s.chain.status == ChainFailed <==> SomeFailed(s.chain))
    && (s.chain.status == ChainCancelled ==> s.coordinator.cancellationRequested)
  }

  lemma ShapeIsExact(chain: Chain)
    requires WellShaped(chain) && chain.status in {ChainCompleted, ChainFailed, ChainCancelled}
    ensures StatusIsExact(chain)
  {
    hide StatusAgrees;
    var done: nat, started: bool :| StatusAgrees(chain, done, started);
    AgreesExactly(chain, done, started);
  }

  /** The step behind the succeeded ones tells the endings apart. */
  lemma AgreesExactly(chain: Chain, done: nat, started: bool)
    requires StatusAgrees(chain, done, started) && chain.status in {ChainCompleted, ChainFailed, ChainCancelled}
    ensures StatusIsExact(chain)
  {
    hide ContextAfter;
    if done < |chain.steps| {
      assert chain.steps[done].status != StepSucceeded;
    }
  }

  /** A run ends completed exactly if every step succeeded, failed exactly if one failed, and cancelled
      exactly otherwise, and then only if a cancellation was requested. In particular a request that comes
      while the last step succeeds does not cancel the run, and no step is left open in a completed one. */
  lemma EndingIsExact(t: Trace, k: nat)
    requires IsRun(t) && k < |t.states| && t.states[k].pc.Done?
    ensures EndsExactly(t.operations, t.states[k])
  {
    hide IsRun, WellShaped;
    RaisedTextIsRecorded(t, k);
    SnapshotIsWellShaped(t, k);
    CancelledOnRequest(t, k);
    ShapeIsExact(t.states[k].chain);
  }

  // ---- A request that comes in time ----

  /** The run stands where a request will stop it: before its start, or before a step that is still to place
      its order, or already on its way to a cancelled record. */
  predicate WillStop(operations: seq<Operation>, s: System) {
    && s.coordinator.cancellationRequested
    && match s.pc
       case AtStart => true
       case CancellingPending => true
       case StartingRun => operations != []
       case CheckingStep(i) => i < |operations|
       case CancellingBetween => true
       case StartingStep(_) => true
       case StartingOperation(_) => true
       case CheckingOperation(_) => true
       case Leaving(_, exit) => exit.SawRequest?
       case FinishingStep(i) => i + 1 < |operations|
       case CheckingAfterStep(i) => i + 1 < |operations|
       case CancellingStep(_) => s.log.exit == Some(SawRequest)
       case FinishingChain(ending, _) => ending == Returned && s.chain.status == ChainCancelled
       case Done(ending) => ending == Returned && s.chain.status == ChainCancelled
       case _ => false
  }

  lemma WillStopStays(operations: seq<Operation>, s: System, t: System)
    requires WillStop(operations, s) && (Waits(s, t) || Leads(operations, s, t))
    requires s.pc.Leaving? ==> s.log.exit == Some(s.pc.exit)
    ensures WillStop(operations, t) && t.log.accepted == s.log.accepted
  {
  }

  lemma LeavingIsLogged(operations: seq<Operation>, s: System)
    requires Inv(operations, s)
    ensures s.pc.Leaving? ==> s.log.exit == Some(s.pc.exit)
  {
    hide FlagsFollowExecutor, OrdersFollowExecutor, OrdersLogged, CaptureFollows, StepsRecorded, ChainFollowsExecutor;
  }

  lemma {:induction false} WillStopUntil(t: Trace, k: nat, m: nat)
    requires IsRun(t) && k <= m < |t.states| && WillStop(t.operations, t.states[k])
    ensures WillStop(t.operations, t.states[m]) && t.states[m].log.accepted == t.states[k].log.accepted
    decreases m - k
  {
    hide Inv, Leads, Waits, Apply, Enabled, IsRun, WillStop;
    if k < m {
      RunShape(t);
      WillStopUntil(t, k, m - 1);
      RunKeepsInvariant(t, m - 1);
      LeavingIsLogged(t.operations, t.states[m - 1]);
      StepOf(t, m - 1);
      StepDecides(t.operations, t.states[m - 1], t.events[m - 1]);
      WillStopStays(t.operations, t.states[m - 1], t.states[m]);
    }
  }

  /** A request made before the last step has placed its order, at any of those moments, stops the run there:
      no order is accepted any more, and when the run is done it is recorded as cancelled. */
  lemma RequestStopsTheRun(t: Trace, k: nat, m: nat)
    requires IsRun(t) && k <= m < |t.states| && WillStop(t.operations, t.states[k])
    ensures t.states[m].log.accepted == t.states[k].log.accepted
    ensures t.states[m].pc.Done? ==> t.states[m].chain.status == ChainCancelled
  {
    hide Inv, IsRun;
    WillStopUntil(t, k, m);
  }
}
