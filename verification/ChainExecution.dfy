/** States that the interleaving machine can reach, and what they guarantee to the code that gets there. */
module ChainReachability {
  import opened Domain
  import opened CoordinatorState
  import opened ChainState
  import opened ChainShape
  import opened CancellationProtocol
  import opened CancellationInvariant
  import opened CancellationTheorems
  import opened CancellationEndings

  // ---- Reachable states ----

  /** The machine can get to this state. */
  ghost predicate Reaches(operations: seq<Operation>, s: System) {
    exists t: Trace, k: nat :: IsRun(t) && t.operations == operations && k < |t.states| && t.states[k] == s
  }

  lemma ReachesInitial(operations: seq<Operation>, context: Context, now: Time)
    ensures Reaches(operations, Initial(operations, context, now))
  {
    var t := Trace(operations, [Initial(operations, context, now)], []);
    assert IsRun(t) && t.states[0] == Initial(operations, context, now);
  }

  lemma ReachesNext(operations: seq<Operation>, s: System, event: Event)
    requires Reaches(operations, s) && Enabled(operations, s, event)
    ensures Reaches(operations, Apply(operations, s, event))
  {
    var t: Trace, k: nat :| IsRun(t) && t.operations == operations && k < |t.states| && t.states[k] == s;
    var next := Apply(operations, s, event);
    var u := Trace(operations, t.states[..k + 1] + [next], t.events[..k] + [event]);
    hide Apply, Enabled, Initial;
    assert u.states[0] == t.states[0];
    assert forall j :: 0 <= j <= k ==> u.states[j] == t.states[j];
    forall j | 0 <= j < |u.events|
      ensures StepHolds(u, j)
    {
      if j < k {
        assert u.events[j] == t.events[j] && StepHolds(t, j);
      }
    }
    assert IsRun(u) && u.states[k + 1] == next;
  }

  lemma ReachableInv(operations: seq<Operation>, s: System)
    requires Reaches(operations, s)
    ensures Inv(operations, s) && !s.pc.Escaped?
  {
    var t: Trace, k: nat :| IsRun(t) && t.operations == operations && k < |t.states| && t.states[k] == s;
    RunKeepsInvariant(t, k);
    GuardsNeverTrip(t, k);
  }

  /** The cancelling thread does not touch what only the executing thread writes. */
  lemma CancellerLeavesExecutor(s: System, choice: Choice)
    requires CancellerEnabled(s, choice)
    ensures var n := CancellerStep(s, choice);
      && n.pc == s.pc && n.chain == s.chain && n.context == s.context
      && n.log.exit == s.log.exit && n.coordinator.stopped >= s.coordinator.stopped
      && n.coordinator.waitSource == s.coordinator.waitSource
  {
  }

  lemma ExecutorLeavesCanceller(operations: seq<Operation>, s: System, choice: Choice, now: Time)
    requires ExecutorEnabled(operations, s, choice)
    ensures ExecutorStep(operations, s, choice, now).worker == s.worker
  {
  }

  lemma StepExists(operations: seq<Operation>, s: System)
    requires Reaches(operations, s) && s.pc.StartingOperation?
    ensures s.pc.i < |s.chain.steps|
  {
    ReachableInv(operations, s);
  }

  lemma RegistrationHolds(operations: seq<Operation>, s: System)
    requires Reaches(operations, s) && s.pc.Registering?
    ensures s.coordinator.RegisterAction(s.pc.action).Ok?
  {
    var t: Trace, k: nat :| IsRun(t) && t.operations == operations && k < |t.states| && t.states[k] == s;
    GuardsNeverTrip(t, k);
  }

  lemma ReportHolds(operations: seq<Operation>, s: System, now: Time)
    requires Reaches(operations, s) && s.pc.Reporting?
    ensures s.chain.MarkStepAwaiting(s.pc.i, AcceptedIdentifiers(s.pc.action), now).Ok?
  {
    var t: Trace, k: nat :| IsRun(t) && t.operations == operations && k < |t.states| && t.states[k] == s;
    GuardsNeverTrip(t, k);
  }

  /** While the executor waits for a verdict, the cancelling thread can go on. */
  lemma ResolutionIsComing(operations: seq<Operation>, s: System)
    requires Reaches(operations, s) && s.pc.Resolving? && !s.coordinator.CancellationResolved()
    ensures !s.worker.Gone? && (s.worker.WaitingForAction? ==> s.coordinator.WorkerMayProceed())
  {
    ReachableInv(operations, s);
  }

  lemma EndingIsRecorded(operations: seq<Operation>, s: System)
    requires Reaches(operations, s) && s.pc.Done?
    ensures s.chain.status in {ChainCompleted, ChainFailed, ChainCancelled}
    ensures s.pc.ending == if s.chain.status == ChainFailed then Raised(s.chain.error) else Returned
    ensures s.chain.status == ChainCompleted ==> s.chain.revision == 2 + 3 * |operations| - CountSends(operations)
    ensures EndsExactly(operations, s)
  {
    var t: Trace, k: nat :| IsRun(t) && t.operations == operations && k < |t.states| && t.states[k] == s;
    hide *;
    EndingOf(t, k);
  }

  lemma EndingOf(t: Trace, k: nat)
    requires IsRun(t) && k < |t.states| && t.states[k].pc.Done?
    ensures var s := t.states[k];
      && s.chain.status in {ChainCompleted, ChainFailed, ChainCancelled}
      && s.pc.ending == (if s.chain.status == ChainFailed then Raised(s.chain.error) else Returned)
      && (s.chain.status == ChainCompleted ==>
            s.chain.revision == 2 + 3 * |t.operations| - CountSends(t.operations))
      && EndsExactly(t.operations, s)
  {
    hide IsRun, EndsExactly, CountSends;
    RaisedTextIsRecorded(t, k);
    EndingIsExact(t, k);
    if t.states[k].chain.status == ChainCompleted {
      CompletedRevisionIsExact(t, k);
    }
  }
}

/** The execution of a run on the real objects: the executing thread's code with its loop, its exits and
    its exception handlers, while the cancelling thread runs its own code between any two critical
    sections. A ghost state records which step of the interleaving machine each critical section is, so
    that everything proved about the machine's runs holds of this code. */
module ChainExecution {
  import opened Domain
  import opened OrderStatus
  import opened CoordinatorState
  import opened CancellationCoordinator
  import opened ChainState
  import opened OperationChainObject
  import opened CancellationProtocol
  import opened CancellationEndings
  import opened ChainReachability
  import opened ChainExchange

  method Now() returns (now: Time) {
    now := *;
  }

  // ---- Where the executing thread goes next ----

  /** Where the executor goes after asking whether a cancellation was requested. */
  function AfterCheck(count: nat, pc: Pc, requested: bool): Pc {
    match pc
    case AtStart => if requested then CancellingPending else StartingRun
    case CheckingStep(i) => if requested then CancellingBetween else StartingStep(i)
    case CheckingAfterStep(i) => if requested && i + 1 < count then CancellingBetween else CheckingStep(i + 1)
    case _ => pc
  }

  /** The handler, if any, that an operation's end leads to. */
  function AfterOperation(i: nat, exit: Exit): Pc {
    match exit
    case Completed => FinishingStep(i)
    case SawRequest => CancellingStep(i)
    case Interrupted(_) => TestingConfirmed(i, exit)
    case Threw(error) => Resolving(i, error)
    case ThrewNonStandard => FailingStep(i, "Operation failed with a non-standard exception", exit)
  }

  function AfterPlacing(i: nat, answer: PlaceAnswer): Pc {
    match answer
    case Placed(action) => Registering(i, action)
    case PlaceThrew(error) => Leaving(i, Threw(error))
    case PlaceThrewNonStandard => Leaving(i, ThrewNonStandard)
  }

  function AfterWaiting(i: nat, answer: WaitAnswer): Pc {
    match answer
    case WaitFilled(order) => Completing(i, order)
    case WaitInterrupted(error) => Leaving(i, Interrupted(error))
    case WaitThrew(error) => Leaving(i, Threw(error))
    case WaitThrewNonStandard => Leaving(i, ThrewNonStandard)
  }

  /** Where a handler goes after looking at the verdict. */
  function AfterTest(s: System): Pc {
    match s.pc
    case TestingConfirmed(i, exit) =>
      if s.coordinator.verdict == ConfirmedCancelled then CancellingStep(i) else TestingFailed(i, exit)
    case TestingFailed(i, exit) =>
      if s.coordinator.verdict == CancellationFailed then ReadingFailure(i, exit)
      else FailingStep(i, ExitText(exit), exit)
    case ReadingFailure(i, exit) => FailingStep(i, s.coordinator.failure, exit)
    case _ => s.pc
  }

  // ---- Its steps out of an operation and through the tests of a handler ----

  lemma LeavingStep(operations: seq<Operation>, s: System, i: nat, exit: Exit)
    requires s.pc == Leaving(i, exit)
    ensures ExecutorEnabled(operations, s, Plain)
    ensures ExecutorStep(operations, s, Plain, 0)
         == s.(coordinator := s.coordinator.FinishOperation(), pc := AfterOperation(i, exit))
  {
  }

  lemma TestStep(operations: seq<Operation>, s: System)
    requires s.pc.TestingConfirmed? || s.pc.TestingFailed? || s.pc.ReadingFailure?
    ensures ExecutorEnabled(operations, s, Plain)
    ensures ExecutorStep(operations, s, Plain, 0) == s.(pc := AfterTest(s))
  {
  }

  lemma ReachesByExecutor(operations: seq<Operation>, s: System, choice: Choice, now: Time)
    requires Reaches(operations, s) && ExecutorEnabled(operations, s, choice)
    ensures Reaches(operations, ExecutorStep(operations, s, choice, now))
  {
    hide Reaches, ExecutorEnabled, ExecutorStep;
    ReachesNext(operations, s, Executor(choice, now));
  }

  lemma ReachesLeaving(operations: seq<Operation>, s: System, i: nat, exit: Exit)
    requires Reaches(operations, s) && s.pc == Leaving(i, exit)
    ensures Reaches(operations, s.(coordinator := s.coordinator.FinishOperation(), pc := AfterOperation(i, exit)))
  {
    hide *;
    LeavingStep(operations, s, i, exit);
    ReachesByExecutor(operations, s, Plain, 0);
  }

  lemma ReachesTest(operations: seq<Operation>, s: System)
    requires Reaches(operations, s)
    requires s.pc.TestingConfirmed? || s.pc.TestingFailed? || s.pc.ReadingFailure?
    ensures Reaches(operations, s.(pc := AfterTest(s)))
  {
    hide *;
    TestStep(operations, s);
    ReachesByExecutor(operations, s, Plain, 0);
  }

  lemma ReachesThere(operations: seq<Operation>, s: System, choice: Choice, now: Time, next: System)
    requires Reaches(operations, s) && ExecutorEnabled(operations, s, choice)
    requires next == ExecutorStep(operations, s, choice, now)
    ensures Reaches(operations, next) && !next.pc.Escaped?
  {
    hide Reaches, ExecutorEnabled, ExecutorStep;
    ReachesByExecutor(operations, s, choice, now);
    assert !next.pc.Escaped? by { ReachableInv(operations, next); }
  }

  lemma ReportStep(operations: seq<Operation>, s: System, i: nat, action: Action, now: Time)
    requires s.pc == Reporting(i, action)
    ensures ExecutorEnabled(operations, s, Plain)
    ensures var next := s.chain.MarkStepAwaiting(i, AcceptedIdentifiers(action), now);
      next.Ok? ==> ExecutorStep(operations, s, Plain, now) == s.(chain := next.value, pc := TakingToken(i, action))
  {
    hide Chain.MarkStepAwaiting;
  }

  lemma ReachesToken(operations: seq<Operation>, s: System, i: nat, action: Action, now: Time)
    requires Reaches(operations, s) && s.pc == Reporting(i, action)
    ensures var next := s.chain.MarkStepAwaiting(i, AcceptedIdentifiers(action), now);
      next.Ok? && Reaches(operations, s.(chain := next.value, pc := TakingToken(i, action)))
  {
    hide *;
    ReportHolds(operations, s, now);
    ReportStep(operations, s, i, action, now);
    ReachesByExecutor(operations, s, Plain, now);
  }

  lemma OperationStarts(operations: seq<Operation>, s: System, i: nat)
    requires s.pc == StartingOperation(i) && i < |s.chain.steps|
    ensures ExecutorEnabled(operations, s, Plain)
    ensures var next := s.coordinator.StartOperation(!s.chain.steps[i].operation.SendTo?);
      ExecutorStep(operations, s, Plain, 0)
      == match next
         case Ok(coordinator) => s.(coordinator := coordinator, pc := CheckingOperation(i))
         case Err(error) => s.(pc := Escaped(error))
  {
    hide Coordinator.StartOperation;
  }

  lemma ReachesStarted(operations: seq<Operation>, s: System, i: nat)
    requires Reaches(operations, s) && s.pc == StartingOperation(i)
    ensures i < |s.chain.steps|
    ensures var next := s.coordinator.StartOperation(!s.chain.steps[i].operation.SendTo?);
      next.Ok? && Reaches(operations, s.(coordinator := next.value, pc := CheckingOperation(i)))
  {
    hide *;
    StepExists(operations, s);
    OperationStarts(operations, s, i);
    ReachesThere(operations, s, Plain, 0, ExecutorStep(operations, s, Plain, 0));
  }

  function WaitChoice(answer: WaitAnswer): Choice {
    match answer
    case WaitFilled(order) => Fills(order)
    case WaitInterrupted(error) => Interrupts(error)
    case WaitThrew(error) => Throws(error)
    case WaitThrewNonStandard => ThrowsNonStandard
  }

  predicate HasWaited(s: System, n: System, i: nat, answer: WaitAnswer) {
    && n.pc == AfterWaiting(i, answer) && n.coordinator == s.coordinator
    && n.chain == s.chain && n.context == s.context && n.worker == s.worker
  }

  lemma WaitingStep(operations: seq<Operation>, s: System, i: nat, action: Action, source: nat, answer: WaitAnswer)
    requires s.pc == Waiting(i, action, source)
    requires answer.WaitFilled? ==> WaitContract(action, answer.order)
    requires answer.WaitInterrupted? ==> source in s.coordinator.stopped
    ensures ExecutorEnabled(operations, s, WaitChoice(answer))
    ensures HasWaited(s, ExecutorStep(operations, s, WaitChoice(answer), 0), i, answer)
  {
    hide WaitContract;
  }

  lemma ReachesWaited(operations: seq<Operation>, s: System, i: nat, action: Action, source: nat, answer: WaitAnswer)
    requires Reaches(operations, s) && s.pc == Waiting(i, action, source)
    requires answer.WaitFilled? ==> WaitContract(action, answer.order)
    requires answer.WaitInterrupted? ==> source in s.coordinator.stopped
    ensures exists next :: Reaches(operations, next) && HasWaited(s, next, i, answer)
  {
    hide *;
    WaitingStep(operations, s, i, action, source, answer);
    ReachesByExecutor(operations, s, WaitChoice(answer), 0);
  }

  class ChainRun {
    const operations: seq<Operation>
    const chain: OperationChain
    const coordinator: OperationCancellationCoordinator
    const exchange: Exchange
    var worker: Worker
    ghost var state: System

    /** The objects are in a state that the machine can reach. */
    ghost predicate Valid()
      reads this, chain, coordinator, exchange
    {
      && exchange.heard
      && Reaches(operations, state)
      && coordinator.View() == state.coordinator
      && chain.Snapshot() == state.chain && chain.context == state.context
      && worker == state.worker
    }

    constructor (operations: seq<Operation>, context: Context)
      ensures Valid() && state.pc == AtStart && this.operations == operations
      ensures fresh(chain) && fresh(coordinator) && fresh(exchange)
    {
      var now := Now();
      this.operations := operations;
      chain := new OperationChain(operations, context, now);
      coordinator := new OperationCancellationCoordinator();
      exchange := new Exchange();
      worker := NotRequested;
      state := Initial(operations, context, now);
      new;
      ReachesInitial(operations, context, now);
    }

    ghost method Take(event: Event)
      requires Reaches(operations, state) && Enabled(operations, state, event)
      modifies this`state
      ensures state == Apply(operations, old(state), event)
      ensures Reaches(operations, state) && !state.pc.Escaped?
    {
      ReachesNext(operations, state, event);
      state := Apply(operations, state, event);
      ReachableInv(operations, state);
    }

    ghost method TakeCanceller(choice: Choice)
      requires Reaches(operations, state) && CancellerEnabled(state, choice)
      modifies this`state
      ensures state == CancellerStep(old(state), choice)
      ensures Reaches(operations, state)
      ensures state.pc == old(state.pc) && state.chain == old(state.chain) && state.context == old(state.context)
    {
      CancellerLeavesExecutor(state, choice);
      Take(Canceller(choice));
    }

    /** One step of the cancelling thread, where it has one. */
    method CancellerActs()
      requires Valid()
      modifies this, coordinator, exchange
      ensures Valid() && state.pc == old(state.pc) && state.chain == old(state.chain)
      ensures old(worker.Gone?) || (old(worker.WaitingForAction?) && !old(coordinator.View()).WorkerMayProceed())
              || WorkerRank(worker) < old(WorkerRank(worker))
    {
      match worker
      case NotRequested => Request();
      case Spawning => Spawn();
      case Entering => Enter();
      case WaitingForAction => Poll();
      case Calling(action) => Call(action);
      case Recording(report, threaded) =>
        Record(report, threaded);
      case Signalling(source, threaded) => Signal(source, threaded);
      case Finishing => Finish();
      case Gone =>
    }

    method Request()
      requires Valid() && worker == NotRequested
      modifies this, coordinator
      ensures Valid() && state.pc == old(state.pc) && state.chain == old(state.chain)
      ensures WorkerRank(worker) < old(WorkerRank(worker))
    {
      coordinator.RequestCancellation();
      worker := Spawning;
      TakeCanceller(Plain);
    }

    /** The thread starts, or fails to and leaves the failure to the requester. */
    method Spawn()
      requires Valid() && worker == Spawning
      modifies this, exchange
      ensures Valid() && state.pc == old(state.pc) && state.chain == old(state.chain)
      ensures WorkerRank(worker) < old(WorkerRank(worker))
    {
      var error := exchange.StartThread();
      worker := if error.Some? then Recording(Failure(error.value), false) else Entering;
      TakeSpawn(error);
    }

    ghost method TakeSpawn(error: Option<string>)
      requires Reaches(operations, state) && state.worker == Spawning
      requires LastCall(exchange.calls, ThreadAsked(error))
      modifies this`state, exchange`heard
      ensures exchange.heard && Reaches(operations, state) && state.coordinator == old(state).coordinator
      ensures state.pc == old(state.pc) && state.chain == old(state.chain) && state.context == old(state.context)
      ensures state.worker == if error.Some? then Recording(Failure(error.value), false) else Entering
    {
      exchange.Hear();
      TakeCanceller(if error.Some? then ThreadFails(error.value) else ThreadStarts);
    }

    ghost method TakeAnswer(action: Action, answer: Choice)
      requires Reaches(operations, state) && state.worker == Calling(action) && CancellerEnabled(state, answer)
      requires LastCall(exchange.calls, CancelAsked(action, answer))
      modifies this`state, exchange`heard
      ensures exchange.heard && Reaches(operations, state) && state.coordinator == old(state).coordinator
      ensures state.pc == old(state.pc) && state.chain == old(state.chain) && state.context == old(state.context)
      ensures state.worker == Recording(ReportOf(action, answer), true)
    {
      exchange.Hear();
      TakeCanceller(answer);
    }

    method Enter()
      requires Valid() && worker == Entering
      modifies this, coordinator
      ensures Valid() && state.pc == old(state.pc) && state.chain == old(state.chain)
      ensures WorkerRank(worker) < old(WorkerRank(worker))
    {
      var proceed, action := coordinator.EnterWorker();
      worker := if !proceed then WaitingForAction else if action.NoAction? then Finishing else Calling(action);
      TakeCanceller(Plain);
    }

    method Poll()
      requires Valid() && worker == WaitingForAction
      modifies this, coordinator
      ensures Valid() && state.pc == old(state.pc) && state.chain == old(state.chain)
      ensures old(coordinator.View()).WorkerMayProceed() ==> WorkerRank(worker) < old(WorkerRank(worker))
    {
      var proceed, action := coordinator.PollWorkerWait();
      if proceed {
        worker := if action.NoAction? then Finishing else Calling(action);
        TakeCanceller(Plain);
      }
    }

    method Call(action: Action)
      requires Valid() && worker == Calling(action)
      modifies this, exchange
      ensures Valid() && state.pc == old(state.pc) && state.chain == old(state.chain)
      ensures WorkerRank(worker) < old(WorkerRank(worker))
    {
      var answer := exchange.CancelAndWait(action);
      worker := Recording(ReportOf(action, answer), true);
      TakeAnswer(action, answer);
    }

    method Record(report: Report, threaded: bool)
      requires Valid() && worker == Recording(report, threaded)
      modifies this, coordinator
      ensures Valid() && state.pc == old(state.pc) && state.chain == old(state.chain)
      ensures WorkerRank(worker) < old(WorkerRank(worker))
    {
      match report
      case FoundFilled => RecordFill(threaded);
      case FoundCancelled => RecordCancellation(threaded);
      case Failure(error) => RecordFailure(error, threaded);
    }

    method RecordFill(threaded: bool)
      requires Valid() && worker == Recording(FoundFilled, threaded)
      modifies this, coordinator
      ensures Valid() && state.pc == old(state.pc) && state.chain == old(state.chain)
      ensures WorkerRank(worker) < old(WorkerRank(worker))
    {
      coordinator.RecordNaturalCompletion();
      worker := AfterRecording(threaded);
      TakeCanceller(Plain);
    }

    method RecordCancellation(threaded: bool)
      requires Valid() && worker == Recording(FoundCancelled, threaded)
      modifies this, coordinator
      ensures Valid() && state.pc == old(state.pc) && state.chain == old(state.chain)
      ensures WorkerRank(worker) < old(WorkerRank(worker))
    {
      var source := coordinator.RecordConfirmedCancellation();
      worker := if source.None? then AfterRecording(threaded) else Signalling(source.value, threaded);
      TakeCanceller(Plain);
    }

    method RecordFailure(error: string, threaded: bool)
      requires Valid() && worker == Recording(Failure(error), threaded)
      modifies this, coordinator
      ensures Valid() && state.pc == old(state.pc) && state.chain == old(state.chain)
      ensures WorkerRank(worker) < old(WorkerRank(worker))
    {
      var source := coordinator.RecordCancellationFailure(error);
      worker := if source.None? then AfterRecording(threaded) else Signalling(source.value, threaded);
      TakeCanceller(Plain);
    }

    method Signal(source: nat, threaded: bool)
      requires Valid() && worker == Signalling(source, threaded)
      modifies this, coordinator
      ensures Valid() && state.pc == old(state.pc) && state.chain == old(state.chain)
      ensures WorkerRank(worker) < old(WorkerRank(worker))
    {
      coordinator.RequestStop(source);
      worker := AfterRecording(threaded);
      TakeCanceller(Plain);
    }

    method Finish()
      requires Valid() && worker == Finishing
      modifies this, coordinator
      ensures Valid() && state.pc == old(state.pc) && state.chain == old(state.chain)
      ensures WorkerRank(worker) < old(WorkerRank(worker))
    {
      coordinator.FinishCancellationWorker();
      worker := Gone;
      TakeCanceller(Plain);
    }

    method AnySteps() returns (count: nat) {
      count := *;
    }

    /** Whatever the other thread does in between. */
    method OthersAct()
      requires Valid()
      modifies this, coordinator, exchange
      ensures Valid() && state.pc == old(state.pc) && state.chain == old(state.chain)
    {
      var count := AnySteps();
      for n := 0 to count
        invariant Valid() && state.pc == old(state.pc) && state.chain == old(state.chain)
      {
        CancellerActs();
      }
    }

    // ---- The executing thread: one method for each critical section or service call ----

    ghost method TakeLoop(now: Time)
      requires Reaches(operations, state) && !InOperation(state.pc) && !Handling(state.pc)
      requires !state.pc.Done? && !state.pc.Escaped?
      modifies this`state
      ensures state == LoopStep(operations, old(state), now)
      ensures Reaches(operations, state) && !state.pc.Escaped? && state.worker == old(state.worker)
    {
      ExecutorLeavesCanceller(operations, state, Plain, now);
      Take(Executor(Plain, now));
    }

    ghost method TakeCheck(requested: bool)
      requires Reaches(operations, state) && requested == state.coordinator.cancellationRequested
      requires state.pc.AtStart? || state.pc.CheckingAfterStep? || (state.pc.CheckingStep? && state.pc.i < |operations|)
      modifies this`state
      ensures state == old(state).(pc := AfterCheck(|operations|, old(state.pc), requested))
      ensures Reaches(operations, state)
    {
      TakeLoop(0);
    }

    ghost method TakeChoice(error: string, original: string)
      requires Reaches(operations, state) && state.pc == ChoosingException(error, original)
      modifies this`state
      ensures Reaches(operations, state)
      ensures var raised := if old(state).coordinator.verdict == CancellationFailed then error else original;
        state == old(state).(pc := Done(Raised(raised)))
    {
      TakeLoop(0);
    }

    ghost method TakePendingEnd(now: Time)
      requires Reaches(operations, state) && state.pc == CancellingPending
      modifies this`state
      ensures var next := old(state).chain.CancelPendingExecution(now);
        next.Ok? && state == old(state).(chain := next.value, pc := FinishingChain(Returned, Completed))
      ensures Reaches(operations, state)
    {
      TakeLoop(now);
    }

    ghost method TakeBetweenEnd(now: Time)
      requires Reaches(operations, state) && state.pc == CancellingBetween
      modifies this`state
      ensures var next := old(state).chain.CancelExecutionBetweenSteps(now);
        next.Ok? && state == old(state).(chain := next.value, pc := FinishingChain(Returned, Completed))
      ensures Reaches(operations, state)
    {
      TakeLoop(now);
    }

    ghost method TakeRunEnd(now: Time)
      requires Reaches(operations, state) && state.pc == FinishingRun
      modifies this`state
      ensures var next := old(state).chain.FinishExecution(now);
        next.Ok? && state == old(state).(chain := next.value, pc := FinishingChain(Returned, Completed))
      ensures Reaches(operations, state)
    {
      TakeLoop(now);
    }

    /** A transition of the chain out of an end of the loop: its guard holds. */
    ghost method TakeEnd(next: Result<Chain>, now: Time)
      requires Reaches(operations, state)
      requires match state.pc
               case CancellingPending => next == state.chain.CancelPendingExecution(now)
               case CancellingBetween => next == state.chain.CancelExecutionBetweenSteps(now)
               case FinishingRun => next == state.chain.FinishExecution(now)
               case _ => false
      modifies this`state
      ensures next.Ok? && state == old(state).(chain := next.value, pc := FinishingChain(Returned, Completed))
      ensures Reaches(operations, state)
    {
      if state.pc.CancellingPending? {
        TakePendingEnd(now);
      } else if state.pc.CancellingBetween? {
        TakeBetweenEnd(now);
      } else {
        TakeRunEnd(now);
      }
    }

    ghost method TakeStart(now: Time)
      requires Reaches(operations, state) && state.pc == StartingRun
      modifies this`state
      ensures var next := old(state).chain.StartExecution(now);
        next.Ok? && state == old(state).(chain := next.value, pc := CheckingStep(0))
      ensures Reaches(operations, state)
    {
      TakeLoop(now);
    }

    ghost method TakeRegistration(i: nat, action: Action)
      requires Reaches(operations, state) && state.pc == Registering(i, action)
      modifies this`state
      ensures var next := old(state).coordinator.RegisterAction(action);
        && next.Ok? && state.pc == Reporting(i, action) && state.coordinator == next.value
        && state.chain == old(state).chain && state.context == old(state).context && state.worker == old(state).worker
      ensures Reaches(operations, state)
    {
      RegistrationHolds(operations, state);
      TakeOperation(Plain, 0);
    }

    ghost method TakeWait(i: nat, action: Action, source: nat, answer: WaitAnswer)
      requires Reaches(operations, state) && state.pc == Waiting(i, action, source)
      requires LastCall(exchange.calls, FillAwaited(action, answer))
      requires answer.WaitFilled? ==> WaitContract(action, answer.order)
      requires answer.WaitInterrupted? ==> source in state.coordinator.stopped
      modifies this`state, exchange`heard
      ensures state.pc == AfterWaiting(i, answer) && state.coordinator == old(state).coordinator
      ensures state.chain == old(state).chain && state.context == old(state).context
      ensures state.worker == old(state).worker
      ensures exchange.heard && Reaches(operations, state)
    {
      exchange.Hear();
      ReachesWaited(operations, state, i, action, source, answer);
      var next :| Reaches(operations, next) && HasWaited(state, next, i, answer);
      state := next;
    }

    /** The rest of the state is as before. */
    twostate predicate OnlyMoves()
      reads this
    {
      && state.coordinator == old(state).coordinator && state.chain == old(state).chain
      && state.context == old(state).context && state.worker == old(state).worker
    }

    ghost method TakePlacing(i: nat, answer: PlaceAnswer)
      requires Reaches(operations, state) && state.pc == Placing(i) && i < |operations| && !operations[i].SendTo?
      requires answer.Placed? ==> PlacementContract(operations[i], answer.action)
      requires answer.Placed? ==> answer.action.exchanger == state.context.exchanger
      requires LastCall(exchange.calls, OrderAsked(RequestOf(operations[i], state.context), answer))
      modifies this`state, exchange`heard
      ensures exchange.heard && Reaches(operations, state) && OnlyMoves() && state.pc == AfterPlacing(i, answer)
    {
      exchange.Hear();
      match answer
      case Placed(action) => TakeOperation(Accepts(action), 0);
      case PlaceThrew(error) => TakeOperation(Throws(error), 0);
      case PlaceThrewNonStandard => TakeOperation(ThrowsNonStandard, 0);
    }

    ghost method TakeReport(i: nat, action: Action, now: Time)
      requires Reaches(operations, state) && state.pc == Reporting(i, action)
      modifies this`state
      ensures Reaches(operations, state) && state.pc == TakingToken(i, action)
      ensures var next := old(state).chain.MarkStepAwaiting(i, AcceptedIdentifiers(action), now);
        next.Ok? && state == old(state).(chain := next.value, pc := TakingToken(i, action))
    {
      ReachesToken(operations, state, i, action, now);
      var next := state.chain.MarkStepAwaiting(i, AcceptedIdentifiers(action), now);
      state := state.(chain := next.value, pc := TakingToken(i, action));
    }

    ghost method TakeToken(i: nat, action: Action)
      requires Reaches(operations, state) && state.pc == TakingToken(i, action)
      modifies this`state
      ensures Reaches(operations, state) && OnlyMoves()
      ensures state.pc == Waiting(i, action, old(state).coordinator.waitSource)
    {
      TakeOperation(Plain, 0);
    }

    ghost method TakeCompletion(i: nat, filled: OrderInfo)
      requires Reaches(operations, state) && state.pc == Completing(i, filled) && i < |operations|
      requires !operations[i].SendTo?
      modifies this`state
      ensures Reaches(operations, state) && state.pc == Leaving(i, Completed)
      ensures state.coordinator == old(state).coordinator.CompleteActionNaturally()
      ensures state.context == ContextAfterFill(operations[i], old(state).context, filled)
      ensures state.chain == old(state).chain && state.worker == old(state).worker
    {
      TakeOperation(Plain, 0);
    }

    ghost method TakeTransfer(i: nat)
      requires Reaches(operations, state) && state.pc == Placing(i) && i < |operations| && operations[i].SendTo?
      modifies this`state
      ensures Reaches(operations, state) && state.pc == Leaving(i, Completed)
      ensures state.coordinator == old(state).coordinator && state.chain == old(state).chain
      ensures state.context == old(state).context.(exchanger := operations[i].destination)
      ensures state.worker == old(state).worker
    {
      TakeOperation(Plain, 0);
    }

    ghost method TakeLeaving(i: nat, exit: Exit)
      requires Reaches(operations, state) && state.pc == Leaving(i, exit)
      modifies this`state
      ensures Reaches(operations, state) && state.pc == AfterOperation(i, exit)
      ensures state.coordinator == old(state).coordinator.FinishOperation()
      ensures state.chain == old(state).chain && state.context == old(state).context
      ensures state.worker == old(state).worker
    {
      ReachesLeaving(operations, state, i, exit);
      state := state.(coordinator := state.coordinator.FinishOperation(), pc := AfterOperation(i, exit));
    }

    ghost method TakeResolution(i: nat, error: string)
      requires Reaches(operations, state)
      requires state.pc == Resolving(i, error) && state.coordinator.CancellationResolved()
      modifies this`state
      ensures Reaches(operations, state) && OnlyMoves() && state.pc == TestingConfirmed(i, Threw(error))
    {
      TakeHandler(0);
    }

    ghost method TakeConfirmedTest(i: nat, exit: Exit)
      requires Reaches(operations, state) && state.pc == TestingConfirmed(i, exit)
      modifies this`state
      ensures Reaches(operations, state) && OnlyMoves()
      ensures state.pc == if state.coordinator.verdict == ConfirmedCancelled then CancellingStep(i)
                          else TestingFailed(i, exit)
    {
      ReachesTest(operations, state);
      state := state.(pc := AfterTest(state));
    }

    ghost method TakeFailedTest(i: nat, exit: Exit)
      requires Reaches(operations, state) && state.pc == TestingFailed(i, exit)
      modifies this`state
      ensures Reaches(operations, state) && OnlyMoves()
      ensures state.pc == if state.coordinator.verdict == CancellationFailed then ReadingFailure(i, exit)
                          else FailingStep(i, ExitText(exit), exit)
    {
      ReachesTest(operations, state);
      state := state.(pc := AfterTest(state));
    }

    ghost method TakeFailure(i: nat, exit: Exit)
      requires Reaches(operations, state) && state.pc == ReadingFailure(i, exit)
      modifies this`state
      ensures Reaches(operations, state) && OnlyMoves()
      ensures state.pc == FailingStep(i, state.coordinator.failure, exit)
    {
      ReachesTest(operations, state);
      state := state.(pc := AfterTest(state));
    }

    ghost method TakeStartOperation(i: nat)
      requires Reaches(operations, state) && state.pc == StartingOperation(i)
      modifies this`state
      ensures Reaches(operations, state) && state.pc == CheckingOperation(i) && i < |old(state).chain.steps|
      ensures var next := old(state).coordinator.StartOperation(!old(state).chain.steps[i].operation.SendTo?);
        next.Ok? && state == old(state).(coordinator := next.value, pc := CheckingOperation(i))
    {
      ReachesStarted(operations, state, i);
      var next := state.coordinator.StartOperation(!state.chain.steps[i].operation.SendTo?);
      state := state.(coordinator := next.value, pc := CheckingOperation(i));
    }

    ghost method TakeStepEnd(i: nat, next: Result<Chain>, ending: Ending, exit: Exit, now: Time)
      requires Reaches(operations, state)
      requires match state.pc
               case CancellingStep(k) =>
                 k == i && next == state.chain.CancelStepAndExecution(i, state.context, now) && ending == Returned
                 && exit == Completed
               case FailingStep(k, error, left) =>
                 k == i && next == state.chain.FailExecution(i, error, state.context, now) && ending == Raised(error)
                 && exit == left
               case _ => false
      modifies this`state
      ensures next.Ok? && state == old(state).(chain := next.value, pc := FinishingChain(ending, exit))
      ensures Reaches(operations, state)
    {
      TakeHandler(now);
    }

    ghost method TakeHandler(now: Time)
      requires Reaches(operations, state) && Handling(state.pc) && ExecutorEnabled(operations, state, Plain)
      modifies this`state
      ensures state == HandlerStep(old(state), now)
      ensures Reaches(operations, state) && !state.pc.Escaped? && state.worker == old(state.worker)
    {
      ExecutorLeavesCanceller(operations, state, Plain, now);
      Take(Executor(Plain, now));
    }

    ghost method TakeOperation(choice: Choice, now: Time)
      requires Reaches(operations, state) && InOperation(state.pc) && ExecutorEnabled(operations, state, choice)
      modifies this`state
      ensures state == OperationStep(operations, old(state), choice, now)
      ensures Reaches(operations, state) && !state.pc.Escaped? && state.worker == old(state.worker)
    {
      ExecutorLeavesCanceller(operations, state, choice, now);
      Take(Executor(choice, now));
    }

    method IsCancellationRequested() returns (requested: bool)
      requires Valid()
      requires state.pc.AtStart? || state.pc.CheckingAfterStep? || (state.pc.CheckingStep? && state.pc.i < |operations|)
      modifies this, coordinator, exchange
      ensures Valid() && state.pc == AfterCheck(|operations|, old(state.pc), requested)
    {
      OthersAct();
      requested := coordinator.IsCancellationRequested();
      TakeCheck(requested);
    }

    /** Leaving the loop is no access to shared state. */
    method EndLoop()
      requires Valid() && state.pc == CheckingStep(|operations|)
      modifies this`state
      ensures Valid() && state.pc == FinishingRun
    {
      TakeLoop(0);
    }

    method CancelPendingExecution()
      requires Valid() && state.pc == CancellingPending
      modifies this, coordinator, exchange, chain
      ensures Valid() && state.pc == FinishingChain(Returned, Completed)
    {
      OthersAct();
      var now := Now();
      var thrown := chain.CancelPendingExecution(now);
      TakeEnd(state.chain.CancelPendingExecution(now), now);
      assert thrown == None;
    }

    method StartExecution()
      requires Valid() && state.pc == StartingRun
      modifies this, coordinator, exchange, chain
      ensures Valid() && state.pc == CheckingStep(0)
    {
      OthersAct();
      var now := Now();
      var thrown := chain.StartExecution(now);
      TakeStart(now);
      assert thrown == None;
    }

    method CancelExecutionBetweenSteps()
      requires Valid() && state.pc == CancellingBetween
      modifies this, coordinator, exchange, chain
      ensures Valid() && state.pc == FinishingChain(Returned, Completed)
    {
      OthersAct();
      var now := Now();
      var thrown := chain.CancelExecutionBetweenSteps(now);
      TakeEnd(state.chain.CancelExecutionBetweenSteps(now), now);
      assert thrown == None;
    }

    method StartStep(i: nat)
      requires Valid() && state.pc == StartingStep(i)
      modifies this, coordinator, exchange, chain
      ensures Valid() && state.pc == StartingOperation(i)
    {
      OthersAct();
      var now := Now();
      var thrown := chain.StartStep(i, now);
      TakeLoop(now);
      assert thrown == None;
    }

    method StartOperation(i: nat)
      requires Valid() && state.pc == StartingOperation(i)
      modifies this, coordinator, exchange
      ensures Valid() && state.pc == CheckingOperation(i)
    {
      OthersAct();
      StepExists(operations, state);
      var thrown := coordinator.StartOperation(!chain.steps[i].operation.SendTo?);
      TakeStartOperation(i);
      assert thrown == None;
    }

    method FinishOperation(i: nat, exit: Exit)
      requires Valid() && state.pc == Leaving(i, exit)
      modifies this, coordinator, exchange
      ensures Valid() && state.pc == AfterOperation(i, exit)
    {
      OthersAct();
      coordinator.FinishOperation();
      TakeLeaving(i, exit);
    }

    method FinishStep(i: nat)
      requires Valid() && state.pc == FinishingStep(i)
      modifies this, coordinator, exchange, chain
      ensures Valid() && state.pc == CheckingAfterStep(i)
    {
      OthersAct();
      var now := Now();
      var thrown := chain.FinishStep(i, now);
      TakeLoop(now);
      assert thrown == None;
    }

    method FinishExecution()
      requires Valid() && state.pc == FinishingRun
      modifies this, coordinator, exchange, chain
      ensures Valid() && state.pc == FinishingChain(Returned, Completed)
    {
      OthersAct();
      var now := Now();
      var thrown := chain.FinishExecution(now);
      TakeEnd(state.chain.FinishExecution(now), now);
      assert thrown == None;
    }

    method CancelStepAndExecution(i: nat)
      requires Valid() && state.pc == CancellingStep(i)
      modifies this, coordinator, exchange, chain
      ensures Valid() && state.pc == FinishingChain(Returned, Completed)
    {
      OthersAct();
      var now := Now();
      var thrown := chain.CancelStepAndExecution(i, now);
      TakeStepEnd(i, state.chain.CancelStepAndExecution(i, state.context, now), Returned, Completed, now);
      assert thrown == None;
    }

    method FailExecution(i: nat, error: string, exit: Exit)
      requires Valid() && state.pc == FailingStep(i, error, exit)
      modifies this, coordinator, exchange, chain
      ensures Valid() && state.pc == FinishingChain(Raised(error), exit)
    {
      OthersAct();
      var now := Now();
      var thrown := chain.FailExecution(i, error, now);
      TakeStepEnd(i, state.chain.FailExecution(i, error, state.context, now), Raised(error), exit, now);
      assert thrown == None;
    }

    method FinishChain(ending: Ending, exit: Exit)
      requires Valid() && state.pc == FinishingChain(ending, exit)
      modifies this, coordinator, exchange
      ensures Valid()
      ensures state.pc == if ending.Raised? && exit.Threw? then ChoosingException(ending.error, exit.error)
                          else Done(ending)
    {
      OthersAct();
      coordinator.FinishChain();
      TakeLoop(0);
    }

    // ---- The closure of one operation ----

    method ThrowIfCancellationRequested(i: nat) returns (requested: bool)
      requires Valid() && state.pc == CheckingOperation(i)
      modifies this, coordinator, exchange
      ensures Valid() && state.pc == if requested then Leaving(i, SawRequest) else Placing(i)
    {
      OthersAct();
      requested := coordinator.IsCancellationRequested();
      TakeOperation(Plain, 0);
    }

    method SendTo(i: nat)
      requires Valid() && state.pc == Placing(i) && i < |operations| && operations[i].SendTo?
      modifies this, coordinator, exchange, chain
      ensures Valid() && state.pc == Leaving(i, Completed)
    {
      OthersAct();
      chain.context := chain.context.(exchanger := operations[i].destination);
      TakeTransfer(i);
    }

    method PlaceOrder(i: nat) returns (answer: PlaceAnswer)
      requires Valid() && state.pc == Placing(i) && i < |operations| && !operations[i].SendTo?
      modifies this, coordinator, exchange
      ensures Valid() && state.pc == AfterPlacing(i, answer)
    {
      OthersAct();
      answer := exchange.PlaceOrder(operations[i], chain.context);
      TakePlacing(i, answer);
    }

    /** Registering the accepted order never throws. */
    method RegisterAction(i: nat, action: Action)
      requires Valid() && state.pc == Registering(i, action)
      modifies this, coordinator, exchange
      ensures Valid() && state.pc == Reporting(i, action)
    {
      OthersAct();
      var thrown := coordinator.RegisterAction(action);
      TakeRegistration(i, action);
      assert thrown == None;
    }

    method ReportAwaiting(i: nat, action: Action)
      requires Valid() && state.pc == Reporting(i, action)
      modifies this, coordinator, exchange, chain
      ensures Valid() && state.pc == TakingToken(i, action)
    {
      OthersAct();
      var now := Now();
      var thrown := chain.MarkStepAwaiting(i, AcceptedIdentifiers(action), now);
      TakeReport(i, action, now);
      assert thrown == None;
    }

    method GetWaitStopToken(i: nat, action: Action) returns (source: nat)
      requires Valid() && state.pc == TakingToken(i, action)
      modifies this, coordinator, exchange
      ensures Valid() && state.pc == Waiting(i, action, source)
    {
      OthersAct();
      source := coordinator.GetWaitStopToken();
      TakeToken(i, action);
    }

    method WaitUntilFilled(i: nat, action: Action, source: nat) returns (answer: WaitAnswer)
      requires Valid() && state.pc == Waiting(i, action, source)
      modifies this, coordinator, exchange
      ensures Valid() && state.pc == AfterWaiting(i, answer)
    {
      OthersAct();
      answer := exchange.WaitUntilFilled(action, source in coordinator.stopRequested);
      TakeWait(i, action, source, answer);
    }

    method CompleteActionNaturally(i: nat, filled: OrderInfo)
      requires Valid() && state.pc == Completing(i, filled) && i < |operations| && !operations[i].SendTo?
      modifies this, coordinator, exchange, chain
      ensures Valid() && state.pc == Leaving(i, Completed)
    {
      OthersAct();
      coordinator.CompleteActionNaturally();
      chain.context := ContextAfterFill(operations[i], chain.context, filled);
      TakeCompletion(i, filled);
    }

    /** One operation, from its own check to the fill; the result says how it was left. */
    method RunOperation(i: nat) returns (exit: Exit)
      requires Valid() && state.pc == CheckingOperation(i) && i < |operations|
      modifies this, coordinator, exchange, chain
      ensures Valid() && state.pc == Leaving(i, exit)
    {
      var requested := ThrowIfCancellationRequested(i);
      if requested {
        return SawRequest;
      }
      if operations[i].SendTo? {
        SendTo(i);
        return Completed;
      }
      var placed := PlaceOrder(i);
      if placed.PlaceThrew? {
        return Threw(placed.error);
      }
      if placed.PlaceThrewNonStandard? {
        return ThrewNonStandard;
      }
      exit := AwaitFill(i, placed.action);
    }

    /** The part of an operation that follows the exchange's acceptance of its order. */
    method AwaitFill(i: nat, action: Action) returns (exit: Exit)
      requires Valid() && state.pc == Registering(i, action) && i < |operations| && !operations[i].SendTo?
      modifies this, coordinator, exchange, chain
      ensures Valid() && state.pc == Leaving(i, exit)
    {
      RegisterAction(i, action);
      ReportAwaiting(i, action);
      exit := WaitAndComplete(i, action);
    }

    method WaitAndComplete(i: nat, action: Action) returns (exit: Exit)
      requires Valid() && state.pc == TakingToken(i, action) && i < |operations| && !operations[i].SendTo?
      modifies this, coordinator, exchange, chain
      ensures Valid() && state.pc == Leaving(i, exit)
    {
      var source := GetWaitStopToken(i, action);
      var waited := WaitUntilFilled(i, action, source);
      match waited
      case WaitFilled(order) =>
        CompleteActionNaturally(i, order);
        return Completed;
      case WaitInterrupted(error) => return Interrupted(error);
      case WaitThrew(error) => return Threw(error);
      case WaitThrewNonStandard => return ThrewNonStandard;
    }

    // ---- The handlers of execute ----

    method WaitForCancellationResolution(i: nat, error: string)
      requires Valid() && state.pc == Resolving(i, error)
      modifies this, coordinator, exchange
      ensures Valid() && state.pc == TestingConfirmed(i, Threw(error))
    {
      SleepUntilResolved(i, error);
      TakeResolution(i, error);
    }

    /** Sleeps until the other thread has reached a verdict or is gone. It always gets there: while the
        executor sleeps here, the other thread is never blocked. */
    method SleepUntilResolved(i: nat, error: string)
      requires Valid() && state.pc == Resolving(i, error)
      modifies this, coordinator, exchange
      ensures Valid() && state.pc == Resolving(i, error) && state.coordinator.CancellationResolved()
    {
      OthersAct();
      var resolved := coordinator.PollResolution();
      while !resolved
        invariant Valid() && state.pc == Resolving(i, error)
        invariant resolved == state.coordinator.CancellationResolved()
        decreases WorkerRank(worker)
      {
        ResolutionIsComing(operations, state);
        CancellerActs();
        resolved := coordinator.PollResolution();
      }
    }

    method IsCancellationConfirmed(i: nat, exit: Exit) returns (confirmed: bool)
      requires Valid() && state.pc == TestingConfirmed(i, exit)
      modifies this, coordinator, exchange
      ensures Valid() && state.pc == if confirmed then CancellingStep(i) else TestingFailed(i, exit)
    {
      OthersAct();
      confirmed := coordinator.IsCancellationConfirmed();
      TakeConfirmedTest(i, exit);
    }

    method HasCancellationFailed(i: nat, exit: Exit) returns (failed: bool)
      requires Valid() && state.pc == TestingFailed(i, exit)
      modifies this, coordinator, exchange
      ensures Valid() && state.pc == if failed then ReadingFailure(i, exit) else FailingStep(i, ExitText(exit), exit)
    {
      OthersAct();
      failed := coordinator.HasCancellationFailed();
      TakeFailedTest(i, exit);
    }

    method GetCancellationFailure(i: nat, exit: Exit) returns (error: string)
      requires Valid() && state.pc == ReadingFailure(i, exit)
      modifies this, coordinator, exchange
      ensures Valid() && state.pc == FailingStep(i, error, exit)
    {
      OthersAct();
      error := coordinator.GetCancellationFailure();
      TakeFailure(i, exit);
    }

    /** The text a failed step is recorded with: the cancellation's own failure if there is one. */
    method ChooseError(i: nat, exit: Exit) returns (error: string)
      requires Valid() && state.pc == TestingFailed(i, exit)
      modifies this, coordinator, exchange
      ensures Valid() && state.pc == FailingStep(i, error, exit)
    {
      var failed := HasCancellationFailed(i, exit);
      if !failed {
        return ExitText(exit);
      }
      error := GetCancellationFailure(i, exit);
    }

    method ChooseException(error: string, original: string) returns (raised: string)
      requires Valid() && state.pc == ChoosingException(error, original)
      modifies this, coordinator, exchange
      ensures Valid() && state.pc == Done(Raised(raised))
    {
      OthersAct();
      var failed := coordinator.HasCancellationFailed();
      raised := if failed then error else original;
      TakeChoice(error, original);
    }

    method EndCancelled(i: nat)
      requires Valid() && state.pc == CancellingStep(i)
      modifies this, coordinator, exchange, chain
      ensures Valid() && state.pc == Done(Returned)
    {
      CancelStepAndExecution(i);
      FinishChain(Returned, Completed);
    }

    /** Records the failure; a standard exception is raised again with the text it was recorded with or,
        when no cancellation failed, as it was. */
    method EndFailed(i: nat, error: string, exit: Exit) returns (ending: Ending)
      requires Valid() && state.pc == FailingStep(i, error, exit)
      modifies this, coordinator, exchange, chain
      ensures Valid() && state.pc == Done(ending)
    {
      FailExecution(i, error, exit);
      FinishChain(Raised(error), exit);
      if !exit.Threw? {
        return Raised(error);
      }
      var raised := ChooseException(error, exit.error);
      return Raised(raised);
    }

    /** The handlers for an operation that was left by an exception. */
    method HandleException(i: nat, exit: Exit) returns (ending: Ending)
      requires Valid() && state.pc == Leaving(i, exit) && !exit.Completed?
      modifies this, coordinator, exchange, chain
      ensures Valid() && state.pc == Done(ending)
    {
      FinishOperation(i, exit);
      if exit.SawRequest? {
        EndCancelled(i);
        return Returned;
      }
      if exit.ThrewNonStandard? {
        ending := EndFailed(i, "Operation failed with a non-standard exception", exit);
        return;
      }
      if exit.Threw? {
        WaitForCancellationResolution(i, exit.error);
      }
      ending := EndByVerdict(i, exit);
    }

    method EndByVerdict(i: nat, exit: Exit) returns (ending: Ending)
      requires Valid() && state.pc == TestingConfirmed(i, exit)
      modifies this, coordinator, exchange, chain
      ensures Valid() && state.pc == Done(ending)
    {
      var confirmed := IsCancellationConfirmed(i, exit);
      if confirmed {
        EndCancelled(i);
        return Returned;
      }
      var error := ChooseError(i, exit);
      ending := EndFailed(i, error, exit);
    }

    /** Execute of a fresh run. It ends with the run recorded as completed, failed or cancelled, raises
        exactly for a failed run and with the recorded text, and is a run of the interleaving machine. */
    method Execute() returns (ending: Ending)
      requires Valid() && state.pc == AtStart
      modifies this, coordinator, exchange, chain
      ensures Valid() && state.pc == Done(ending)
      ensures chain.Snapshot().status in {ChainCompleted, ChainFailed, ChainCancelled}
      ensures ending == if chain.Snapshot().status == ChainFailed then Raised(chain.Snapshot().error) else Returned
      ensures chain.Snapshot().status == ChainCompleted ==>
                chain.Snapshot().revision == 2 + 3 * |operations| - CountSends(operations)
      ensures |chain.Snapshot().steps| == |operations| && StatusIsExact(chain.Snapshot())
      ensures operations != [] ==> (chain.Snapshot().status == ChainCompleted <==> AllSucceeded(chain.Snapshot()))
      ensures chain.Snapshot().status == ChainFailed <==> SomeFailed(chain.Snapshot())
      ensures chain.Snapshot().status == ChainCancelled ==> coordinator.View().cancellationRequested
    {
      ending := RunLoop();
      EndingIsRecorded(operations, state);
    }

    method StopBetweenSteps()
      requires Valid() && state.pc == CancellingBetween
      modifies this, coordinator, exchange, chain
      ensures Valid() && state.pc == Done(Returned)
    {
      CancelExecutionBetweenSteps();
      FinishChain(Returned, Completed);
    }

    /** One round of the loop; the result is how execute ends, unless the loop goes on. */
    method RunStep(stepIndex: nat) returns (ended: Option<Ending>)
      requires Valid() && state.pc == CheckingStep(stepIndex) && stepIndex < |operations|
      modifies this, coordinator, exchange, chain
      ensures Valid() && state.pc == if ended.Some? then Done(ended.value) else CheckingStep(stepIndex + 1)
    {
      var requested := IsCancellationRequested();
      if requested {
        StopBetweenSteps();
        return Some(Returned);
      }
      StartStep(stepIndex);
      StartOperation(stepIndex);
      var exit := RunOperation(stepIndex);
      if !exit.Completed? {
        var ending := HandleException(stepIndex, exit);
        return Some(ending);
      }
      var stopped := EndStep(stepIndex);
      return if stopped then Some(Returned) else None;
    }

    /** The end of a step that was left without an exception. */
    method RecordSuccess(stepIndex: nat)
      requires Valid() && state.pc == Leaving(stepIndex, Completed)
      modifies this, coordinator, exchange, chain
      ensures Valid() && state.pc == CheckingAfterStep(stepIndex)
    {
      FinishOperation(stepIndex, Completed);
      FinishStep(stepIndex);
    }

    method EndStep(stepIndex: nat) returns (stopped: bool)
      requires Valid() && state.pc == Leaving(stepIndex, Completed)
      modifies this, coordinator, exchange, chain
      ensures Valid() && state.pc == if stopped then Done(Returned) else CheckingStep(stepIndex + 1)
    {
      RecordSuccess(stepIndex);
      var requested := IsCancellationRequested();
      stopped := requested && stepIndex + 1 < |operations|;
      if stopped {
        StopBetweenSteps();
      }
    }

    method RunLoop() returns (ending: Ending)
      requires Valid() && state.pc == AtStart
      modifies this, coordinator, exchange, chain
      ensures Valid() && state.pc == Done(ending)
    {
      var requested := IsCancellationRequested();
      if requested {
        CancelPendingExecution();
        FinishChain(Returned, Completed);
        return Returned;
      }
      StartExecution();
      var stepIndex := 0;
      while stepIndex < |operations|
        invariant stepIndex <= |operations| && Valid() && state.pc == CheckingStep(stepIndex)
      {
        var ended := RunStep(stepIndex);
        if ended.Some? {
          return ended.value;
        }
        stepIndex := stepIndex + 1;
      }
      EndLoop();
      FinishExecution();
      FinishChain(Returned, Completed);
      return Returned;
    }
  }
}
