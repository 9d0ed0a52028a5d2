/** The state that the executing thread and the cancelling thread of one run share. Each function
    of Coordinator is one critical section of the coordinator's mutex. */
module CoordinatorState {
  import opened Domain

  /** The cancellable order of the operation in progress, with the exchange that accepted it. */
  datatype Action =
    | NoAction
    | OrdinaryOrder(exchanger: Exchanger, order: OrderInfo)
    | OcoOrder(exchanger: Exchanger, oco: OcoInfo)

  datatype Verdict = Undecided | ConfirmedCancelled | NaturalCompletion | CancellationFailed

  const OPERATION_IS_ACTIVE := "Operation-chain cancellation coordinator already has an active operation"
  const OUTSIDE_OPERATION := "Cannot register an order outside a cancellable chain operation"
  const ACTION_IS_REGISTERED := "Operation-chain cancellation coordinator already has a registered action"

  /** Stop sources are numbered in the order they are created; `stopped` holds those on which a
      stop was requested. */
  datatype Coordinator = Coordinator(
    cancellationRequested: bool,
    operationActive: bool,
    actionMayBeRegistered: bool,
    actionCompletedNaturally: bool,
    chainFinished: bool,
    workerRunning: bool,
    currentAction: Action,
    waitSource: nat,
    verdict: Verdict,
    failure: string,
    stopped: set<nat>)
  {
    function RequestCancellation(): Coordinator {
      this.(cancellationRequested := true)
    }

    function StartOperation(canRegisterAction: bool): Result<Coordinator> {
      if operationActive then
        Err(OPERATION_IS_ACTIVE)
      else
        Ok(this.(operationActive := true,
                 actionMayBeRegistered := canRegisterAction,
                 actionCompletedNaturally := false,
                 currentAction := NoAction,
                 waitSource := waitSource + 1,
                 verdict := Undecided,
                 failure := ""))
    }

    function RegisterAction(action: Action): Result<Coordinator> {
      if !operationActive || !actionMayBeRegistered then
        Err(OUTSIDE_OPERATION)
      else if !currentAction.NoAction? then
        Err(ACTION_IS_REGISTERED)
      else
        Ok(this.(currentAction := action, actionMayBeRegistered := false))
    }

    function CompleteActionNaturally(): Coordinator {
      if !operationActive then this
      else
        var completed := this.(actionCompletedNaturally := true,
                               actionMayBeRegistered := false,
                               currentAction := NoAction);
        if cancellationRequested then completed.(verdict := NaturalCompletion, failure := "")
        else completed
    }

    function FinishOperation(): Coordinator {
      this.(operationActive := false, actionMayBeRegistered := false, currentAction := NoAction)
    }

    function FinishChain(): Coordinator {
      FinishOperation().(chainFinished := true)
    }

    /** Neither a confirmed cancellation nor a failure may replace a natural completion. */
    predicate VerdictIsNatural() {
      actionCompletedNaturally || verdict == NaturalCompletion
    }

    function RecordConfirmedCancellation(): Coordinator {
      if VerdictIsNatural() then this else this.(verdict := ConfirmedCancelled, failure := "")
    }

    function RecordNaturalCompletion(): Coordinator {
      this.(verdict := NaturalCompletion, failure := "")
    }

    function RecordCancellationFailure(error: string): Coordinator {
      if VerdictIsNatural() then this else this.(verdict := CancellationFailed, failure := error)
    }

    function RequestStop(source: nat): Coordinator {
      this.(stopped := stopped + {source})
    }

    function EnterWorker(): Coordinator {
      this.(workerRunning := true)
    }

    function FinishWorker(): Coordinator {
      this.(workerRunning := false)
    }

    /** The condition on which the cancelling thread leaves its wait. */
    predicate WorkerMayProceed() {
      chainFinished || !operationActive || !currentAction.NoAction?
    }

    /** What the cancelling thread takes with it when it leaves its wait. */
    function CaptureAction(): Action {
      if !chainFinished && operationActive then currentAction else NoAction
    }

    /** The condition on which the executing thread leaves its wait for a verdict. */
    predicate CancellationResolved() {
      !cancellationRequested || verdict != Undecided || !workerRunning
    }
  }

  function InitialCoordinator(): Coordinator {
    Coordinator(false, false, false, false, false, false, NoAction, 0, Undecided, "", {})
  }
}

/** The coordinator object itself: every public or private operation that holds the mutex once. */
module CancellationCoordinator {
  import opened Domain
  import opened CoordinatorState

  class OperationCancellationCoordinator {
    var cancellationRequested: bool
    var operationActive: bool
    var actionMayBeRegistered: bool
    var actionCompletedNaturally: bool
    var chainFinished: bool
    var cancellationWorkerRunning: bool
    var currentAction: Action
    var waitStopSource: nat
    var stopRequested: set<nat>
    var result: Verdict
    var failure: string

    function View(): Coordinator
      reads this
    {
      Coordinator(cancellationRequested, operationActive, actionMayBeRegistered,
                  actionCompletedNaturally, chainFinished, cancellationWorkerRunning,
                  currentAction, waitStopSource, result, failure, stopRequested)
    }

    constructor ()
      ensures View() == InitialCoordinator()
    {
      cancellationRequested, operationActive, actionMayBeRegistered := false, false, false;
      actionCompletedNaturally, chainFinished, cancellationWorkerRunning := false, false, false;
      currentAction, waitStopSource, stopRequested := NoAction, 0, {};
      result, failure := Undecided, "";
    }

    method RequestCancellation()
      modifies this
      ensures View() == old(View()).RequestCancellation()
    {
      cancellationRequested := true;
    }

    method IsCancellationRequested() returns (requested: bool)
      ensures requested == View().cancellationRequested
    {
      requested := cancellationRequested;
    }

    method StartOperation(canRegisterAction: bool) returns (error: Option<string>)
      modifies this
      ensures match old(View()).StartOperation(canRegisterAction)
              case Ok(next) => error == None && View() == next
              case Err(message) => error == Some(message) && View() == old(View())
    {
      if operationActive {
        return Some(OPERATION_IS_ACTIVE);
      }
      operationActive := true;
      actionMayBeRegistered := canRegisterAction;
      actionCompletedNaturally := false;
      currentAction := NoAction;
      waitStopSource := waitStopSource + 1;
      result := Undecided;
      failure := "";
      return None;
    }

    method RegisterAction(action: Action) returns (error: Option<string>)
      modifies this
      ensures match old(View()).RegisterAction(action)
              case Ok(next) => error == None && View() == next
              case Err(message) => error == Some(message) && View() == old(View())
    {
      if !operationActive || !actionMayBeRegistered {
        return Some(OUTSIDE_OPERATION);
      }
      if !currentAction.NoAction? {
        return Some(ACTION_IS_REGISTERED);
      }
      currentAction := action;
      actionMayBeRegistered := false;
      return None;
    }

    method GetWaitStopToken() returns (source: nat)
      ensures source == View().waitSource
    {
      source := waitStopSource;
    }

    method CompleteActionNaturally()
      modifies this
      ensures View() == old(View()).CompleteActionNaturally()
    {
      if !operationActive {
        return;
      }
      actionCompletedNaturally := true;
      actionMayBeRegistered := false;
      currentAction := NoAction;
      if cancellationRequested {
        result := NaturalCompletion;
        failure := "";
      }
    }

    method FinishOperation()
      modifies this
      ensures View() == old(View()).FinishOperation()
    {
      operationActive := false;
      actionMayBeRegistered := false;
      currentAction := NoAction;
    }

    method FinishChain()
      modifies this
      ensures View() == old(View()).FinishChain()
    {
      chainFinished := true;
      operationActive := false;
      actionMayBeRegistered := false;
      currentAction := NoAction;
    }

    /** The stop is requested on the copied source after the mutex is released, so the caller
        receives the source, or nothing when a natural completion stands. */
    method RecordConfirmedCancellation() returns (source: Option<nat>)
      modifies this
      ensures View() == old(View()).RecordConfirmedCancellation()
      ensures source == if old(View()).VerdictIsNatural() then None else Some(old(View()).waitSource)
    {
      if actionCompletedNaturally || result == NaturalCompletion {
        return None;
      }
      result := ConfirmedCancelled;
      failure := "";
      return Some(waitStopSource);
    }

    method RecordNaturalCompletion()
      modifies this
      ensures View() == old(View()).RecordNaturalCompletion()
    {
      result := NaturalCompletion;
      failure := "";
    }

    method RecordCancellationFailure(error: string) returns (source: Option<nat>)
      modifies this
      ensures View() == old(View()).RecordCancellationFailure(error)
      ensures source == if old(View()).VerdictIsNatural() then None else Some(old(View()).waitSource)
    {
      if actionCompletedNaturally || result == NaturalCompletion {
        return None;
      }
      result := CancellationFailed;
      failure := error;
      return Some(waitStopSource);
    }

    method RequestStop(source: nat)
      modifies this
      ensures View() == old(View()).RequestStop(source)
    {
      stopRequested := stopRequested + {source};
    }

    /** Entry into the cancelling thread's critical section: the running flag is set and the wait
        condition is evaluated before the mutex can be released. */
    method EnterWorker() returns (proceed: bool, action: Action)
      modifies this
      ensures View() == old(View()).EnterWorker()
      ensures proceed == View().WorkerMayProceed()
      ensures action == if proceed then View().CaptureAction() else NoAction
    {
      cancellationWorkerRunning := true;
      proceed, action := PollWorkerWait();
    }

    method PollWorkerWait() returns (proceed: bool, action: Action)
      ensures proceed == View().WorkerMayProceed()
      ensures action == if proceed then View().CaptureAction() else NoAction
    {
      proceed := chainFinished || !operationActive || !currentAction.NoAction?;
      action := NoAction;
      if proceed && !chainFinished && operationActive {
        action := currentAction;
      }
    }

    method FinishCancellationWorker()
      modifies this
      ensures View() == old(View()).FinishWorker()
    {
      cancellationWorkerRunning := false;
    }

    method PollResolution() returns (resolved: bool)
      ensures resolved == View().CancellationResolved()
    {
      if !cancellationRequested {
        return true;
      }
      resolved := result != Undecided || !cancellationWorkerRunning;
    }

    method IsCancellationConfirmed() returns (confirmed: bool)
      ensures confirmed == (View().verdict == ConfirmedCancelled)
    {
      confirmed := result == ConfirmedCancelled;
    }

    method HasCancellationFailed() returns (failed: bool)
      ensures failed == (View().verdict == CancellationFailed)
    {
      failed := result == CancellationFailed;
    }

    method GetCancellationFailure() returns (error: string)
      ensures error == View().failure
    {
      error := failure;
    }
  }
}
