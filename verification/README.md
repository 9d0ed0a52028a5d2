# Verified model of the trading client's run, order and arithmetic core

The program places orders on two exchanges, Binance and Bybit, runs chains of such operations in the
background, lets a user cancel a run at any moment, and keeps a session of manual orders. This project models
the parts in which several threads or out-of-order callbacks meet, and proves what they guarantee.

| files | what they model |
|---|---|
| `Domain.dfy` | order records, results, status classification (src/DealService/common/OrderStatusUtil.cpp) |
| `CancellationCoordinator.dfy`, `ChainState.dfy`, `ChainShape.dfy` | the coordinator's flags and the run's snapshot: each critical section as a function, the objects that perform it in place, the shape of every snapshot |
| `CancellationProtocol.dfy`, `CancellationInvariant.dfy`, `CancellationMoves.dfy`, `CancellationSteps.dfy`, `CancellationTheorems.dfy`, `CancellationEndings.dfy`, `CancellationRecords.dfy` | the executing and the cancelling thread of one run as an interleaving transition system, its inductive invariant, and the theorems over all its runs |
| `ChainExchange.dfy`, `ChainExecution.dfy`, `ServiceContracts.dfy` | `execute`, its operations and handlers, and the cancelling thread's code on the real objects; every critical section is shown to be a step of the transition system |
| `PendingOrders.dfy`, `OrderWaits.dfy`, `OcoWaitSupport.dfy`, `BinanceWaits.dfy`, `BybitWaits.dfy` | the counted table of pending order waits and every wait over it, while other threads change it between any two critical sections |
| `BybitOcoRegistry.dfy`, `BybitOcoProtocol.dfy`, `BybitOcoTheorems.dfy`, `BybitOcoRemoval.dfy`, `BybitOcoFills.dfy`, `BybitExchange.dfy`, `BybitOcoService.dfy` | the client-side OCO registry of the Bybit service under any number of concurrent operations, and the operations themselves with their network calls between their critical sections |
| `OrderSession.dfy`, `OrderSessionProtocol.dfy`, `OrderSessionTheorems.dfy`, `OrderSessionRequests.dfy`, `OrderSessionObject.dfy` | the order session: effects of its callbacks, every order in which they can arrive, and the object with its sorted vector |
| `RunManager.dfy` | ids, update sequences, notifications, and the run model that merges them |
| `SimulatedRun.dfy` | the simulated run |
| `Decimals.dfy`, `SymbolRules.dfy` | step printing, trimming, parsing, rounding and corrections over exact decimals |

Three promises turned out to hold only under a condition; each is proved as an equivalence, with a reachable or
concrete failure beside it:

- **OCO ids used again.** The second halves of `processOcoUpdate` and `cancelOco` find their group by id alone.
  An operation that outlives its group can take out a group placed under the same id meanwhile, although
  nothing is known about the new legs. `BybitOcoRemoval.PlacementSafetyIsExact`: a placement is safe exactly when
  no operation on its id is in flight. `BybitOcoRemoval.ReuseIsReachable` shows that the check at placement
  does not exclude the other case.
- **Whole steps.** Trimming also strips the zeros of a whole number when no decimal point is printed, so a
  quantity of 100 by a step of 1 is printed as "1" (`Decimals.WholeStepLosesZeros`).
  `Decimals.FormatByStepReadsBack` gives the exact condition.
- **OCO slots.** The slots of a terminal OCO record are assigned by order id alone, so two children of different
  symbols with one order id confuse the stop-loss slot. `OcoChildren.SlotsAreExact` gives the exact condition,
  `OcoChildren.SlotsCanBeConfused` two such children.

Where a method of an object changes state, its contract equates the new state with a function of the old one,
and the theorems are about that function. Choices of the exchange, of the clock and of other threads are
arbitrary values. The calls to an exchange record what was asked and answered in ghost state that nothing else
writes, and the contracts of the operations that make them are stated over that record; a wait keeps notes of
what it met. A setback is a call that failed, a wait that was interrupted or lost the stream, a request to stop
or an error read from a cell. An exception that leaves a call is an `Err` or a returned text.

## Model

| member | source | states |
|---|---|---|
| `CancellationTheorems.RunKeepsInvariant` | src/OperationChain/OperationChain.cpp:222-333 | every state of every interleaving of executor and canceller satisfies the protocol's invariant, whatever the exchange answers |
| `CancellationTheorems.GuardsNeverTrip` | src/OperationChain/OperationChain.cpp:57-187 | no exception guard of the chain fires and registration never fails, so an accepted order is always registered |
| `CancellationTheorems.NoLostCancellation` | src/OperationChain/OperationCancellationCoordinator.cpp:253-303 | once the cancelling thread has left its wait without an action, the run registers no order any more |
| `CancellationTheorems.EveryOrderSettled` | src/OperationChain/OperationChain.cpp:234-322 | at the end every accepted order was filled, was captured and reported cancelled, or failed with the recorded text because, at a moment of the run that the theorem produces, its own fill wait ended in an exception |
| `CancellationTheorems.FindReport` | src/OperationChain/OperationCancellationCoordinator.cpp:206-251 | a recorded cancellation report has a moment at which the exchange, asked about that very order, answered cancelled |
| `CancellationTheorems.CancelledMeansReported` | src/OperationChain/OperationCancellationCoordinator.cpp:206-251 | a step with an accepted order ends cancelled only if the exchange reported that order (for an OCO, both children) cancelled |
| `CancellationTheorems.FillWins` | src/OperationChain/OperationCancellationCoordinator.cpp:110-128 | a step whose wait returned a fill ends succeeded, whichever thread recorded first |
| `CancellationTheorems.InterruptionFindsVerdict` | src/OperationChain/OperationChain.cpp:265-283 | whenever an interrupted wait is handled, the verdict is already a confirmed cancellation or a failure |
| `CancellationTheorems.EndMatchesVerdict` | src/OperationChain/OperationChain.cpp:265-311 | after a capture, a standard exception ends the run as the verdict says, with the verdict's text |
| `CancellationTheorems.RaisedTextIsRecorded` | src/OperationChain/OperationChain.cpp:276-311 | execute raises exactly for a run recorded as failed, with the recorded text |
| `CancellationTheorems.CapturedVerdictIsStable` | src/OperationChain/OperationCancellationCoordinator.cpp:58-72 | after a capture no operation starts, a verdict only changes to a natural completion, and that is final |
| `CancellationTheorems.AtMostOnePlacementAfterRequest` | src/OperationChain/OperationFactory.cpp:106-121 | at most one order is accepted after the request, in the step that was past its check at the request |
| `CancellationTheorems.NoMutualBlocking` | src/OperationChain/OperationCancellationCoordinator.cpp:253-313 | an unfinished thread that cannot step waits for something that the other thread is able to bring about |
| `CancellationTheorems.RunsAreBounded` | src/OperationChain/OperationChain.cpp:234-333 | every run is finite, with a bound in the number of operations |
| `CancellationTheorems.StoppedRunsAreComplete` | src/OperationChain/OperationChain.cpp:222-333 | a run that neither thread can extend has finished executing and carried its cancellation through |
| `CancellationTheorems.SnapshotIsWellShaped` | src/OperationChain/OperationChain.cpp:57-187 | in every state: succeeded steps, at most one started step, untouched steps, contexts threaded, status, index, error and times to match |
| `CancellationTheorems.CompletedRevisionIsExact` | src/OperationChain/OperationChain.cpp:189-193 | a completed run has revision 2 + 3 per order step + 2 per transfer step |
| `CancellationTheorems.SucceededStepIsBacked` | src/OperationChain/OperationFactory.cpp:106-121 | a succeeded order step is backed by a fill of the order it registered, and its output context is computed from that fill |
| `CancellationEndings.EndingIsExact` | src/OperationChain/OperationChain.cpp:222-333 | over every run: completed exactly if every step succeeded (a run without steps may also be cancelled), failed exactly if one failed, cancelled exactly otherwise and only on request |
| `CancellationEndings.RequestStopsTheRun` | src/OperationChain/OperationChain.cpp:222-333 | from any moment on at which the request is there and a step is still to place its order, no order is accepted any more and the run ends cancelled |
| `CancellationEndings.CancelledOnRequest` | src/OperationChain/OperationChain.cpp:222-333 | nothing that leads to a cancelled record happens without a request |
| `CancellationEndings.CompletionIsNeverReplaced` | src/OperationChain/OperationCancellationCoordinator.cpp:110-128 | an operation that completed naturally never gets a cancelled or failed verdict, even if the request comes afterwards |
| `CancellationRecords.StepsShowTheirOrders` | src/OperationChain/OperationFactory.cpp:20-42 | over every run each step shows the identifiers of its own accepted order from the report on, each in its own field, and none before; the order is on the exchange the step was started with |
| `CancellationRecords.SucceededStepHandsOn` | src/OperationChain/OperationFactory.cpp:88-160 | the context a succeeded step hands on: its exchange, the asset it names and what its own fill brought in; a transfer changes the exchange only |
| `CancellationRecords.AsksWithItsInput` | src/OperationChain/OperationFactory.cpp:106-121 | an order is asked for with the context its step was started with |
| `CancellationRecords.RequestSpendsWhatIsHeld` | src/OperationChain/OperationFactory.cpp:106-200 | what is asked for spends all of what is held, on the exchange that holds it, on the right side of the right pair |
| `CancellationRecords.RecordsAreStamped` | src/OperationChain/OperationChain.cpp:57-193 | over every run the record changes by the executor only, one revision at a time, and every time in it is the time of the change that recorded it |
| `ChainShape.RevisionsByKind` | src/OperationChain/OperationChain.cpp:189-193 | the revisions that succeeded steps add, counted by kind of operation |
| `CancellationCoordinator.OperationCancellationCoordinator.RequestCancellation` | src/OperationChain/OperationCancellationCoordinator.cpp:30-37 | sets the request flag and nothing else |
| `CancellationCoordinator.OperationCancellationCoordinator.StartOperation` | src/OperationChain/OperationCancellationCoordinator.cpp:58-72 | a second active operation is refused; otherwise every per-operation field is reset and a new stop source made |
| `CancellationCoordinator.OperationCancellationCoordinator.RegisterAction` | src/OperationChain/OperationCancellationCoordinator.cpp:74-102 | an order is registered once, inside an operation that may place one, and refused otherwise |
| `CancellationCoordinator.OperationCancellationCoordinator.CompleteActionNaturally` | src/OperationChain/OperationCancellationCoordinator.cpp:110-128 | a fill withdraws the action and, once cancellation was requested, is the verdict |
| `CancellationCoordinator.OperationCancellationCoordinator.FinishOperation` | src/OperationChain/OperationCancellationCoordinator.cpp:130-139 | ends the operation and withdraws its action |
| `CancellationCoordinator.OperationCancellationCoordinator.FinishChain` | src/OperationChain/OperationCancellationCoordinator.cpp:141-151 | ends the chain for good |
| `CancellationCoordinator.OperationCancellationCoordinator.RecordConfirmedCancellation` | src/OperationChain/OperationCancellationCoordinator.cpp:153-168 | a confirmed cancellation never replaces a natural completion, and only then is there a source to stop |
| `CancellationCoordinator.OperationCancellationCoordinator.RecordNaturalCompletion` | src/OperationChain/OperationCancellationCoordinator.cpp:170-178 | a fill found by the canceller is the verdict |
| `CancellationCoordinator.OperationCancellationCoordinator.RecordCancellationFailure` | src/OperationChain/OperationCancellationCoordinator.cpp:180-195 | a failure never replaces a natural completion |
| `CancellationCoordinator.OperationCancellationCoordinator.EnterWorker` | src/OperationChain/OperationCancellationCoordinator.cpp:253-274 | the worker flag and the first look at the wait condition are one critical section |
| `CancellationCoordinator.OperationCancellationCoordinator.PollWorkerWait` | src/OperationChain/OperationCancellationCoordinator.cpp:257-274 | the worker leaves its wait with the live action, or with none when the chain is over or idle |
| `CancellationCoordinator.OperationCancellationCoordinator.PollResolution` | src/OperationChain/OperationCancellationCoordinator.cpp:305-313 | the executor's wait ends without a request, with a verdict, or when the worker is gone |
| `OperationChainObject.OperationChain.StartExecution` | src/OperationChain/OperationChain.cpp:57-66 | starts a pending run, refuses any other |
| `OperationChainObject.OperationChain.StartStep` | src/OperationChain/OperationChain.cpp:68-83 | starts a pending step of a running chain on the current context |
| `OperationChainObject.OperationChain.MarkStepAwaiting` | src/OperationChain/OperationChain.cpp:85-98 | the current running step awaits its order, with the accepted ids |
| `OperationChainObject.OperationChain.FinishStep` | src/OperationChain/OperationChain.cpp:100-117 | the current active step succeeds with the context as output |
| `OperationChainObject.OperationChain.FinishExecution` | src/OperationChain/OperationChain.cpp:119-129 | completes a running chain |
| `OperationChainObject.OperationChain.CancelPendingExecution` | src/OperationChain/OperationChain.cpp:131-141 | cancels a run that never started |
| `OperationChainObject.OperationChain.CancelExecutionBetweenSteps` | src/OperationChain/OperationChain.cpp:143-153 | cancels a running chain between steps |
| `OperationChainObject.OperationChain.CancelStepAndExecution` | src/OperationChain/OperationChain.cpp:155-171 | cancels the active step and the run |
| `OperationChainObject.OperationChain.FailExecution` | src/OperationChain/OperationChain.cpp:173-187 | fails the step and the run with one text |
| `ChainReachability.ReachesNext` | src/OperationChain/OperationChain.cpp:222-333 | every enabled step leads from a reachable state to a reachable state |
| `ChainReachability.ResolutionIsComing` | src/OperationChain/OperationCancellationCoordinator.cpp:305-313 | while the executor waits for a verdict the canceller always has a step to take |
| `ChainExecution.ChainRun.CancellerActs` | src/OperationChain/OperationCancellationCoordinator.cpp:253-303 | each critical section of the cancelling thread's code is one step of the interleaving machine |
| `ChainExecution.ChainRun.RunOperation` | src/OperationChain/OperationFactory.cpp:106-121 | check, place, register, report, wait, complete and update of one operation, with each of its exits |
| `ChainExecution.ChainRun.WaitForCancellationResolution` | src/OperationChain/OperationCancellationCoordinator.cpp:305-313 | the wait for a verdict always ends |
| `ChainExecution.ChainRun.HandleException` | src/OperationChain/OperationChain.cpp:257-319 | the handlers end the run by the verdict, each exit in its own way |
| `ChainExecution.ChainRun.RunLoop` | src/OperationChain/OperationChain.cpp:222-333 | the loop with its early exits walks the machine's positions to the end |
| `ChainExecution.ChainRun.Execute` | src/OperationChain/OperationChain.cpp:222-333 | execute ends the run completed exactly if every step succeeded, failed exactly if one failed, cancelled exactly otherwise and only on request; raises exactly for failed with the recorded text, leaves the exact revision, and is a run of the interleaving machine |
| `ServiceContracts.WaitsMeetContract` | src/OperationChain/OperationFactory.cpp:116-119 | the fills that the services' waits return are the fills the protocol assumes |
| `ServiceContracts.OrderVerdictIsHonest` | src/OperationChain/OperationCancellationCoordinator.cpp:206-227 | the canceller's conclusion from a single order's end: filled, cancelled, or a failure; a call that threw is a failure with its text |
| `ServiceContracts.OcoVerdictIsHonest` | src/OperationChain/OperationCancellationCoordinator.cpp:229-251 | the canceller's conclusion from an OCO's end: cancelled iff both children are, filled iff one is |
| `BybitOcoState.EarlyFillsAreNotLost` | src/DealService/bybit/BybitDealService.cpp:2321-2352 | fills buffered during a placement have the effect they would have had right after the group's creation |
| `BybitOcoState.FillCancelsSibling` | src/DealService/bybit/BybitDealService.cpp:2506-2545 | the order that a fill asks to cancel is the other leg of the filled leg's own group |
| `BybitOcoState.CreateKeepsConsistent` | src/DealService/bybit/BybitDealService.cpp:2170-2196 | creating a group keeps the four indexes consistent |
| `BybitOcoState.EndsKeepConsistent` | src/DealService/bybit/BybitDealService.cpp:2547-2568 | both ways of ending an operation on a group keep the indexes consistent |
| `BybitOcoRegistry.OcoRegistry.RegisterPlacement` | src/DealService/bybit/BybitDealService.cpp:103-121 | a duplicate placement is refused and disturbs nothing |
| `BybitOcoRegistry.OcoRegistry.ClearPlacement` | src/DealService/bybit/BybitDealService.cpp:500-508 | a failed placement takes back its links and their buffered fills |
| `BybitOcoRegistry.OcoRegistry.CreateGroup` | src/DealService/bybit/BybitDealService.cpp:2321-2344 | group creation and the pick of a buffered fill are one critical section |
| `BybitOcoRegistry.OcoRegistry.BeginFill` | src/DealService/bybit/BybitDealService.cpp:2506-2545 | a fill is buffered while its leg is being placed, ignored while the group closes, and otherwise closes the group |
| `BybitOcoRegistry.OcoRegistry.EndFill` | src/DealService/bybit/BybitDealService.cpp:2549-2570 | an accepted cancellation removes the group and both legs, a refused one reopens it |
| `BybitOcoRegistry.OcoRegistry.EndCancel` | src/DealService/bybit/BybitDealService.cpp:2380-2389 | a cancelled group leaves with both legs, if it is still there |
| `BybitOcoService.OcoService.ProcessOcoUpdate` | src/DealService/bybit/BybitDealService.cpp:2506-2571 | exactly one attempt to end the other leg, and only if the fill is the first of its group; when the exchange's recorded answers say that it ended the group is gone, otherwise the group is open again with the error, whatever else goes on meanwhile |
| `BybitOcoService.OcoService.PlaceOco` | src/DealService/bybit/BybitDealService.cpp:2287-2355 | a refused id disturbs nothing; a refused leg leaves no group and, if it is the second one, has the first one cancelled; a placed group carries its two orders, and a fill that came early is processed before the answer, whose failure is the answer; no task of the call stays behind |
| `BybitOcoService.OcoService.CancelOco` | src/DealService/bybit/BybitDealService.cpp:2357-2390 | an unknown group is an error that disturbs nothing; of a known one both legs are asked to end, and it leaves with both entries, without an error, exactly if the exchange's recorded answers ended both |
| `BybitOcoService.OcoService.OthersAct` | src/DealService/bybit/BybitDealService.cpp:2287-2571 | other operations leave an operation in flight in flight |
| `BybitExchange.Exchange.EndLeg` | src/DealService/bybit/BybitDealService.cpp:2213-2285 | a leg ended exactly if its cancellation was accepted or it was looked up after a refusal and found terminal |
| `BybitOcoTheorems.RegistryStaysConsistent` | src/DealService/bybit/BybitDealService.cpp:2287-2390 | over every order of concurrent placements, fills, answers and cancellations: groups and leg entries correspond exactly, placing legs are in no group, buffered fills are placing legs, and a group whose sibling was cancelled is gone |
| `BybitOcoRemoval.NoCancellationAfterSuccess` | src/DealService/bybit/BybitDealService.cpp:2506-2571 | no fill-triggered cancellation follows a successful one in the same group |
| `BybitOcoRemoval.RefusedCancellationCanBeRetried` | src/DealService/bybit/BybitDealService.cpp:2554-2562 | a refused cancellation leaves group and legs in place, open for the next fill to retry |
| `BybitOcoRemoval.CarefulRunsAreJustified` | src/DealService/bybit/BybitDealService.cpp:2547-2570 | a group leaves only when each leg is known filled, seen terminal or had its cancellation accepted, and at most one fill-triggered cancellation is in flight per group, as long as no id is placed again while an operation on it is in flight |
| `BybitOcoRemoval.PlacementSafetyIsExact` | src/DealService/bybit/BybitDealService.cpp:2380-2389 | that condition is exact: an accepted placement is safe for every continuation if and only if nothing is in flight on its id |
| `BybitOcoRemoval.ReuseIsReachable` | src/DealService/bybit/BybitDealService.cpp:2357-2390 | two cancellations of one group at once reach a state in which the next accepted placement of the id is unsafe |
| `BybitOcoFills.NoFillIsForgotten` | src/DealService/bybit/BybitDealService.cpp:2506-2571 | over every run, in every group of the registry: while it is closing, a cancellation of one of its own legs is in flight; once one of its legs was reported filled, early or late, such a cancellation is in flight, or the early fill is still to be processed, or the group shows the error of the last refused cancellation |
| `BybitOcoFills.ReportedFillStaysHandled` | src/DealService/bybit/BybitDealService.cpp:2485-2571 | the same from the fill on: whatever happens afterwards, as long as the filled leg's group is the same one, the fill is in one of those conditions |
| `BybitOcoFills.QuietRegistryIsSettled` | src/DealService/bybit/BybitDealService.cpp:2547-2570 | with no operation in flight no group is closing, and every group with a filled leg shows the error of a refused cancellation |
| `OrderStatus.StatusNames` | src/DealService/common/OrderStatusUtil.cpp:7-62 | which texts mean filled, cancelled or ended otherwise, on each exchange by its own; a missing text tells nothing and any other one means active |
| `PendingOrderState.TableStaysCounted` | src/DealService/binance/BinanceDealService.cpp:123-145 | a cell exists iff its order has live registrations, counts them exactly, and holds a report of its own order |
| `PendingOrderState.CellHoldsDecidingReport` | src/DealService/binance/BinanceDealService.cpp:154-186 | while an order stays registered its cell holds the first fill, else the first terminal report, else the latest report since the first registration |
| `PendingOrderState.NewRegistrationSeesNoOldReport` | src/DealService/bybit/BybitDealService.cpp:151-173 | a registration of an order nobody waited for sees only what is published after it |
| `PendingOrderState.MoreReportsNeverLower` | src/DealService/bybit/BybitDealService.cpp:181-211 | further reports never lower what is known; a fill is final and the first terminal report yields to a fill only |
| `PendingOrderState.CellNeverFalls` | src/DealService/bybit/BybitDealService.cpp:181-211 | the same of the table's cell between any two moments of one wait |
| `PendingOrdersObject.PendingOrders.Register` | src/DealService/binance/BinanceDealService.cpp:123-128 | a registration makes or counts the cell |
| `PendingOrdersObject.PendingOrders.Unregister` | src/DealService/binance/BinanceDealService.cpp:130-145 | the last registration takes the cell away, an earlier one only counts down |
| `PendingOrdersObject.PendingOrders.PublishOrderUpdate` | src/DealService/binance/BinanceDealService.cpp:154-186 | a report is stored by the rule of the cell, and only under its own key |
| `PendingOrdersObject.PendingOrders.Interfere` | src/DealService/binance/BinanceDealService.cpp:123-186 | whatever other threads do leaves our registrations and the fills we could see |
| `PendingOrdersObject.PendingOrders.Get` | src/DealService/binance/BinanceDealService.cpp:147-152 | a lookup under a live registration cannot fail |
| `PendingOrdersObject.PendingOrders.Await` | src/DealService/binance/BinanceDealService.cpp:368-379 | a completed wait on a connected stream has found what it waits for |
| `PendingOrdersObject.PendingOrders.PublishOrderWaitError` | src/DealService/bybit/BybitDealService.cpp:215-234 | an error is stored in a live cell and nowhere else |
| `OcoChildren.SlotsAreExact` | src/DealService/binance/BinanceDealService.cpp:620-634 | records of both children land in their own slots whichever comes first, if and only if the children differ in id or are one order |
| `OcoChildren.TerminalChildrenFillSlots` | src/DealService/binance/BinanceDealService.cpp:620-634 | what is built from two terminal records is terminal in both slots |
| `OcoChildren.SlotsCanBeConfused` | src/DealService/binance/BinanceDealService.cpp:620-634 | two children of different symbols with one order id: both slots get the take-profit child's record |
| `BinanceWaits.GetFilledOcoOrder` | src/DealService/binance/BinanceDealService.cpp:285-314 | an error exactly when both children are filled, none exactly when neither is, and otherwise the fill that the filled child's cell holds |
| `BybitWaits.GetFilledOcoOrder` | src/DealService/bybit/BybitDealService.cpp:333-362 | an error exactly when both children are filled, none exactly when neither is, and otherwise the fill that the filled child's cell holds |
| `WaitContracts.OnlyBybitHeedsErrors` | src/DealService/bybit/BybitDealService.cpp:520-538 | an error in a cell ends a wait of the Bybit service; a wait of the Binance service ends with the awaited ends only |
| `BybitWaits.AfterRefusedSibling` | src/DealService/bybit/BybitDealService.cpp:376-392 | when the other leg could not be cancelled, the waits of both legs that the registry knows are told, and what is left is asked to be cancelled |
| `WaitContracts.GetTerminalOcoInfo` | src/DealService/bybit/BybitDealService.cpp:434-452 | an answer only when both children are terminal, each in its slot |
| `BinanceWaits.WaitUntilOrderFilled` | src/DealService/binance/BinanceDealService.cpp:404-412 | returns exactly when the cell read last is filled, then that record, of the right order; an error only for a missing identifier, a requested stop, a setback that the call met, or an order that ended; registrations are released on every exit |
| `BinanceWaits.CancelOrderAndWaitUntilTerminal` | src/DealService/binance/BinanceDealService.cpp:433-510 | returns exactly when the cell read last is terminal, then that record, of the right order; an error only before the start, after a setback, or after a refusal that was followed by a lookup of that order which did not show its end; an order seen open is asked to be cancelled |
| `BinanceWaits.CompleteOcoWait` | src/DealService/binance/BinanceDealService.cpp:595-618 | returns exactly when the other child ended without a fill, with both records; otherwise a setback was met, or the other child was filled too and what is left asked to be cancelled |
| `BinanceWaits.ProcessOcoOrdersUpdate` | src/DealService/binance/BinanceDealService.cpp:673-709 | two fills and no end at all are errors; one fill is returned as the fill unless a setback or a second fill is met; a child that ended unfilled has the other one looked up |
| `BinanceWaits.WaitUntilOcoOrderFilled` | src/DealService/binance/BinanceDealService.cpp:716-733 | one filled child and the other one, terminal and not filled; an error only before the start, after a setback, or once a child was seen ended and what is left was asked to be cancelled |
| `BinanceWaits.CancelOcoAndWaitUntilTerminal` | src/DealService/binance/BinanceDealService.cpp:740-842 | both children terminal, each in its own slot; an error only before the start, after a setback, after two fills, or after a refusal that was followed by a lookup of both children which showed neither both ended nor one filled |
| `BinanceWaits.ProcessOcoCancellationUpdate` | src/DealService/binance/BinanceDealService.cpp:657-671 | an answer exactly when both cells are terminal |
| `BybitWaits.WaitUntilOrderFilled` | src/DealService/bybit/BybitDealService.cpp:566-574 | returns exactly when the cell read last is filled and holds no error; an error only for a missing identifier, a requested stop, a setback that the call met, or an order that ended |
| `BybitWaits.CancelOrderAndWaitUntilTerminal` | src/DealService/bybit/BybitDealService.cpp:600-678 | returns only a terminal record of the right order, and always one that is terminal without an error; an error only before the start, after a setback, or after a refusal that was followed by a lookup of that order; an order seen open is asked to be cancelled |
| `BybitWaits.CompleteOcoWait` | src/DealService/bybit/BybitDealService.cpp:376-416 | the fill is handed to the registry once; if it is the first of its group and the other leg was not cancelled, an error, with what is left asked to be cancelled; otherwise returns exactly when the other child ended without a fill and without an error |
| `BybitWaits.ProcessOcoOrdersUpdate` | src/DealService/bybit/BybitDealService.cpp:766-811 | two fills are an error, one fill is returned as the fill even beside an error, and without a fill an error in either cell is an error, and so are two cells without an end; a child that ended unfilled has the other one looked up |
| `BybitWaits.WaitUntilOcoOrderFilled` | src/DealService/bybit/BybitDealService.cpp:818-835 | one filled child and the other one, terminal and not filled; an error only before the start, after a setback, or once a child was seen ended and what is left was asked to be cancelled |
| `BybitWaits.CancelOcoAndWaitUntilTerminal` | src/DealService/bybit/BybitDealService.cpp:842-947 | both children terminal, each in its own slot; an error only before the start, after a setback, after two fills, or after a refusal that was followed by a lookup of both children which showed neither both ended nor one filled |
| `BybitWaits.ProcessOcoCancellationUpdate` | src/DealService/bybit/BybitDealService.cpp:454-474 | no answer with an error; without one, exactly when both cells are terminal |
| `OrderSessionTheorems.SessionsKeepTheirPromises` | src/UserInterface/graphical/models/OrderSessionModel.cpp:571-1158 | over every order of commands and callbacks the invariant holds; identities stay, revisions and progress never fall, settled stays settled, refused stays refused |
| `OrderSessionTheorems.NoEntryIsStuck` | src/UserInterface/graphical/models/OrderSessionModel.cpp:135-282 | an entry with an action is covered by exactly one task in flight, of that kind |
| `OrderSessionTheorems.NoEntryIsForgotten` | src/UserInterface/graphical/models/OrderSessionModel.cpp:571-712 | an entry being submitted, accepted or waited for has exactly one task that will move it on, with a current result |
| `OrderSessionTheorems.SettlementIsFinal` | src/UserInterface/graphical/models/OrderSessionModel.cpp:938-1000 | filled and terminal are closed, submission failure is absorbing, a filled entry shows an order reported filled, and a basic entry that ended otherwise its terminal report |
| `OrderSessionTheorems.EndReleases` | src/UserInterface/graphical/models/OrderSessionModel.cpp:783-915 | a completed action releases every covered entry, applies a current result and drops a stale one |
| `OrderSessionTheorems.FailureReleases` | src/UserInterface/graphical/models/OrderSessionModel.cpp:857-923 | a failed action releases every covered entry and changes nothing else |
| `OrderSessionTheorems.WaitResultsAreNeitherLostNorStale` | src/UserInterface/graphical/models/OrderSessionModel.cpp:714-748 | a wait's result is applied exactly while its entry still waits |
| `OrderSessionTheorems.MonitoringFailureSparesCancellations` | src/UserInterface/graphical/models/OrderSessionModel.cpp:763-781 | a monitoring failure keeps the revision of the action in flight if and only if that action is a cancellation |
| `OrderSessionTheorems.CancellationSurvivesMonitoringFailure` | src/UserInterface/graphical/models/OrderSessionModel.cpp:763-855 | so a cancellation of one order or of the whole pair that began from the entry's revision is applied in full, however late it comes back: every other event in between leaves the entry as the failure left it |
| `OrderSessionTheorems.SettledOcoHasEnded` | src/UserInterface/graphical/models/OrderSessionModel.cpp:968-1000 | over every run an OCO entry is settled only if both children are terminal; it is filled exactly if one child is filled, and otherwise terminal |
| `OrderSessionTheorems.ChildFollowsItsAnswer` | src/UserInterface/graphical/models/OrderSessionModel.cpp:1002-1017 | a child takes the answer given for its own order id, unless that is less final than what is known |
| `OrderSessionTheorems.OcoResultIsApplied` | src/UserInterface/graphical/models/OrderSessionModel.cpp:968-1000 | a current OCO result: each child follows its own answer, the entry settles exactly if both children are then terminal, and is filled exactly if one of them is |
| `OrderSessionTheorems.BasicResultIsApplied` | src/UserInterface/graphical/models/OrderSessionModel.cpp:938-966 | a current result of a basic order: the entry settles exactly if the record is terminal, filled exactly if it is a fill, and shows that record |
| `OrderSessionRequests.QueryFindsItsOrder` | src/UserInterface/graphical/models/OrderSessionModel.cpp:531-545 | a query names one identifier, not empty, of its own order |
| `OrderSessionRequests.RequestAsksForOwnOrders` | src/UserInterface/graphical/models/OrderSessionModel.cpp:402-447 | a refresh asks about the entry's own orders, each in its own slot, and is possible exactly for an identified entry |
| `OrderSessionRequests.AnswersReachTheirOrders` | src/UserInterface/graphical/models/OrderSessionModel.cpp:476-529 | each answer reaches the order it was given for, and only what was asked for is answered |
| `OrderSessionRequests.CancelIsAvailable` | src/UserInterface/graphical/models/OrderSessionModel.cpp:294-311 | over every run an entry can be cancelled exactly if it is accepted, not settled, identified and without an action |
| `OrderSessionRequests.CancelAllTakesThePair` | src/UserInterface/graphical/models/OrderSessionModel.cpp:245-335 | over every run all orders of a pair can be cancelled exactly if the pair is named and idle, and then exactly the entries on the same exchange with the same symbol are marked |
| `OrderSessionRequests.AcceptedOrderGoesOn` | src/UserInterface/graphical/models/OrderSessionModel.cpp:586-712 | an accepted entry settles at once, is waited for, or is shown as not monitored, each exactly under its own condition |
| `OrderSessionRequests.AcceptedOrderIsWaitedFor` | src/UserInterface/graphical/models/OrderSessionModel.cpp:604-712 | a monitorable order is waited for by a task at the entry's new revision |
| `OrderSessionRequests.AcceptanceIsKept` | src/UserInterface/graphical/models/OrderSessionModel.cpp:571-659 | what the exchange accepted is what the entry keeps |
| `OrderSessionRequests.OcoWaitFillsSlots` | src/UserInterface/graphical/models/OrderSessionModel.cpp:1077-1101 | the records of a finished wait go into the slots of the orders they are about, in either order, or monitoring has failed |
| `OrderSessionState.ApplyCancelAllAt` | src/UserInterface/graphical/models/OrderSessionModel.cpp:880-912 | in a cancel-all each entry takes the effect of its own result only |
| `OrderSessionState.StartPairActionAt` | src/UserInterface/graphical/models/OrderSessionModel.cpp:1035-1049 | a cancel-all marks exactly the entries it was asked for |
| `OrderSessionObject.SortedOrderIsUnique` | src/UserInterface/graphical/models/OrderSessionModel.cpp:1130-1141 | the display order leaves one arrangement of the entries only |
| `OrderSessionObject.OrderSessionModel.SortEntries` | src/UserInterface/graphical/models/OrderSessionModel.cpp:1130-1141 | sorting loses, repeats and changes no entry |
| `OrderSessionObject.OrderSessionModel.FindEntry` | src/UserInterface/graphical/models/OrderSessionModel.cpp:385-395 | finds the entry of an id, or none exactly if there is none |
| `OrderSessionObject.OrderSessionModel.CreateEntry` | src/UserInterface/graphical/models/OrderSessionModel.cpp:355-383 | a new entry gets an id never used before |
| `OrderSessionObject.OrderSessionModel.PublishEntryChange` | src/UserInterface/graphical/models/OrderSessionModel.cpp:1103-1115 | one new revision for the changed entry, and the order restored |
| `OrderSessionObject.OrderSessionModel.PublishEntryActionChange` | src/UserInterface/graphical/models/OrderSessionModel.cpp:1117-1128 | no new revision, and the order restored |
| `OrderSessionObject.OrderSessionModel.AcceptBasicOrder` | src/UserInterface/graphical/models/OrderSessionModel.cpp:571-584 | accepts a submitted basic order once |
| `OrderSessionObject.OrderSessionModel.AcceptOco` | src/UserInterface/graphical/models/OrderSessionModel.cpp:646-659 | accepts a submitted OCO once |
| `OrderSessionObject.OrderSessionModel.ContinueAfterBasicAcceptance` | src/UserInterface/graphical/models/OrderSessionModel.cpp:586-644 | filled at once, unmonitorable, or waited for at the new revision |
| `OrderSessionObject.OrderSessionModel.ContinueAfterOcoAcceptance` | src/UserInterface/graphical/models/OrderSessionModel.cpp:661-712 | unmonitorable, or waited for at the new revision |
| `OrderSessionObject.OrderSessionModel.FinishOrderWait` | src/UserInterface/graphical/models/OrderSessionModel.cpp:714-726 | a current wait fills the entry |
| `OrderSessionObject.OrderSessionModel.FinishOcoWait` | src/UserInterface/graphical/models/OrderSessionModel.cpp:728-748 | a current wait fills the entry if both children can be told |
| `OrderSessionObject.OrderSessionModel.FailSubmission` | src/UserInterface/graphical/models/OrderSessionModel.cpp:750-761 | refuses a submitted entry |
| `OrderSessionObject.OrderSessionModel.FailOrderWait` | src/UserInterface/graphical/models/OrderSessionModel.cpp:763-781 | monitoring failed, with the revision kept during a cancellation |
| `OrderSessionObject.OrderSessionModel.FinishEntryRefresh` | src/UserInterface/graphical/models/OrderSessionModel.cpp:783-824 | applies a current result, drops a stale one, ends the action |
| `OrderSessionObject.OrderSessionModel.FailEntryAction` | src/UserInterface/graphical/models/OrderSessionModel.cpp:857-878 | ends the action of that kind |
| `OrderSessionObject.OrderSessionModel.StartPairAction` | src/UserInterface/graphical/models/OrderSessionModel.cpp:1035-1049 | marks the requested entries |
| `OrderSessionObject.OrderSessionModel.FinishPairAction` | src/UserInterface/graphical/models/OrderSessionModel.cpp:1051-1075 | releases the requested entries |
| `OrderSessionObject.OrderSessionModel.FinishCancelAll` | src/UserInterface/graphical/models/OrderSessionModel.cpp:880-915 | applies each result to its own entry and releases all |
| `OrderSessionObject.OrderSessionModel.CreatePairRefreshRequests` | src/UserInterface/graphical/models/OrderSessionModel.cpp:449-474 | one request for each entry of the pair |
| `RunManagerState.ManagerKeepsItsPromises` | src/OperationChain/OperationChainRunManager.cpp:102-325 | over every sequence of starts, cancellations and updates, also past the end of both 64-bit counters: stored revisions and cancellation flags never go back |
| `RunManagerState.RunIdsAreNeverReused` | src/OperationChain/OperationChainRunManager.cpp:102-125 | a started run gets an id that no start, also no failed one, ever took |
| `RunManagerState.SequencesAreNeverReused` | src/OperationChain/OperationChainRunManager.cpp:302-321 | no update sequence is published twice |
| `RunManagerState.StartKeeps` | src/OperationChain/OperationChainRunManager.cpp:102-148 | a failed start leaves no run and no notification, and the id collision guard never fires |
| `RunManagerState.ModelHoldsNewest` | src/UserInterface/graphical/models/OperationChainRunModel.cpp:136-146 | whatever was delivered, in any order and however often, the model holds the newest snapshot of each run it was told of |
| `RunManagerState.NotificationsConverge` | src/UserInterface/graphical/models/OperationChainRunModel.cpp:136-146 | once every published snapshot was delivered at least once, the model equals the manager's map |
| `RunManagerState.ModelNeverGoesBack` | src/UserInterface/graphical/models/OperationChainRunModel.cpp:136-146 | a late snapshot never takes revision or cancellation flag back |
| `RunManagerState.RequestReachesTheRun` | src/OperationChain/OperationChainRunManager.cpp:196-228 | in every reachable manager a request for a live, unflagged run sets its flag and nothing else, tells it once, and publishes exactly one snapshot, which shows the flag; for an ended or flagged run it changes and publishes nothing |
| `RunManagerState.UpdateReachesTheRun` | src/OperationChain/OperationChainRunManager.cpp:302-325 | a newer record is stored and published with the flag as it was; any other changes nothing |
| `RunManagerState.StartStoresTheRun` | src/OperationChain/OperationChainRunManager.cpp:102-148 | a start succeeds exactly if nothing of it fails, and then the run is stored under the id in the answer, unflagged, and published |
| `RunManagerState.OneRequestPerRun` | src/OperationChain/OperationChainRunManager.cpp:196-228 | over every sequence of events a run is told to cancel exactly if it is flagged, and never twice |
| `RunManagerState.FlagIsShown` | src/UserInterface/graphical/models/OperationChainRunModel.cpp:136-146 | a model that was sent the flagged snapshot shows the flag, whatever else it is sent, before or after |
| `RunManagerObject.OperationChainRunManager.StartRun` | src/OperationChain/OperationChainRunManager.cpp:102-148 | the start with each of its failures |
| `RunManagerObject.OperationChainRunManager.RequestRunCancellation` | src/OperationChain/OperationChainRunManager.cpp:196-228 | an unknown run is an error, one that is flagged or has ended is left alone, any other is flagged under a new sequence, if there is one left |
| `RunManagerObject.OperationChainRunManager.UpdateRun` | src/OperationChain/OperationChainRunManager.cpp:302-325 | only a newer revision is stored |
| `RunManagerObject.OperationChainRunModel.UpdateRun` | src/UserInterface/graphical/models/OperationChainRunModel.cpp:136-146 | the model is always the merge of what was delivered |
| `RunManagerObject.OperationChainRunModel.GetRuns` | src/UserInterface/graphical/models/OperationChainRunModel.cpp:44-53 | every stored run exactly once |
| `SimulatedRun.FinishedStepFollows` | src/OperationChain/SimulatedOperationChainRun.cpp:94-107 | a simulated success keeps the shape of a real one and records what the plan says: operations, output contexts, accepted identifiers |
| `SimulatedRun.AwaitingStepFollows` | src/OperationChain/SimulatedOperationChainRun.cpp:109-118 | so does the awaiting step |
| `SimulatedRun.CancelledStepFollows` | src/OperationChain/SimulatedOperationChainRun.cpp:144-158 | and the cancelled one |
| `SimulatedRun.CreateSimulatedRun` | src/OperationChain/SimulatedOperationChainRun.cpp:15-47 | an unusable plan is refused with its own error |
| `SimulatedRun.SimulatedOperationChainRun.Execute` | src/OperationChain/SimulatedOperationChainRun.cpp:202-258 | ends cancelled unless the application stops; every published snapshot is well shaped, one revision after the other, and none is completed or failed; every delay that was slept through led on to its start, success or awaiting report, and after the request at most the report under way and the cancelled one are published |
| `SimulatedRun.SharedTransitionsFollow` | src/OperationChain/SimulatedOperationChainRun.cpp:68-142 | the transitions shared with a real run keep the plan's shape |
| `SimulatedRun.SimulatedOperationChainRun.RunStep` | src/OperationChain/SimulatedOperationChainRun.cpp:217-257 | one round: stopped, cancelled, or past a succeeded step, and never past the awaiting one |
| `Decimals.FormatByStepReadsBack` | src/DealService/common/DecimalConverter.cpp:81-89 | a multiple of a step reads back exactly if the step is not a whole number, the multiple is 0, or its last whole digit is not 0 |
| `Decimals.FractionalStepsReadBack` | src/DealService/common/DecimalConverter.cpp:81-89 | with a fractional step every multiple reads back |
| `Decimals.UnsteppedReadsBack` | src/DealService/common/DecimalConverter.cpp:61-89 | without a usable step every value reads back |
| `Decimals.WholeStepLosesZeros` | src/DealService/common/DecimalConverter.cpp:16-32 | one hundred by a step of one is printed as 1 |
| `Decimals.DecimalsOfStep` | src/DealService/common/DecimalConverter.cpp:44-59 | the places of a step are the fewest that write it exactly |
| `Decimals.WholeStepHasNoDecimals` | src/DealService/common/DecimalConverter.cpp:44-59 | a step shows decimals exactly if it is not a whole number |
| `Decimals.PrintedReadsBack` | src/DealService/common/DecimalConverter.cpp:66-79 | a number of whole places reads back exactly if a point is printed or no trailing zero of the whole number is at stake |
| `Decimals.RoundedIsNearest` | src/DealService/common/DecimalConverter.cpp:66-79 | no number of the printed places is nearer to the value, and of two equally near ones the even one is printed |
| `Decimals.TrimmingSigned` | src/DealService/common/DecimalConverter.cpp:16-32 | trimming prints the number with its trailing places removed, sign kept |
| `Decimals.TrimTrailingZeros` | src/DealService/common/DecimalConverter.cpp:16-32 | the loop computes the trimmed text |
| `SymbolRules.FloorAndCeiling` | src/DealService/common/DecimalConverter.cpp:91-109 | greatest multiple not above, least multiple not below |
| `SymbolRules.NearestTick` | src/DealService/common/SymbolRuleValidator.cpp:14-24 | the tick proposed for a positive price is a positive multiple, none is closer, ties go up |
| `SymbolRules.PriceCorrectionsRevalidate` | src/DealService/common/SymbolRuleValidator.cpp:53-72 | a correction is proposed exactly for a mismatch, is positive exactly for a positive price, and revalidates |
| `SymbolRules.QuantityCorrectionsRevalidate` | src/DealService/common/SymbolRuleValidator.cpp:31-51 | the proposed quantity is the next multiple above and revalidates |
| `SymbolRules.QuantityVerdictNamesTheRule` | src/DealService/common/SymbolRuleValidator.cpp:31-51 | each verdict on a quantity exactly under its own rule: the step first, then the minimum, then the maximum |
| `SymbolRules.PriceVerdictNamesTheRule` | src/DealService/common/SymbolRuleValidator.cpp:53-72 | each verdict on a price exactly under its own rule |
| `SymbolRules.ValidIff` | src/DealService/common/SymbolRuleValidator.cpp:31-72 | valid exactly for a multiple of a usable step within the limits that are set |
| `SymbolRules.ProposalsPrintFaithfully` | src/DealService/common/SymbolRuleValidator.cpp:14-24 | with a fractional tick the printed proposal reads back as the proposal |

## Left out

- Application shutdown (stop tokens of the threads, `requestStop`, `stopAndWait`): liveness and "no lost
  cancellation" are stated for runs without it; a wait interrupted by shutdown counts as one that threw.
- A missing coordinator or service (the null checks around registration): every modelled run has both.
- State-change observers and their exceptions: they are reported to and never influence a run.
- HTTP, WebSocket, signing, JSON, time synchronisation and stream reconnection: a call to the exchange returns
  any answer its contract allows, or throws.
- Message texts are abbreviated; which text wins is kept where a promise depends on it.
- A second cancellation request of one run is not a step of the protocol machine: the run manager never makes
  it (`RunManagerState.OneRequestPerRun`).
- Stop sources are numbered in the order of their creation, and a stop is the number in a set.
- Chain and session revisions are unbounded numbers; the source counts them in 64 bits. A chain's revision is
  bounded by its number of steps.
- Rounding, range and not-a-number cases of 128-bit decimals: decimals are whole numbers of 10^-34, division by
  a step is exact, and printing more digits than that rounds to nearest, ties to even.
- Decimals.ParseDecimal: does not model exponent notation or more than 34 fractional digits, which printing never produces.
- Received quantities are real numbers, because only comparison and assignment are used.
- BybitWaits.CompleteOcoWait: does not say that the other leg was cancelled when the fill is not the first of its group,
  because the wait then leaves the cancellation to the one that came first (see BybitOcoFills) or finds no group.
- BybitOcoService.OcoService.PlaceOco: does not model the validation of the request, generated group ids and their maximal
  length, because they end before the registry is touched.
- A wait that never wakes up is not told from one that is interrupted, because a wait has no time bound.
- Order errors and action messages of the session, and refused task starts of refresh and cancel commands, which
  change nothing; the entry's times matter for sorting only.
- Signals that the session emits are not followed into the widgets.
- `validateNotional`, balance checks, catalogs, definition loading and building, filters of the run list: each
  is correct by reading its own body.
- Sorting is the library's; the model sorts by insertion and proves that the result is the only sorted order.
