/** Waiting for orders: the shared table as an object that other threads keep changing, and the waits of
    both exchange services over it. */
module PendingOrdersObject {
  import opened Domain
  import opened OrderStatus
  import opened PendingOrderState

  // Choices of other threads and of the exchange: nothing is known about them.

  method AnyEvents() returns (events: seq<Event>) {
    events := *;
  }

  method AnyCount() returns (count: nat) {
    count := *;
  }

  method AnyAnswer() returns (answer: Result<OrderInfo>) {
    answer := *;
  }

  /** Two orders' cells. */
  datatype Cells = Cells(first: PendingWait, second: PendingWait)

  predicate AreTerminal(exchanger: Exchanger, cells: Cells) {
    IsTerminalReport(exchanger, cells.first.orderInfo) && IsTerminalReport(exchanger, cells.second.orderInfo)
  }

  function Fills(exchanger: Exchanger, cells: Cells): nat {
    (if IsFilledReport(exchanger, cells.first.orderInfo) then 1 else 0)
    + (if IsFilledReport(exchanger, cells.second.orderInfo) then 1 else 0)
  }

  /** What the call being followed met: `setbacks` are calls that failed, waits that were interrupted or lost the
      stream, requests to stop and errors read from a cell; `accepted` and `refused` the cancellations that the
      exchange accepted or refused; `lookups` the orders looked up; `opens` and `ends` the readings that showed an
      order that had not ended and one that had; `fills` the cells read as filled. */
  datatype Notes = Notes(setbacks: nat, accepted: nat, refused: nat, lookups: multiset<OrderKey>, opens: nat,
                         ends: nat, fills: nat)

  predicate Adds(before: Notes, after: Notes) {
    && before.setbacks <= after.setbacks && before.accepted <= after.accepted && before.refused <= after.refused
    && before.lookups <= after.lookups && before.opens <= after.opens && before.ends <= after.ends
    && before.fills <= after.fills
  }

  lemma KeyTakenBack(held: multiset<OrderKey>, key: OrderKey)
    ensures key in held + multiset{key} && held + multiset{key} - multiset{key} == held
  {
  }

  method AnyFailure() returns (failure: Option<string>) {
    failure := *;
  }

  /** The table of pending waits. `held` are the registrations of the call being followed, and `notes` what that
      call met; `live` are all registrations, `reported` every report and `errors` every error that was ever
      published, from whichever source. */
  class PendingOrders {
    const exchanger: Exchanger
    var waits: map<OrderKey, PendingWait>
    var held: multiset<OrderKey>
    ghost var live: multiset<OrderKey>
    ghost var reported: set<OrderInfo>
    ghost var errors: set<(OrderKey, string)>
    ghost var notes: Notes

    ghost function View(): System
      reads this
    {
      System(Table(waits), live)
    }

    ghost predicate Valid()
      reads this
    {
      Sound(View(), held, reported)
    }

    constructor (exchanger: Exchanger)
      ensures Valid() && this.exchanger == exchanger && View() == System(Table(map[]), multiset{}) && held == multiset{}
    {
      this.exchanger := exchanger;
      waits, held, live, reported := map[], multiset{}, multiset{}, {};
      errors, notes := {}, Notes(0, 0, 0, multiset{}, 0, 0, 0);
    }

    /** What steps of other threads leave alone: our registrations, and fills we could already see. */
    twostate predicate Undisturbed()
      reads this
    {
      && held == old(held) && old(reported) <= reported && old(errors) <= errors
      && FillsKept(exchanger, held, old(waits), waits)
    }

    twostate predicate NotesGrew()
      reads this
    {
      Adds(old(notes), notes)
    }

    twostate predicate LookedUp(key: OrderKey, count: nat)
      reads this
    {
      old(notes).lookups[key] + count <= notes.lookups[key]
    }

    twostate predicate SetBack()
      reads this
    {
      old(notes).setbacks < notes.setbacks
    }

    /** What two cells showed is noted. */
    twostate predicate ReadingIsNoted(first: PendingWait, second: PendingWait)
      reads this
    {
      && (first.error.Some? || second.error.Some? ==> SetBack())
      && (IsTerminalReport(exchanger, first.orderInfo) || IsTerminalReport(exchanger, second.orderInfo) ==>
            old(notes).ends < notes.ends)
      && old(notes).fills + Fills(exchanger, Cells(first, second)) <= notes.fills
    }

    twostate predicate SawOpen()
      reads this
    {
      old(notes).opens < notes.opens
    }

    ghost method NoteSetback(met: bool)
      modifies this`notes
      ensures notes == old(notes).(setbacks := old(notes).setbacks + if met then 1 else 0)
    {
      notes := notes.(setbacks := notes.setbacks + if met then 1 else 0);
    }

    ghost method NoteCancellation(refused: bool)
      modifies this`notes
      ensures NotesGrew() && notes.fills == old(notes).fills
      ensures if refused then old(notes).refused < notes.refused else old(notes).accepted < notes.accepted
    {
      notes := if refused then notes.(refused := notes.refused + 1) else notes.(accepted := notes.accepted + 1);
    }

    ghost method NoteReading(first: PendingWait, second: PendingWait)
      modifies this`notes
      ensures NotesGrew() && ReadingIsNoted(first, second)
      ensures SawOpen() <==> !AreTerminal(exchanger, Cells(first, second))
      ensures notes.fills == old(notes).fills + Fills(exchanger, Cells(first, second))
    {
      NoteSetback(first.error.Some? || second.error.Some?);
      if !AreTerminal(exchanger, Cells(first, second)) {
        notes := notes.(opens := notes.opens + 1);
      }
      if IsTerminalReport(exchanger, first.orderInfo) || IsTerminalReport(exchanger, second.orderInfo) {
        notes := notes.(ends := notes.ends + 1);
      }
      notes := notes.(fills := notes.fills + Fills(exchanger, Cells(first, second)));
    }

    method AddRegistration(key: OrderKey)
      requires Valid()
      modifies this`waits, this`live
      ensures Valid() && View() == Apply(exchanger, old(View()), Registering(key))
      ensures held == old(held) && reported == old(reported)
    {
      EventKeepsSound(exchanger, View(), Registering(key), held, reported, held);
      CountRegistration(key);
      live := live + multiset{key};
      assert View() == Apply(exchanger, old(View()), Registering(key));
    }

    /** A missing cell is made on the spot. */
    method CountRegistration(key: OrderKey)
      modifies this`waits
      ensures Table(waits) == old(Table(waits)).Register(key)
    {
      if key in waits {
        waits := waits[key := waits[key].(registrationCount := waits[key].registrationCount + 1)];
      } else {
        waits := waits[key := FIRST_WAIT];
      }
    }

    method DropRegistration(key: OrderKey)
      requires Valid() && held[key] < live[key]
      modifies this
      ensures Valid() && View() == Apply(exchanger, old(View()), Unregistering(key))
      ensures held == old(held) && reported == old(reported)
      ensures notes == old(notes) && errors == old(errors)
    {
      EventKeepsSound(exchanger, View(), Unregistering(key), held, reported, held);
      UncountRegistration(key);
      live := live - multiset{key};
      assert View() == Apply(exchanger, old(View()), Unregistering(key));
    }

    /** The last registration takes its cell away. */
    method UncountRegistration(key: OrderKey)
      modifies this`waits
      ensures Table(waits) == old(Table(waits)).Unregister(key)
    {
      if key !in waits {
        return;
      }
      if waits[key].registrationCount > 1 {
        waits := waits[key := waits[key].(registrationCount := waits[key].registrationCount - 1)];
        return;
      }
      waits := waits - {key};
    }

    method Register(key: OrderKey)
      requires Valid()
      modifies this
      ensures Valid() && View() == Apply(exchanger, old(View()), Registering(key))
      ensures held == old(held) + multiset{key} && reported == old(reported)
      ensures key in held && held - multiset{key} == old(held)
      ensures notes == old(notes) && errors == old(errors)
    {
      KeyTakenBack(held, key);
      EventKeepsSound(exchanger, View(), Registering(key), held, reported, held + multiset{key});
      AddRegistration(key);
      held := held + multiset{key};
    }

    method Unregister(key: OrderKey)
      requires Valid() && key in held
      modifies this
      ensures Valid() && View() == Apply(exchanger, old(View()), Unregistering(key))
      ensures held == old(held) - multiset{key} && reported == old(reported)
      ensures notes == old(notes) && errors == old(errors)
    {
      LessIsHeld(View(), held, reported, key);
      held := held - multiset{key};
      DropRegistration(key);
    }

    method PublishOrderUpdate(info: OrderInfo)
      requires Valid()
      modifies this
      ensures Valid() && View() == Apply(exchanger, old(View()), Publishing(info))
      ensures held == old(held) && reported == old(reported) + {info}
      ensures notes == old(notes) && errors == old(errors)
    {
      EventKeepsSound(exchanger, View(), Publishing(info), held, reported, held);
      StoreReport(info);
      reported := reported + {info};
      assert View() == Apply(exchanger, old(View()), Publishing(info));
    }

    /** A fill is kept, and another end yields to a fill only. */
    method StoreReport(info: OrderInfo)
      modifies this`waits
      ensures Table(waits) == old(Table(waits)).Publish(exchanger, info)
    {
      if info.symbol == "" || info.orderId == "" {
        return;
      }
      var key := KeyOf(info);
      if key !in waits {
        return;
      }
      var current := waits[key].orderInfo;
      if current.Some? {
        if IsFilled(exchanger, current.value.status) {
          return;
        }
        if IsTerminal(exchanger, current.value.status) && !IsFilled(exchanger, info.status) {
          return;
        }
      }
      waits := waits[key := waits[key].(orderInfo := Some(info))];
    }

    method PublishOrderWaitError(info: OrderInfo, error: string)
      requires Valid()
      modifies this
      ensures Valid() && View() == Apply(exchanger, old(View()), PublishingError(info, error))
      ensures held == old(held) && reported == old(reported)
      ensures notes == old(notes)
      ensures errors == old(errors) + if info.symbol == "" || info.orderId == "" then {} else {(KeyOf(info), error)}
    {
      EventKeepsSound(exchanger, View(), PublishingError(info, error), held, reported, held);
      if info.symbol == "" || info.orderId == "" {
        return;
      }
      errors := errors + {(KeyOf(info), error)};
      if KeyOf(info) !in waits {
        return;
      }
      waits := waits[KeyOf(info) := waits[KeyOf(info)].(error := Some(error))];
    }

    /** One step of another thread: it registers, unregisters what it registered, or publishes. */
    method OtherStep(event: Event)
      requires Valid()
      modifies this
      ensures Valid() && Undisturbed()
      ensures notes == old(notes)
    {
      match event {
        case Registering(key) => AddRegistration(key);
        case Unregistering(key) =>
          assert SoundAt(View(), held, reported, key);
          if key !in waits || held[key] >= waits[key].registrationCount {
            NothingIsUndisturbed();
            return;
          }
          DropRegistration(key);
        case Publishing(info) => PublishOrderUpdate(info);
        case PublishingError(info, error) => PublishOrderWaitError(info, error);
      }
      OthersKeepFills(exchanger, old(View()), event, held, old(reported), reported);
    }

    lemma NothingIsUndisturbed()
      requires Valid()
      ensures FillsKept(exchanger, held, waits, waits)
    {
      OthersKeepFills(exchanger, View(), Publishing(OrderInfo("", "", "", "", "", 0.0, 0.0, 0.0)), held, reported,
                      reported);
    }

    /** Any number of such steps. */
    method Interfere()
      requires Valid()
      modifies this
      ensures Valid() && Undisturbed()
      ensures notes == old(notes)
    {
      var events := AnyEvents();
      NothingIsUndisturbed();
      for i := 0 to |events|
        invariant Valid() && Undisturbed() && notes == old(notes)
      {
        OtherStep(events[i]);
      }
    }

    /** Reads one cell under the lock. The lookup cannot fail while the caller holds a registration. */
    method Get(key: OrderKey) returns (wait: PendingWait)
      requires Valid() && key in held
      modifies this
      ensures Valid() && Undisturbed() && NotesGrew()
      ensures key in waits && wait == waits[key] && IsOwnCell(wait, key, reported)
      ensures ReadingIsNoted(wait, wait) && (SawOpen() <==> !IsTerminalReport(exchanger, wait.orderInfo))
    {
      Interfere();
      HeldCell(View(), held, reported, key);
      wait := waits[key];
      NoteReading(wait, wait);
    }

    method GetBoth(first: OrderKey, second: OrderKey) returns (firstWait: PendingWait, secondWait: PendingWait)
      requires Valid() && first in held && second in held
      modifies this
      ensures Valid() && Undisturbed() && NotesGrew()
      ensures first in waits && firstWait == waits[first] && IsOwnCell(firstWait, first, reported)
      ensures second in waits && secondWait == waits[second] && IsOwnCell(secondWait, second, reported)
      ensures ReadingIsNoted(firstWait, secondWait)
      ensures SawOpen() <==> !AreTerminal(exchanger, Cells(firstWait, secondWait))
      ensures notes.fills == old(notes).fills + Fills(exchanger, Cells(firstWait, secondWait))
    {
      Interfere();
      HeldCell(View(), held, reported, first);
      HeldCell(View(), held, reported, second);
      firstWait, secondWait := waits[first], waits[second];
      NoteReading(firstWait, secondWait);
    }

    /** The flag with which the caller asks a call to stop. */
    method StopRequested() returns (requested: bool)
      modifies this`notes
      ensures NotesGrew() && (requested ==> SetBack())
    {
      requested := *;
      NoteSetback(requested);
    }

    /** What a waiting call looks for in two cells: an end of either of them or, if asked for, of both, or an
        error, which only Bybit's waits heed. */
    predicate IsAwaited(firstWait: PendingWait, secondWait: PendingWait, both: bool) {
      var firstTerminal := IsTerminalReport(exchanger, firstWait.orderInfo);
      var secondTerminal := IsTerminalReport(exchanger, secondWait.orderInfo);
      || (exchanger.Bybit? && (firstWait.error.Some? || secondWait.error.Some?))
      || (if both then firstTerminal && secondTerminal else firstTerminal || secondTerminal)
    }

    /** One look at the cells and at the stream. */
    method Look(first: OrderKey, second: OrderKey, both: bool)
      returns (ready: bool, connected: bool, firstWait: PendingWait, secondWait: PendingWait)
      requires Valid() && first in held && second in held
      modifies this
      ensures Valid() && Undisturbed() && NotesGrew()
      ensures first in waits && firstWait == waits[first] && IsOwnCell(firstWait, first, reported)
      ensures second in waits && secondWait == waits[second] && IsOwnCell(secondWait, second, reported)
      ensures ready <==> IsAwaited(firstWait, secondWait, both) || !connected
      ensures ReadingIsNoted(firstWait, secondWait) && (!connected ==> SetBack())
    {
      connected := *;
      firstWait, secondWait := GetBoth(first, second);
      ready := IsAwaited(firstWait, secondWait, both) || !connected;
      NoteSetback(!connected);
    }

    /** Sleeps on the table's condition until the cells show what is awaited, the stream is lost, or the wait
        is interrupted. */
    method Await(first: OrderKey, second: OrderKey, both: bool)
      returns (completed: bool, connected: bool, firstWait: PendingWait, secondWait: PendingWait)
      requires Valid() && first in held && second in held
      modifies this
      ensures Valid() && Undisturbed() && NotesGrew()
      ensures first in waits && firstWait == waits[first] && IsOwnCell(firstWait, first, reported)
      ensures second in waits && secondWait == waits[second] && IsOwnCell(secondWait, second, reported)
      ensures completed ==> IsAwaited(firstWait, secondWait, both) || SetBack()
      ensures completed && connected ==> IsAwaited(firstWait, secondWait, both)
      ensures ReadingIsNoted(firstWait, secondWait) && (!completed ==> SetBack())
    {
      var wakeups := AnyCount();
      completed, connected, firstWait, secondWait := Look(first, second, both);
      while !completed && wakeups > 0
        invariant Valid() && Undisturbed() && NotesGrew()
        invariant first in waits && firstWait == waits[first] && IsOwnCell(firstWait, first, reported)
        invariant second in waits && secondWait == waits[second] && IsOwnCell(secondWait, second, reported)
        invariant completed <==> IsAwaited(firstWait, secondWait, both) || !connected
        invariant ReadingIsNoted(firstWait, secondWait) && (!connected ==> SetBack())
      {
        completed, connected, firstWait, secondWait := Look(first, second, both);
        wakeups := wakeups - 1;
      }
      NoteSetback(!completed);
    }

    // ---- Calls to the exchange, during which anything may happen to the table ----

    /** Connecting the stream either works or throws. */
    method EnsureUserStreamConnected() returns (failure: Option<string>)
      requires Valid()
      modifies this
      ensures Valid() && Undisturbed() && NotesGrew() && !SawOpen()
      ensures failure.Some? ==> SetBack()
    {
      Interfere();
      failure := *;
      NoteSetback(failure.Some?);
    }

    /** Asks the exchange for an order and publishes the answer, whatever order the answer is about. */
    method ReconcileOrder(key: OrderKey) returns (failure: Option<string>)
      requires Valid()
      modifies this
      ensures Valid() && Undisturbed() && NotesGrew() && !SawOpen()
      ensures failure.Some? ==> SetBack()
      ensures failure.None? ==> LookedUp(key, 1)
    {
      Interfere();
      var answer := AnyAnswer();
      if answer.Err? {
        NoteSetback(true);
        return Some(answer.error);
      }
      notes := notes.(lookups := notes.lookups + multiset{key});
      PublishAnswer(answer.value);
      return None;
    }

    method PublishAnswer(info: OrderInfo)
      requires Valid()
      modifies this
      ensures Valid() && Undisturbed() && info in reported
      ensures notes == old(notes)
    {
      PublishOrderUpdate(info);
      OthersKeepFills(exchanger, old(View()), Publishing(info), held, old(reported), reported);
    }

    method CancelOrder() returns (answer: Result<OrderInfo>)
      requires Valid()
      modifies this
      ensures Valid() && Undisturbed() && NotesGrew()
      ensures if answer.Ok? then old(notes).accepted < notes.accepted else old(notes).refused < notes.refused
    {
      Interfere();
      answer := AnyAnswer();
      NoteCancellation(answer.Err?);
    }

    method CancelOco() returns (failure: Option<string>)
      requires Valid()
      modifies this
      ensures Valid() && Undisturbed() && NotesGrew()
      ensures notes.fills == old(notes).fills
      ensures if failure.None? then old(notes).accepted < notes.accepted else old(notes).refused < notes.refused
    {
      Interfere();
      failure := AnyFailure();
      NoteCancellation(failure.Some?);
    }

    method PrepareOrderSubscription(key: OrderKey) returns (failure: Option<string>)
      requires Valid()
      modifies this
      ensures Valid() && Undisturbed() && NotesGrew() && !SawOpen()
      ensures failure.Some? ==> SetBack()
      ensures failure.None? ==> LookedUp(key, 1)
    {
      failure := EnsureUserStreamConnected();
      if failure.Some? {
        return;
      }
      failure := ReconcileOrder(key);
    }

    method PrepareOcoSubscription(first: OrderKey, second: OrderKey) returns (failure: Option<string>)
      requires Valid()
      modifies this
      ensures Valid() && Undisturbed() && NotesGrew() && !SawOpen()
      ensures failure.Some? ==> SetBack()
      ensures failure.None? ==> LookedUp(first, 1) && LookedUp(second, 1)
    {
      failure := EnsureUserStreamConnected();
      if failure.Some? {
        return;
      }
      failure := ReconcileOrder(first);
      if failure.Some? {
        return;
      }
      failure := ReconcileOrder(second);
    }
  }
}
