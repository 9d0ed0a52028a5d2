/** The table of pending order waits that both exchange services keep: one counted cell per order that
    somebody waits for, holding the best report seen since its first registration. Each function of
    Table is one critical section of the table's mutex. */
module PendingOrderState {
  import opened Domain
  import opened OrderStatus

  datatype OrderKey = OrderKey(symbol: string, orderId: string)

  /** `error` is used by the Bybit service only. */
  datatype PendingWait = PendingWait(orderInfo: Option<OrderInfo>, error: Option<string>, registrationCount: nat)

  const FIRST_WAIT := PendingWait(None, None, 1)

  function KeyOf(info: OrderInfo): OrderKey {
    OrderKey(info.symbol, info.orderId)
  }

  predicate IsTerminalReport(exchanger: Exchanger, report: Option<OrderInfo>) {
    report.Some? && IsTerminal(exchanger, report.value.status)
  }

  predicate IsFilledReport(exchanger: Exchanger, report: Option<OrderInfo>) {
    report.Some? && IsFilled(exchanger, report.value.status)
  }

  datatype Table = Table(waits: map<OrderKey, PendingWait>)
  {
    function Register(key: OrderKey): Table {
      if key in waits then Table(waits[key := waits[key].(registrationCount := waits[key].registrationCount + 1)])
      else Table(waits[key := FIRST_WAIT])
    }

    function Unregister(key: OrderKey): Table {
      if key !in waits then this
      else if waits[key].registrationCount > 1 then
        Table(waits[key := waits[key].(registrationCount := waits[key].registrationCount - 1)])
      else Table(waits - {key})
    }

    function Publish(exchanger: Exchanger, info: OrderInfo): Table {
      if info.symbol == "" || info.orderId == "" || KeyOf(info) !in waits then this
      else
        var current := waits[KeyOf(info)].orderInfo;
        if IsFilledReport(exchanger, current) then this
        else if IsTerminalReport(exchanger, current) && !IsFilled(exchanger, info.status) then this
        else Table(waits[KeyOf(info) := waits[KeyOf(info)].(orderInfo := Some(info))])
    }

    function PublishError(info: OrderInfo, error: string): Table {
      if info.symbol == "" || info.orderId == "" || KeyOf(info) !in waits then this
      else Table(waits[KeyOf(info) := waits[KeyOf(info)].(error := Some(error))])
    }
  }

  // ---- Runs: the table beside the registrations that are alive ----

  datatype Event =
    | Registering(key: OrderKey)
    | Unregistering(key: OrderKey)
    | Publishing(info: OrderInfo)
    | PublishingError(info: OrderInfo, error: string)

  datatype System = System(table: Table, live: multiset<OrderKey>)

  function Apply(exchanger: Exchanger, s: System, event: Event): System {
    match event
    case Registering(key) => System(s.table.Register(key), s.live + multiset{key})
    case Unregistering(key) => System(s.table.Unregister(key), s.live - multiset{key})
    case Publishing(info) => s.(table := s.table.Publish(exchanger, info))
    case PublishingError(info, error) => s.(table := s.table.PublishError(info, error))
  }

  function Run(exchanger: Exchanger, s: System, events: seq<Event>): System
    decreases |events|
  {
    if events == [] then s else Run(exchanger, Apply(exchanger, s, events[0]), events[1..])
  }

  /** A cell exists exactly while its order has live registrations, counts them, and holds a report of
      its own order only. */
  predicate Counted(s: System) {
    && (forall key :: key in s.live ==> key in s.table.waits)
    && (forall key :: key in s.table.waits ==> key in s.live && s.table.waits[key].registrationCount == s.live[key])
    && (forall key :: key in s.table.waits && s.table.waits[key].orderInfo.Some? ==>
          KeyOf(s.table.waits[key].orderInfo.value) == key)
  }

  lemma {:induction false} TableStaysCounted(exchanger: Exchanger, s: System, events: seq<Event>)
    requires Counted(s)
    ensures Counted(Run(exchanger, s, events))
    decreases |events|
  {
    if events != [] {
      EventKeepsCounted(exchanger, s, events[0]);
      TableStaysCounted(exchanger, Apply(exchanger, s, events[0]), events[1..]);
    }
  }

  lemma EventKeepsCounted(exchanger: Exchanger, s: System, event: Event)
    requires Counted(s)
    ensures Counted(Apply(exchanger, s, event))
  {
    match event
    case Registering(key) => RegisteringKeepsCounted(exchanger, s, key);
    case Unregistering(key) => UnregisteringKeepsCounted(exchanger, s, key);
    case Publishing(_) =>
    case PublishingError(_, _) =>
  }

  lemma RegisteringKeepsCounted(exchanger: Exchanger, s: System, key: OrderKey)
    requires Counted(s)
    ensures Counted(Apply(exchanger, s, Registering(key)))
  {
    var n := Apply(exchanger, s, Registering(key));
    assert forall other :: n.live[other] == s.live[other] + if other == key then 1 else 0;
    forall other | other in n.table.waits
      ensures other in n.live && n.table.waits[other].registrationCount == n.live[other]
    {
    }
  }

  lemma UnregisteringKeepsCounted(exchanger: Exchanger, s: System, key: OrderKey)
    requires Counted(s)
    ensures Counted(Apply(exchanger, s, Unregistering(key)))
  {
    var n := Apply(exchanger, s, Unregistering(key));
    assert forall other :: n.live[other] == if other == key && key in s.live then s.live[other] - 1 else s.live[other];
    forall other | other in n.table.waits
      ensures other in n.live && n.table.waits[other].registrationCount == n.live[other]
    {
      assert other in s.table.waits;
    }
  }

  /** The table as seen by one caller, order by order: its cell exists exactly while the order has live
      registrations, the caller's among them, and holds a published report of that order. */
  ghost predicate Sound(s: System, held: multiset<OrderKey>, reported: set<OrderInfo>) {
    forall key :: SoundAt(s, held, reported, key)
  }

  ghost predicate SoundAt(s: System, held: multiset<OrderKey>, reported: set<OrderInfo>, key: OrderKey) {
    && held[key] <= s.live[key]
    && (key in s.live <==> key in s.table.waits)
    && (key in s.table.waits ==>
          s.table.waits[key].registrationCount == s.live[key] && IsOwnCell(s.table.waits[key], key, reported))
  }

  predicate IsOwnCell(wait: PendingWait, key: OrderKey, reported: set<OrderInfo>) {
    wait.orderInfo.Some? ==> KeyOf(wait.orderInfo.value) == key && wait.orderInfo.value in reported
  }

  /** What a caller may rely on for an order it has registered. */
  lemma HeldCell(s: System, held: multiset<OrderKey>, reported: set<OrderInfo>, key: OrderKey)
    requires Sound(s, held, reported) && key in held
    ensures key in s.live && key in s.table.waits && IsOwnCell(s.table.waits[key], key, reported)
  {
    assert SoundAt(s, held, reported, key);
  }

  /** A caller may give up one of its registrations. */
  lemma LessIsHeld(s: System, held: multiset<OrderKey>, reported: set<OrderInfo>, key: OrderKey)
    requires Sound(s, held, reported) && key in held
    ensures Sound(s, held - multiset{key}, reported) && (held - multiset{key})[key] < s.live[key]
  {
    assert SoundAt(s, held, reported, key);
    forall other
      ensures SoundAt(s, held - multiset{key}, reported, other)
    {
      assert SoundAt(s, held, reported, other);
    }
  }

  lemma SoundIsCounted(s: System, held: multiset<OrderKey>, reported: set<OrderInfo>)
    requires Sound(s, held, reported)
    ensures Counted(s)
  {
    forall key
      ensures key in s.live <==> key in s.table.waits
      ensures key in s.table.waits ==>
                s.table.waits[key].registrationCount == s.live[key] && IsOwnCell(s.table.waits[key], key, reported)
    {
      assert SoundAt(s, held, reported, key);
    }
  }

  /** An event keeps the table sound for a caller whose registrations stay live, once its report counts as
      published. */
  lemma EventKeepsSound(exchanger: Exchanger, s: System, event: Event, held: multiset<OrderKey>,
                        reported: set<OrderInfo>, heldAfter: multiset<OrderKey>)
    requires Sound(s, held, reported)
    requires forall key :: held[key] <= s.live[key] ==> heldAfter[key] <= Apply(exchanger, s, event).live[key]
    ensures Sound(Apply(exchanger, s, event), heldAfter, Reported(reported, event))
  {
    SoundIsCounted(s, held, reported);
    EventKeepsCounted(exchanger, s, event);
    var n := Apply(exchanger, s, event);
    forall key
      ensures SoundAt(n, heldAfter, Reported(reported, event), key)
    {
      assert SoundAt(s, held, reported, key);
      CellComesFrom(exchanger, s, event, key);
      hide Apply;
    }
  }

  function Reported(reported: set<OrderInfo>, event: Event): set<OrderInfo> {
    if event.Publishing? then reported + {event.info} else reported
  }

  lemma CellComesFrom(exchanger: Exchanger, s: System, event: Event, key: OrderKey)
    ensures var n := Apply(exchanger, s, event); key in n.table.waits && n.table.waits[key].orderInfo.Some? ==>
      || n.table.waits[key].orderInfo.value in Reported({}, event)
      || (key in s.table.waits && n.table.waits[key].orderInfo == s.table.waits[key].orderInfo)
  {
  }

  /** What the steps of other threads leave alone for the holder of some registrations. */
  predicate FillsKept(exchanger: Exchanger, held: multiset<OrderKey>, before: map<OrderKey, PendingWait>,
                      after: map<OrderKey, PendingWait>) {
    forall key :: key in held ==>
      && key in before && key in after
      && (IsFilledReport(exchanger, before[key].orderInfo) ==> after[key].orderInfo == before[key].orderInfo)
  }

  lemma OthersKeepFills(exchanger: Exchanger, s: System, event: Event, held: multiset<OrderKey>,
                        reported: set<OrderInfo>, reportedAfter: set<OrderInfo>)
    requires Sound(s, held, reported) && Sound(Apply(exchanger, s, event), held, reportedAfter)
    ensures FillsKept(exchanger, held, s.table.waits, s.table.waits)
    ensures FillsKept(exchanger, held, s.table.waits, Apply(exchanger, s, event).table.waits)
  {
    var n := Apply(exchanger, s, event);
    SoundIsCounted(s, held, reported);
    forall key | key in held
      ensures key in s.table.waits && key in n.table.waits
      ensures IsFilledReport(exchanger, s.table.waits[key].orderInfo) ==>
                n.table.waits[key].orderInfo == s.table.waits[key].orderInfo
    {
      HeldCell(s, held, reported, key);
      HeldCell(n, held, reportedAfter, key);
      FillsStay(exchanger, s, event, key);
    }
    hide Apply, Counted;
  }

  /** One step of another thread leaves every fill where it is as long as its cell lives. */
  lemma FillsStay(exchanger: Exchanger, s: System, event: Event, key: OrderKey)
    requires Counted(s) && key in s.live && key in Apply(exchanger, s, event).live
    ensures key in s.table.waits && key in Apply(exchanger, s, event).table.waits
    ensures IsFilledReport(exchanger, s.table.waits[key].orderInfo) ==>
              Apply(exchanger, s, event).table.waits[key].orderInfo == s.table.waits[key].orderInfo
  {
    CellFollowsRule(exchanger, key, s, event);
    EventKeepsCounted(exchanger, s, event);
    assert key in s.table.waits;
    hide Apply, Counted;
  }

  // ---- What a cell holds ----

  function FirstFilled(exchanger: Exchanger, reports: seq<OrderInfo>): Option<OrderInfo> {
    if reports == [] then None
    else if IsFilled(exchanger, reports[0].status) then Some(reports[0])
    else FirstFilled(exchanger, reports[1..])
  }

  function FirstTerminal(exchanger: Exchanger, reports: seq<OrderInfo>): Option<OrderInfo> {
    if reports == [] then None
    else if IsTerminal(exchanger, reports[0].status) then Some(reports[0])
    else FirstTerminal(exchanger, reports[1..])
  }

  /** The report that decides among all reports of an order: its first fill; without a fill its first
      terminal report; without either its latest report. */
  function Deciding(exchanger: Exchanger, reports: seq<OrderInfo>): Option<OrderInfo> {
    if FirstFilled(exchanger, reports).Some? then FirstFilled(exchanger, reports)
    else if FirstTerminal(exchanger, reports).Some? then FirstTerminal(exchanger, reports)
    else if reports == [] then None
    else Some(reports[|reports| - 1])
  }

  /** The reports of one order among the events. */
  function ReportsOf(key: OrderKey, events: seq<Event>): seq<OrderInfo> {
    if events == [] then []
    else if IsReportOf(key, events[0]) then
      [events[0].info] + ReportsOf(key, events[1..])
    else ReportsOf(key, events[1..])
  }

  predicate LiveThroughout(exchanger: Exchanger, key: OrderKey, s: System, events: seq<Event>)
    decreases |events|
  {
    key in s.live && (events == [] || LiveThroughout(exchanger, key, Apply(exchanger, s, events[0]), events[1..]))
  }

  lemma {:induction false} DecidingGrows(exchanger: Exchanger, reports: seq<OrderInfo>, report: OrderInfo)
    ensures FirstFilled(exchanger, reports + [report])
            == if FirstFilled(exchanger, reports).Some? then FirstFilled(exchanger, reports)
               else if IsFilled(exchanger, report.status) then Some(report) else None
    ensures FirstTerminal(exchanger, reports + [report])
            == if FirstTerminal(exchanger, reports).Some? then FirstTerminal(exchanger, reports)
               else if IsTerminal(exchanger, report.status) then Some(report) else None
    ensures FirstFilled(exchanger, reports).Some? ==> IsFilled(exchanger, FirstFilled(exchanger, reports).value.status)
    ensures FirstTerminal(exchanger, reports).Some? ==>
              IsTerminal(exchanger, FirstTerminal(exchanger, reports).value.status)
    ensures FirstFilled(exchanger, reports).Some? ==> FirstTerminal(exchanger, reports).Some?
    ensures FirstFilled(exchanger, reports).None? && FirstTerminal(exchanger, reports).Some? ==>
              !IsFilled(exchanger, FirstTerminal(exchanger, reports).value.status)
    ensures FirstTerminal(exchanger, reports).None? && reports != [] ==>
              !IsTerminal(exchanger, reports[|reports| - 1].status)
  {
    if reports != [] {
      assert (reports + [report])[1..] == reports[1..] + [report];
      DecidingGrows(exchanger, reports[1..], report);
    } else {
      assert (reports + [report])[1..] == [];
    }
  }

  /** One more report changes the deciding one by the rule the table applies to its cell. */
  lemma DecidingFollowsRule(exchanger: Exchanger, reports: seq<OrderInfo>, report: OrderInfo)
    ensures Deciding(exchanger, reports + [report]) == Stored(exchanger, Deciding(exchanger, reports), report)
  {
    DecidingGrows(exchanger, reports, report);
    hide FirstFilled, FirstTerminal;
  }

  /** While an order keeps at least one registration, its cell holds the deciding one of all reports that
      were published since the first registration, whatever else happens to the table. */
  lemma {:induction false} CellHoldsDecidingReport(exchanger: Exchanger, key: OrderKey, s: System, past: seq<OrderInfo>,
                                                   events: seq<Event>)
    requires Counted(s) && LiveThroughout(exchanger, key, s, events)
    requires s.table.waits[key].orderInfo == Deciding(exchanger, past)
    ensures var n := Run(exchanger, s, events);
      key in n.table.waits && n.table.waits[key].orderInfo == Deciding(exchanger, past + ReportsOf(key, events))
    decreases |events|
  {
    if events == [] {
      assert past + ReportsOf(key, events) == past;
    } else {
      var next := Apply(exchanger, s, events[0]);
      EventKeepsCounted(exchanger, s, events[0]);
      assert key in next.live;
      hide Counted, Deciding, Apply;
      CellFollowsReport(exchanger, key, s, past, events[0]);
      var seen := ReportsOf(key, [events[0]]);
      CellHoldsDecidingReport(exchanger, key, next, past + seen, events[1..]);
      ReportsSplit(key, events);
      hide ReportsOf;
      assert past + seen + ReportsOf(key, events[1..]) == past + (seen + ReportsOf(key, events[1..]));
    }
  }

  lemma ReportsSplit(key: OrderKey, events: seq<Event>)
    requires events != []
    ensures ReportsOf(key, events) == ReportsOf(key, [events[0]]) + ReportsOf(key, events[1..])
  {
    assert ReportsOf(key, [events[0]][1..]) == [];
  }

  predicate IsReportOf(key: OrderKey, event: Event) {
    event.Publishing? && KeyOf(event.info) == key && key.symbol != "" && key.orderId != ""
  }

  /** The rule by which a report replaces the stored one. */
  function Stored(exchanger: Exchanger, before: Option<OrderInfo>, report: OrderInfo): Option<OrderInfo> {
    if IsFilledReport(exchanger, before) || (IsTerminalReport(exchanger, before) && !IsFilled(exchanger, report.status))
    then before else Some(report)
  }

  lemma CellFollowsRule(exchanger: Exchanger, key: OrderKey, s: System, event: Event)
    requires Counted(s) && key in s.live && key in Apply(exchanger, s, event).live
    ensures var n := Apply(exchanger, s, event);
      && key in n.table.waits
      && n.table.waits[key].orderInfo
         == if IsReportOf(key, event) then Stored(exchanger, s.table.waits[key].orderInfo, event.info)
                                         else s.table.waits[key].orderInfo
  {
    hide IsFilled, IsTerminal;
    EventKeepsCounted(exchanger, s, event);
    assert key in s.table.waits && key in Apply(exchanger, s, event).table.waits;
    hide Counted;
  }

  lemma CellFollowsReport(exchanger: Exchanger, key: OrderKey, s: System, past: seq<OrderInfo>, event: Event)
    requires Counted(s) && key in s.live && key in Apply(exchanger, s, event).live
    requires s.table.waits[key].orderInfo == Deciding(exchanger, past)
    ensures var n := Apply(exchanger, s, event);
      && key in n.table.waits
      && n.table.waits[key].orderInfo == Deciding(exchanger, past + ReportsOf(key, [event]))
  {
    CellFollowsRule(exchanger, key, s, event);
    assert ReportsOf(key, [event][1..]) == [];
    var seen := ReportsOf(key, [event]);
    if IsReportOf(key, event) {
      DecidingFollowsRule(exchanger, past, event.info);
      assert seen == [event.info];
    } else {
      assert past + seen == past;
    }
    hide Deciding, ReportsOf, Apply, Counted, Stored;
  }

  /** A registration of an order nobody waited for starts from nothing: what its cell ever holds was
      published after it. */
  lemma NewRegistrationSeesNoOldReport(exchanger: Exchanger, key: OrderKey, s: System, events: seq<Event>)
    requires Counted(s) && key !in s.live
    requires LiveThroughout(exchanger, key, Apply(exchanger, s, Registering(key)), events)
    ensures var n := Run(exchanger, Apply(exchanger, s, Registering(key)), events);
      key in n.table.waits && n.table.waits[key].orderInfo == Deciding(exchanger, ReportsOf(key, events))
  {
    EventKeepsCounted(exchanger, s, Registering(key));
    CellHoldsDecidingReport(exchanger, key, Apply(exchanger, s, Registering(key)), [], events);
    assert [] + ReportsOf(key, events) == ReportsOf(key, events);
  }

  /** More reports never lower what is known of an order; a fill is never replaced, and the first
      terminal report only by a fill. */
  lemma {:induction false} MoreReportsNeverLower(exchanger: Exchanger, reports: seq<OrderInfo>, more: seq<OrderInfo>)
    ensures Rank(exchanger, Deciding(exchanger, reports)) <= Rank(exchanger, Deciding(exchanger, reports + more))
    ensures IsFilledReport(exchanger, Deciding(exchanger, reports)) ==>
              Deciding(exchanger, reports + more) == Deciding(exchanger, reports)
    ensures IsTerminalReport(exchanger, Deciding(exchanger, reports)) ==>
              Deciding(exchanger, reports + more) == Deciding(exchanger, reports)
              || IsFilledReport(exchanger, Deciding(exchanger, reports + more))
    decreases |more|
  {
    if more == [] {
      assert reports + more == reports;
    } else {
      DecidingFollowsRule(exchanger, reports, more[0]);
      MoreReportsNeverLower(exchanger, reports + [more[0]], more[1..]);
      assert reports + [more[0]] + more[1..] == reports + more;
    }
  }

  /** The same over the table itself, between any two moments of one wait. */
  lemma CellNeverFalls(exchanger: Exchanger, key: OrderKey, s: System, events: seq<Event>)
    requires Counted(s) && LiveThroughout(exchanger, key, s, events)
    ensures var before := s.table.waits[key].orderInfo; var n := Run(exchanger, s, events);
      && key in n.table.waits
      && Rank(exchanger, before) <= Rank(exchanger, n.table.waits[key].orderInfo)
      && (IsFilledReport(exchanger, before) ==> n.table.waits[key].orderInfo == before)
      && (IsTerminalReport(exchanger, before) ==>
            n.table.waits[key].orderInfo == before || IsFilledReport(exchanger, n.table.waits[key].orderInfo))
  {
    var past := match s.table.waits[key].orderInfo { case Some(info) => [info] case None => [] };
    if past != [] {
      DecidingFollowsRule(exchanger, [], past[0]);
      assert [] + past == past;
    }
    assert Deciding(exchanger, past) == s.table.waits[key].orderInfo;
    CellHoldsDecidingReport(exchanger, key, s, past, events);
    MoreReportsNeverLower(exchanger, past, ReportsOf(key, events));
  }
}
