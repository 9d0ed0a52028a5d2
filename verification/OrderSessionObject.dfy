/** The session object itself: entries kept in a vector that every callback edits in place and sorts again. */
module OrderSessionObject {
  import opened Domain
  import opened OrderStatus
  import S = OrderSessionState
  import opened OrderSessionState
  import opened OrderSessionProtocol

  datatype Row = Row(entry: Entry, updatedAtMs: int)

  /** Most recently updated first, and of two updated together the later entry first. */
  predicate Before(a: Row, b: Row) {
    a.updatedAtMs > b.updatedAtMs || (a.updatedAtMs == b.updatedAtMs && a.entry.id > b.entry.id)
  }

  predicate Sorted(rows: seq<Row>) {
    forall i, j :: 0 <= i < j < |rows| ==> Before(rows[i], rows[j])
  }

  predicate Unique(rows: seq<Row>) {
    forall i, j :: 0 <= i < j < |rows| ==> rows[i].entry.id != rows[j].entry.id
  }

  /** The rows as entries by id. */
  function EntriesOf(rows: seq<Row>): Entries
    requires Unique(rows)
  {
    map i | 0 <= i < |rows| :: rows[i].entry.id := rows[i].entry
  }

  predicate SameRows(a: seq<Row>, b: seq<Row>) {
    (forall row :: row in a ==> row in b) && (forall row :: row in b ==> row in a)
  }

  lemma SameRowsSameEntries(a: seq<Row>, b: seq<Row>)
    requires Unique(a) && Unique(b) && SameRows(a, b)
    ensures EntriesOf(a) == EntriesOf(b)
  {
    forall id | id in EntriesOf(a)
      ensures id in EntriesOf(b) && EntriesOf(b)[id] == EntriesOf(a)[id]
    {
      var i :| 0 <= i < |a| && a[i].entry.id == id;
      assert a[i] in b;
    }
    forall id | id in EntriesOf(b)
      ensures id in EntriesOf(a)
    {
      var i :| 0 <= i < |b| && b[i].entry.id == id;
      assert b[i] in a;
    }
  }

  lemma NoRows(a: seq<Row>, b: seq<Row>)
    requires SameRows(a, b)
    ensures a == [] ==> b == []
  {
    assert b != [] ==> b[0] in b;
  }

  /** A sequence of distinct rows has one sorted order only. */
  lemma {:induction false} SortedOrderIsUnique(a: seq<Row>, b: seq<Row>)
    requires Sorted(a) && Sorted(b) && SameRows(a, b)
    ensures a == b
  {
    NoRows(a, b);
    NoRows(b, a);
    if a != [] && b != [] {
      assert a[0] in b && b[0] in a;
      var i :| 0 <= i < |b| && b[i] == a[0];
      var j :| 0 <= j < |a| && a[j] == b[0];
      assert a[0] == b[0];
      forall row | row in a[1..]
        ensures row in b[1..]
      {
        var k :| 1 <= k < |a| && a[k] == row;
        assert Before(a[0], row) && row in b;
        var l :| 0 <= l < |b| && b[l] == row;
        assert b[1..][l - 1] == row;
      }
      forall row | row in b[1..]
        ensures row in a[1..]
      {
        var k :| 1 <= k < |b| && b[k] == row;
        assert Before(b[0], row) && row in a;
        var l :| 0 <= l < |a| && a[l] == row;
        assert a[1..][l - 1] == row;
      }
      SortedOrderIsUnique(a[1..], b[1..]);
      assert a == [a[0]] + a[1..] && b == [b[0]] + b[1..];
    }
  }

  method Now() returns (now: int) {
    now := *;
  }

  /** Where a row belongs among sorted ones. */
  method InsertionPoint(rows: seq<Row>, row: Row) returns (k: nat)
    requires Sorted(rows)
    requires forall i :: 0 <= i < |rows| ==> rows[i].entry.id != row.entry.id
    ensures k <= |rows|
    ensures Sorted(rows[..k] + [row] + rows[k..])
  {
    k := 0;
    while k < |rows| && Before(rows[k], row)
      invariant k <= |rows|
      invariant forall i :: 0 <= i < k ==> Before(rows[i], row)
    {
      k := k + 1;
    }
  }

  lemma EntriesOfAt(rows: seq<Row>, i: nat)
    requires Unique(rows) && i < |rows|
    ensures rows[i].entry.id in EntriesOf(rows) && EntriesOf(rows)[rows[i].entry.id] == rows[i].entry
  {
  }

  lemma EntriesOfUpdate(rows: seq<Row>, i: nat, row: Row)
    requires Unique(rows) && i < |rows| && row.entry.id == rows[i].entry.id
    ensures Unique(rows[i := row])
    ensures EntriesOf(rows[i := row]) == EntriesOf(rows)[row.entry.id := row.entry]
  {
    var after := rows[i := row];
    assert forall j :: 0 <= j < |rows| ==> after[j].entry.id == rows[j].entry.id;
    var expected := EntriesOf(rows)[row.entry.id := row.entry];
    forall j | 0 <= j < |rows|
      ensures after[j].entry.id in expected && after[j].entry.id in EntriesOf(after)
      ensures EntriesOf(after)[after[j].entry.id] == expected[after[j].entry.id]
    {
      EntriesOfAt(rows, j);
      EntriesOfAt(after, j);
    }
    EntriesOfAt(rows, i);
    hide EntriesOf;
    SameKeysSameMap(rows, after, expected);
  }

  lemma SameKeysSameMap(rows: seq<Row>, after: seq<Row>, expected: Entries)
    requires Unique(rows) && Unique(after) && |rows| == |after|
    requires forall j :: 0 <= j < |rows| ==> after[j].entry.id == rows[j].entry.id
    requires expected.Keys == EntriesOf(rows).Keys
    requires forall j :: 0 <= j < |after| ==>
               after[j].entry.id in expected && after[j].entry.id in EntriesOf(after)
               && EntriesOf(after)[after[j].entry.id] == expected[after[j].entry.id]
    ensures EntriesOf(after) == expected
  {
    forall id | id in expected
      ensures id in EntriesOf(after)
    {
      var j :| 0 <= j < |rows| && rows[j].entry.id == id;
      assert after[j].entry.id == id;
    }
    forall id | id in EntriesOf(after)
      ensures id in expected && EntriesOf(after)[id] == expected[id]
    {
      var j :| 0 <= j < |after| && after[j].entry.id == id;
    }
  }

  lemma EntriesOfAppend(rows: seq<Row>, row: Row)
    requires Unique(rows) && row.entry.id !in EntriesOf(rows)
    ensures Unique(rows + [row])
    ensures EntriesOf(rows + [row]) == EntriesOf(rows)[row.entry.id := row.entry]
  {
    var after := rows + [row];
    forall i | 0 <= i < |rows|
      ensures after[i].entry.id != row.entry.id
    {
      EntriesOfAt(rows, i);
    }
    forall id | id in EntriesOf(rows)
      ensures id in EntriesOf(after)
    {
      var j :| 0 <= j < |rows| && rows[j].entry.id == id;
      assert after[j].entry.id == id;
    }
    assert after[|rows|] == row;
    EntriesOfAt(after, |rows|);
    forall id | id in EntriesOf(after)
      ensures id in EntriesOf(rows)[row.entry.id := row.entry]
      ensures EntriesOf(after)[id] == EntriesOf(rows)[row.entry.id := row.entry][id]
    {
      var j :| 0 <= j < |after| && after[j].entry.id == id;
      if j < |rows| {
        assert after[j] == rows[j];
      }
    }
  }

  class OrderSessionModel {
    var entries: seq<Row>
    var nextEntryId: EntryId

    ghost predicate HasIds()
      reads this
    {
      Unique(entries) && forall i :: 0 <= i < |entries| ==> entries[i].entry.id < nextEntryId
    }

    /** Ids are unique and older than the next one, and the rows are in display order. */
    ghost predicate Valid()
      reads this
    {
      HasIds() && Sorted(entries)
    }

    ghost function View(): Entries
      requires HasIds()
      reads this
    {
      EntriesOf(entries)
    }

    constructor ()
      ensures Valid() && View() == map[] && nextEntryId == 1
    {
      entries, nextEntryId := [], 1;
    }

    /** Sorting loses, repeats and changes no entry. */
    method SortEntries()
      requires HasIds()
      modifies this`entries
      ensures Valid() && SameRows(entries, old(entries)) && View() == old(View())
    {
      var sorted: seq<Row> := [];
      for i := 0 to |entries|
        invariant entries == old(entries)
        invariant Sorted(sorted) && SameRows(sorted, entries[..i])
      {
        forall j | 0 <= j < |sorted|
          ensures sorted[j].entry.id != entries[i].entry.id
        {
          assert sorted[j] in entries[..i];
        }
        var k := InsertionPoint(sorted, entries[i]);
        ghost var before := sorted;
        sorted := sorted[..k] + [entries[i]] + sorted[k..];
        assert before == before[..k] + before[k..];
        assert forall row :: row in sorted <==> row in before || row == entries[i];
        assert entries[..i + 1] == entries[..i] + [entries[i]];
      }
      assert entries[..|entries|] == entries;
      SortedIsUnique(sorted, entries);
      SameRowsSameEntries(sorted, entries);
      assert forall j :: 0 <= j < |sorted| ==> sorted[j] in entries;
      entries := sorted;
    }

    lemma SortedIsUnique(sorted: seq<Row>, rows: seq<Row>)
      requires Sorted(sorted) && SameRows(sorted, rows) && Unique(rows)
      ensures Unique(sorted)
    {
      forall i, j | 0 <= i < j < |sorted|
        ensures sorted[i].entry.id != sorted[j].entry.id
      {
        assert Before(sorted[i], sorted[j]);
        assert sorted[i] in rows && sorted[j] in rows;
        var k :| 0 <= k < |rows| && rows[k] == sorted[i];
        var l :| 0 <= l < |rows| && rows[l] == sorted[j];
        assert k != l;
      }
    }

    /** The position of an entry, or the end of the vector. */
    method FindEntry(id: EntryId) returns (i: nat)
      requires HasIds()
      ensures i <= |entries|
      ensures i < |entries| ==> entries[i].entry.id == id && id in View() && View()[id] == entries[i].entry
      ensures i == |entries| ==> id !in View()
    {
      i := 0;
      while i < |entries| && entries[i].entry.id != id
        invariant i <= |entries|
        invariant forall j :: 0 <= j < i ==> entries[j].entry.id != id
      {
        i := i + 1;
      }
      if i < |entries| {
        EntriesOfAt(entries, i);
      }
    }

    /** Writing through the pointer that a lookup returned. */
    method SetEntry(i: nat, entry: Entry)
      requires HasIds() && i < |entries| && entry.id == entries[i].entry.id
      modifies this`entries
      ensures HasIds() && View() == old(View())[entry.id := entry]
      ensures |entries| == |old(entries)|
    {
      EntriesOfUpdate(entries, i, entries[i].(entry := entry));
      entries := entries[i := entries[i].(entry := entry)];
    }

    method PublishEntryChange(id: EntryId)
      requires HasIds()
      modifies this`entries
      ensures HasIds() && View() == if id in old(View()) then old(View())[id := Publish(old(View())[id])]
                                    else old(View())
      ensures old(Sorted(entries)) || id in old(View()) ==> Valid()
    {
      var i := FindEntry(id);
      if i == |entries| {
        return;
      }
      var now := Now();
      var row := Row(Publish(entries[i].entry), now);
      EntriesOfUpdate(entries, i, row);
      entries := entries[i := row];
      SortEntries();
    }

    /** Writing through the pointer and publishing the change. */
    method ChangeEntry(i: nat, entry: Entry)
      requires Valid() && i < |entries| && entry.id == entries[i].entry.id
      modifies this`entries
      ensures Valid() && View() == old(View())[entry.id := Publish(entry)]
    {
      ghost var before := View();
      WrittenTwice(before, entry.id, entry, Publish(entry));
      SetEntry(i, entry);
      ghost var written := View();
      assert written == before[entry.id := entry];
      PublishEntryChange(entry.id);
      assert View() == written[entry.id := Publish(entry)];
    }

    lemma WrittenTwice(es: Entries, id: EntryId, first: Entry, second: Entry)
      ensures var written: Entries := es[id := first]; written[id := second] == es[id := second]
    {
    }

    method PublishEntryActionChange(id: EntryId)
      requires HasIds()
      modifies this`entries
      ensures HasIds() && View() == old(View())
      ensures old(Sorted(entries)) || id in old(View()) ==> Valid()
    {
      var i := FindEntry(id);
      if i == |entries| {
        return;
      }
      var now := Now();
      var row := entries[i].(updatedAtMs := now);
      EntriesOfUpdate(entries, i, row);
      assert EntriesOf(entries)[row.entry.id := row.entry] == EntriesOf(entries);
      entries := entries[i := row];
      SortEntries();
    }

    method CreateEntry(kind: EntryType, exchanger: Exchanger, symbol: string) returns (id: EntryId)
      requires Valid()
      modifies this
      ensures Valid() && id == old(nextEntryId) && nextEntryId == id + 1 && id !in old(View())
      ensures View() == old(View())[id := NewEntry(id, kind, exchanger, symbol)]
    {
      id := nextEntryId;
      PushBack(DraftEntry(id, kind, exchanger, symbol));
      PublishEntryChange(id);
    }

    method PushBack(entry: Entry)
      requires HasIds() && entry.id == nextEntryId
      modifies this
      ensures HasIds() && nextEntryId == old(nextEntryId) + 1
      ensures entry.id !in old(View()) && View() == old(View())[entry.id := entry]
    {
      var now := Now();
      assert forall id :: id in View() ==> id < nextEntryId;
      EntriesOfAppend(entries, Row(entry, now));
      nextEntryId := nextEntryId + 1;
      entries := entries + [Row(entry, now)];
    }

    // ---- Callbacks ----

    method AcceptBasicOrder(id: EntryId, order: OrderInfo)
      requires Valid()
      modifies this`entries
      ensures Valid() && View() == S.AcceptBasicOrder(old(View()), id, order)
    {
      var i := FindEntry(id);
      if i == |entries| || entries[i].entry.status != Submitting || entries[i].entry.kind != BasicOrder {
        return;
      }
      ChangeEntry(i, entries[i].entry.(acceptedOrder := Some(order), status := Accepted));
    }

    method AcceptOco(id: EntryId, oco: OcoInfo)
      requires Valid()
      modifies this`entries
      ensures Valid() && View() == S.AcceptOco(old(View()), id, oco)
    {
      var i := FindEntry(id);
      if i == |entries| || entries[i].entry.status != Submitting || entries[i].entry.kind != OcoGroup {
        return;
      }
      ChangeEntry(i, entries[i].entry.(acceptedOco := Some(oco), status := Accepted));
    }

    method FailSubmission(id: EntryId)
      requires Valid()
      modifies this`entries
      ensures Valid() && View() == S.FailSubmission(old(View()), id)
    {
      var i := FindEntry(id);
      if i == |entries| || entries[i].entry.status != Submitting {
        return;
      }
      ChangeEntry(i, entries[i].entry.(status := SubmissionFailed));
    }

    /** Moves an accepted basic order on; the result says whether a wait is to be started, and at which
        revision. */
    method ContinueAfterBasicAcceptance(id: EntryId) returns (wait: Option<nat>)
      requires Valid()
      modifies this`entries
      ensures Valid() && View() == S.ContinueAfterBasicAcceptance(old(View()), id)
      ensures wait.Some? <==> id in View() && View()[id].status == Waiting && old(View())[id].status == Accepted
      ensures wait.Some? ==> wait.value == View()[id].revision
    {
      var i := FindEntry(id);
      if i == |entries| || entries[i].entry.status != Accepted || entries[i].entry.acceptedOrder.None?
         || entries[i].entry.kind != BasicOrder {
        return None;
      }
      if IsFilled(entries[i].entry.exchanger, entries[i].entry.acceptedOrder.value.status) {
        ChangeEntry(i, entries[i].entry.(terminalOrder := entries[i].entry.acceptedOrder, status := FilledEntry));
        return None;
      }
      wait := StartBasicOrderWait(id, i);
    }

    method StartBasicOrderWait(id: EntryId, position: nat) returns (wait: Option<nat>)
      requires Valid() && position < |entries| && entries[position].entry.id == id
      requires var e := entries[position].entry;
        e.status == Accepted && e.acceptedOrder.Some? && e.kind == BasicOrder
        && !IsFilled(e.exchanger, e.acceptedOrder.value.status)
      modifies this`entries
      ensures Valid() && View() == S.ContinueAfterBasicAcceptance(old(View()), id)
      ensures wait.Some? <==> id in View() && View()[id].status == Waiting
      ensures wait.Some? ==> wait.value == View()[id].revision
    {
      EntriesOfAt(entries, position);
      var i := position;
      var entry := entries[i].entry;
      var order := entry.acceptedOrder.value;
      if order.symbol == "" || order.orderId == "" {
        ChangeEntry(i, entry.(status := MonitoringFailed));
        return None;
      }
      ChangeEntry(i, entry.(status := Waiting));
      i := FindEntry(id);
      return Some(entries[i].entry.revision);
    }

    method ContinueAfterOcoAcceptance(id: EntryId) returns (wait: Option<nat>)
      requires Valid()
      modifies this`entries
      ensures Valid() && View() == S.ContinueAfterOcoAcceptance(old(View()), id)
      ensures wait.Some? <==> id in View() && View()[id].status == Waiting && old(View())[id].status == Accepted
      ensures wait.Some? ==> wait.value == View()[id].revision
    {
      var i := FindEntry(id);
      if i == |entries| || entries[i].entry.status != Accepted || entries[i].entry.acceptedOco.None?
         || entries[i].entry.kind != OcoGroup {
        return None;
      }
      if !CanMonitor(entries[i].entry.acceptedOco.value) {
        ChangeEntry(i, entries[i].entry.(status := MonitoringFailed));
        return None;
      }
      ChangeEntry(i, entries[i].entry.(status := Waiting));
      i := FindEntry(id);
      return Some(entries[i].entry.revision);
    }

    method FinishOrderWait(id: EntryId, waitRevision: nat, order: OrderInfo)
      requires Valid()
      modifies this`entries
      ensures Valid() && View() == S.FinishOrderWait(old(View()), id, waitRevision, order)
    {
      var i := FindEntry(id);
      if i == |entries| || entries[i].entry.status != Waiting || entries[i].entry.revision != waitRevision {
        return;
      }
      ChangeEntry(i, entries[i].entry.(terminalOrder := Some(order), status := FilledEntry));
    }

    method FinishOcoWait(id: EntryId, waitRevision: nat, result: OcoWaitResult)
      requires Valid()
      modifies this`entries
      ensures Valid() && View() == S.FinishOcoWait(old(View()), id, waitRevision, result)
    {
      var i := FindEntry(id);
      if i == |entries| || entries[i].entry.status != Waiting || entries[i].entry.revision != waitRevision {
        return;
      }
      var entry := entries[i].entry;
      var oco := if entry.acceptedOco.Some? then WithFinalChildren(entry.acceptedOco.value, result) else None;
      if oco.None? {
        ChangeEntry(i, entry.(status := MonitoringFailed));
      } else {
        ChangeEntry(i, entry.(acceptedOco := oco, terminalOrder := Some(result.filledOrder), status := FilledEntry));
      }
    }

    method FailOrderWait(id: EntryId, waitRevision: nat)
      requires Valid()
      modifies this`entries
      ensures Valid() && View() == S.FailOrderWait(old(View()), id, waitRevision)
    {
      var i := FindEntry(id);
      if i == |entries| || entries[i].entry.status != Waiting || entries[i].entry.revision != waitRevision {
        return;
      }
      var action := entries[i].entry.action;
      SetEntry(i, entries[i].entry.(status := MonitoringFailed));
      if action == Cancelling || action == CancellingAll {
        PublishEntryActionChange(id);
      } else {
        PublishEntryChange(id);
      }
    }

    /** Writes a current result into its entry, ends the action and publishes the change. */
    method SettleEntry(i: nat, result: RefreshResult)
      requires HasIds() && i < |entries|
      modifies this`entries
      ensures Valid()
      ensures var e := old(entries[i].entry); View() == old(View())[e.id := Settle(e, result)]
    {
      var entry := entries[i].entry;
      var (applied, becameTerminal) := ApplyEntryRefreshResult(entry, result);
      EntriesOfAt(entries, i);
      assert applied.id == entry.id;
      SetEntry(i, applied.(action := NoAction));
      if becameTerminal {
        PublishEntryChange(entry.id);
      } else {
        PublishEntryActionChange(entry.id);
      }
    }

    method FinishEntryRefresh(result: RefreshResult, action: Action)
      requires Valid()
      modifies this`entries
      ensures Valid() && View() == S.FinishEntryRefresh(old(View()), result, action)
    {
      var id := result.request.entryId;
      var i := FindEntry(id);
      if i == |entries| || !IsActionCurrent(entries[i].entry, result.request.revision, action) {
        if i < |entries| && entries[i].entry.action == action {
          SetEntry(i, entries[i].entry.(action := NoAction));
          PublishEntryActionChange(id);
        }
        return;
      }
      SettleEntry(i, result);
    }

    method FailEntryAction(id: EntryId, action: Action)
      requires Valid()
      modifies this`entries
      ensures Valid() && View() == S.FailEntryAction(old(View()), id, action)
    {
      var i := FindEntry(id);
      if i == |entries| || entries[i].entry.action != action {
        return;
      }
      SetEntry(i, entries[i].entry.(action := NoAction));
      PublishEntryActionChange(id);
    }

    method StartPairAction(requests: seq<RefreshRequest>)
      requires Valid()
      modifies this`entries
      ensures Valid() && View() == S.StartPairAction(old(View()), requests)
    {
      assert requests[..0] == [];
      for k := 0 to |requests|
        invariant Valid() && View() == S.StartPairAction(old(View()), requests[..k])
      {
        assert requests[..k + 1][..k] == requests[..k];
        var i := FindEntry(requests[k].entryId);
        if i == |entries| || entries[i].entry.revision != requests[k].revision {
          continue;
        }
        SetEntry(i, entries[i].entry.(action := CancellingAll));
        PublishEntryActionChange(requests[k].entryId);
      }
      assert requests[..|requests|] == requests;
    }

    method FinishPairAction(requests: seq<RefreshRequest>)
      requires Valid()
      modifies this`entries
      ensures Valid() && View() == S.FinishPairAction(old(View()), requests)
    {
      assert requests[..0] == [];
      for k := 0 to |requests|
        invariant Valid() && View() == S.FinishPairAction(old(View()), requests[..k])
      {
        assert requests[..k + 1][..k] == requests[..k];
        FailEntryAction(requests[k].entryId, CancellingAll);
      }
      assert requests[..|requests|] == requests;
    }

    method FinishCancelAll(requests: seq<RefreshRequest>, results: seq<RefreshResult>)
      requires Valid()
      modifies this`entries
      ensures Valid() && View() == S.FinishCancelAll(old(View()), requests, results)
    {
      assert results[..0] == [];
      for k := 0 to |results|
        invariant Valid() && View() == ApplyCancelAll(old(View()), results[..k])
      {
        assert results[..k + 1][..k] == results[..k];
        var i := FindEntry(results[k].request.entryId);
        if i == |entries| || !IsActionCurrent(entries[i].entry, results[k].request.revision, CancellingAll) {
          continue;
        }
        SettleEntry(i, results[k]);
      }
      assert results[..|results|] == results;
      FinishPairAction(requests);
    }

    /** One request for every entry of the pair, in display order. */
    method CreatePairRefreshRequests(exchanger: Exchanger, symbol: string) returns (requests: seq<RefreshRequest>)
      requires Valid() && (forall id :: id in View() ==> View()[id].id == id)
      ensures ArePairRequests(View(), exchanger, symbol, requests)
    {
      requests := [];
      ghost var from: seq<nat> := [];
      for k := 0 to |entries|
        invariant |from| == |requests| && (forall i :: 0 <= i < |from| ==> from[i] < k)
        invariant forall i :: 0 <= i < |requests| ==>
                    InPair(entries[from[i]].entry, exchanger, symbol)
                    && requests[i] == PairRequest(entries[from[i]].entry)
        invariant forall i, j :: 0 <= i < j < |requests| ==> from[i] < from[j]
        invariant forall n :: 0 <= n < k && InPair(entries[n].entry, exchanger, symbol) ==> n in from
      {
        if !InPair(entries[k].entry, exchanger, symbol) {
          continue;
        }
        requests := requests + [PairRequest(entries[k].entry)];
        from := from + [k];
      }
      RequestsCoverPair(exchanger, symbol, requests, from);
    }

    lemma RequestsCoverPair(exchanger: Exchanger, symbol: string, requests: seq<RefreshRequest>, from: seq<nat>)
      requires HasIds() && |from| == |requests| && (forall i :: 0 <= i < |from| ==> from[i] < |entries|)
      requires forall i :: 0 <= i < |requests| ==>
                 InPair(entries[from[i]].entry, exchanger, symbol) && requests[i] == PairRequest(entries[from[i]].entry)
      requires forall i, j :: 0 <= i < j < |requests| ==> from[i] < from[j]
      requires forall n :: 0 <= n < |entries| && InPair(entries[n].entry, exchanger, symbol) ==> n in from
      ensures ArePairRequests(View(), exchanger, symbol, requests)
    {
      forall i | 0 <= i < |requests|
        ensures requests[i].entryId == entries[from[i]].entry.id
        ensures requests[i].entryId in View() && View()[requests[i].entryId] == entries[from[i]].entry
      {
        EntriesOfAt(entries, from[i]);
      }
      forall id | id in View() && InPair(View()[id], exchanger, symbol)
        ensures Mentions(requests, id)
      {
        var n :| 0 <= n < |entries| && entries[n].entry.id == id;
        EntriesOfAt(entries, n);
        var i :| 0 <= i < |from| && from[i] == n;
        assert requests[i].entryId == id;
      }
      hide CreateEntryRefreshRequest, PairRequest;
    }
  }
}
