/** The per-vehicle service report (components/ReportView.tsx): the
    finished services of one plate inside a date range, newest first, with
    each order's total. */
module Report {
  import opened Types
  import Text

  /** `finishedDate || ''`: the sort key of a history entry. */
  function FinishedKey(s: Service): string
  {
    if s.finishedDate.Some? then s.finishedDate.value else ""
  }

  /** The filter condition: same plate, a (non-empty) finished date, and
      that date inside the range, both ends included. */
  predicate InReport(s: Service, plate: string, start: string, end: string)
  {
    && s.plate == plate
    && s.finishedDate.Some? && s.finishedDate.value != ""
    && Text.LexLe(start, s.finishedDate.value) && Text.LexLe(s.finishedDate.value, end)
  }

  function Select(history: seq<Service>, plate: string, start: string, end: string): (r: seq<Service>)
    ensures forall s :: s in r <==> s in history && InReport(s, plate, start, end)
    ensures forall s :: multiset(r)[s] == if InReport(s, plate, start, end) then multiset(history)[s] else 0
  {
    if history == [] then []
    else
      var rest := Select(history[1..], plate, start, end);
      assert history == [history[0]] + history[1..];
      if InReport(history[0], plate, start, end) then [history[0]] + rest else rest
  }

  /** Newest first: along the list the finished dates never increase. */
  predicate NewestFirst(ss: seq<Service>)
  {
    forall i, j :: 0 <= i < j < |ss| ==> Text.LexLe(FinishedKey(ss[j]), FinishedKey(ss[i]))
  }

  /** An entry not older than every entry of a newest-first list can go in
      front of it. */
  lemma ConsNewest(x: Service, ss: seq<Service>)
    requires NewestFirst(ss)
    requires forall j :: 0 <= j < |ss| ==> Text.LexLe(FinishedKey(ss[j]), FinishedKey(x))
    ensures NewestFirst([x] + ss)
  {
    var r := [x] + ss;
    forall i, j | 0 <= i < j < |r|
      ensures Text.LexLe(FinishedKey(r[j]), FinishedKey(r[i]))
    {
      if i > 0 {
        assert r[i] == ss[i - 1] && r[j] == ss[j - 1];
      }
    }
  }

  /** An entry not older than the first of a newest-first list is not older
      than any of them. */
  lemma NewerThanHead(x: Service, ss: seq<Service>)
    requires NewestFirst(ss) && ss != [] && Text.LexLe(FinishedKey(ss[0]), FinishedKey(x))
    ensures forall j :: 0 <= j < |ss| ==> Text.LexLe(FinishedKey(ss[j]), FinishedKey(x))
  {
    forall j | 0 <= j < |ss|
      ensures Text.LexLe(FinishedKey(ss[j]), FinishedKey(x))
    {
      if j > 0 {
        Text.LexLeTrans(FinishedKey(ss[j]), FinishedKey(ss[0]), FinishedKey(x));
      }
    }
  }

  /** Inserts `s` before the first entry that is not newer than it. */
  function InsertByDate(s: Service, ss: seq<Service>): (r: seq<Service>)
    requires NewestFirst(ss)
    ensures |r| == |ss| + 1
    ensures multiset(r) == multiset(ss) + multiset{s}
    ensures NewestFirst(r)
  {
    if ss == [] then
      [s]
    else if Text.LexLe(FinishedKey(ss[0]), FinishedKey(s)) then
      NewerThanHead(s, ss);
      ConsNewest(s, ss);
      [s] + ss
    else
      Text.LexLeTotal(FinishedKey(ss[0]), FinishedKey(s));
      var rest := InsertByDate(s, ss[1..]);
      assert ss == [ss[0]] + ss[1..];
      InsertedNotNewer(s, ss, rest);
      ConsNewest(ss[0], rest);
      [ss[0]] + rest
  }

  /** What is inserted behind the head of a newest-first list is not newer
      than that head. */
  lemma InsertedNotNewer(s: Service, ss: seq<Service>, rest: seq<Service>)
    requires NewestFirst(ss) && ss != []
    requires Text.LexLe(FinishedKey(s), FinishedKey(ss[0]))
    requires multiset(rest) == multiset(ss[1..]) + multiset{s}
    ensures forall j :: 0 <= j < |rest| ==> Text.LexLe(FinishedKey(rest[j]), FinishedKey(ss[0]))
  {
    forall j | 0 <= j < |rest|
      ensures Text.LexLe(FinishedKey(rest[j]), FinishedKey(ss[0]))
    {
      assert rest[j] in multiset(rest);
      if rest[j] != s {
        assert rest[j] in multiset(ss[1..]);
        var m :| 0 <= m < |ss[1..]| && ss[1..][m] == rest[j];
        assert ss[1 + m] == rest[j];
      }
    }
  }

  /** `.sort((a, b) => (b.finishedDate || '').localeCompare(a.finishedDate
      || ''))`: the same entries, newest first. */
  function SortNewestFirst(ss: seq<Service>): (r: seq<Service>)
    ensures |r| == |ss|
    ensures multiset(r) == multiset(ss)
    ensures NewestFirst(r)
  {
    if ss == [] then []
    else
      assert ss == [ss[0]] + ss[1..];
      InsertByDate(ss[0], SortNewestFirst(ss[1..]))
  }

  /** `filteredHistory`: nothing without a selected vehicle; otherwise
      exactly the history entries of its plate finished inside the range,
      each as often as in the history, newest first. */
  function FilteredHistory(history: seq<Service>, vehicle: Option<Vehicle>, start: string, end: string): (r: seq<Service>)
    ensures vehicle.None? ==> r == []
    ensures vehicle.Some? ==> NewestFirst(r)
    ensures vehicle.Some? ==> forall s :: s in r <==> s in history && InReport(s, vehicle.value.plate, start, end)
    ensures vehicle.Some? ==> forall s :: multiset(r)[s] == if InReport(s, vehicle.value.plate, start, end) then multiset(history)[s] else 0
    ensures multiset(r) <= multiset(history)
  {
    if vehicle.None? then []
    else
      var selected := Select(history, vehicle.value.plate, start, end);
      var r := SortNewestFirst(selected);
      assert forall s :: s in r <==> s in multiset(selected);
      r
  }

  /** Every entry of the report lies inside the range, so the newest is not
      after `end` and the oldest not before `start`. */
  lemma ReportWithinRange(history: seq<Service>, vehicle: Vehicle, start: string, end: string)
    requires |FilteredHistory(history, Some(vehicle), start, end)| > 0
    ensures var r := FilteredHistory(history, Some(vehicle), start, end);
      Text.LexLe(FinishedKey(r[0]), end) && Text.LexLe(start, FinishedKey(r[|r| - 1]))
  {
    var r := FilteredHistory(history, Some(vehicle), start, end);
    assert r[0] in r && r[|r| - 1] in r;
  }

  /** `calculateServiceTotal(items, discount)`: 0 without items, otherwise
      the subtotal less the discount; the same amount the shell charges for
      the order. */
  function CalculateServiceTotal(items: Option<seq<BudgetItem>>, discount: Option<real>): (r: real)
    ensures forall s: Service :: s.budgetItems == items && s.discount == discount ==> r == OrderTotal(s)
  {
    if items.None? then 0.0
    else Subtotal(items.value) - (if discount.Some? then discount.value else 0.0)
  }

  /** What the report screen selects. */
  class ReportSelection {
    var selectedCustomer: Option<Customer>
    var selectedVehicle: Option<Vehicle>

    constructor ()
      ensures selectedCustomer.None? && selectedVehicle.None?
    {
      selectedCustomer := None;
      selectedVehicle := None;
    }

    /** The 'Alterar' button of the customer: both the customer and the
        vehicle are cleared, so the report becomes empty. */
    method ChangeCustomer()
      modifies this
      ensures selectedCustomer.None? && selectedVehicle.None?
    {
      selectedCustomer := None;
      selectedVehicle := None;
    }

    /** Picking a customer from the list. */
    method SelectCustomer(c: Customer)
      modifies this
      ensures selectedCustomer == Some(c) && selectedVehicle == old(selectedVehicle)
    {
      selectedCustomer := Some(c);
    }

    /** Picking one of the customer's vehicles. */
    method SelectVehicle(v: Vehicle)
      modifies this
      ensures selectedVehicle == Some(v) && selectedCustomer == old(selectedCustomer)
    {
      selectedVehicle := Some(v);
    }
  }
}
