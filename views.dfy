/** The read-only selections and aggregates of the dashboard. A view is
    the list of row labels a boolean mask keeps, in table order, so a view
    row still names the row of the full table it came from (the pandas
    index survives every mask). */
module Views {
  import opened Text
  import opened Transfers
  import opened Regions

  type Mask = Transfer -> bool

  /** Every label of the view names a row of the table. */
  predicate InRange(rows: seq<Transfer>, view: seq<nat>)
  {
    forall k :: 0 <= k < |view| ==> view[k] < |rows|
  }

  /** Labels appear once each and in table order. */
  predicate Increasing(view: seq<nat>)
  {
    forall a, b :: 0 <= a < b < |view| ==> view[a] < view[b]
  }

  predicate IsView(rows: seq<Transfer>, view: seq<nat>)
  {
    InRange(rows, view) && Increasing(view)
  }

  /** The whole table, `transfers_df` itself. */
  function AllRows(rows: seq<Transfer>): (r: seq<nat>)
    ensures IsView(rows, r) && |r| == |rows|
    ensures forall i :: i in r <==> 0 <= i < |rows|
  {
    var r := seq(|rows|, k => k);
    assert forall i :: 0 <= i < |rows| ==> i in r by {
      forall i | 0 <= i < |rows|
        ensures i in r
      {
        assert r[i] == i;
      }
    }
    assert forall i :: i in r ==> 0 <= i < |rows| by {
      forall i | i in r
        ensures 0 <= i < |rows|
      {
        var k :| 0 <= k < |r| && r[k] == i;
      }
    }
    r
  }

  /** `df[mask]`: the labels of `view` whose row the mask keeps. */
  function Where(rows: seq<Transfer>, view: seq<nat>, keep: Mask): (r: seq<nat>)
    requires InRange(rows, view)
    ensures InRange(rows, r) && |r| <= |view|
    ensures forall i :: i in r <==> i in view && keep(rows[i])
    decreases |view|
  {
    if view == [] then []
    else
      var rest := Where(rows, view[1..], keep);
      assert view == [view[0]] + view[1..];
      if keep(rows[view[0]]) then [view[0]] + rest else rest
  }

  /** A mask keeps the table order of the view it is applied to. */
  lemma {:induction false} WhereIncreasing(rows: seq<Transfer>, view: seq<nat>, keep: Mask)
    requires IsView(rows, view)
    ensures Increasing(Where(rows, view, keep))
    decreases |view|
  {
    if view != [] {
      var rest := Where(rows, view[1..], keep);
      WhereIncreasing(rows, view[1..], keep);
      forall i | i in rest
        ensures view[0] < i
      {
        var k :| 0 <= k < |view[1..]| && view[1..][k] == i;
        assert view[k + 1] == i;
      }
      if keep(rows[view[0]]) {
        var r := [view[0]] + rest;
        forall a, b | 0 <= a < b < |r|
          ensures r[a] < r[b]
        {
          assert r[b] == rest[b - 1] && rest[b - 1] in rest;
          if a > 0 {
            assert r[a] == rest[a - 1];
          }
        }
      }
    }
  }

  /** `df["Value"].sum()` over a view. */
  function TotalValue(rows: seq<Transfer>, view: seq<nat>): (r: nat)
    requires InRange(rows, view)
    ensures forall k :: 0 <= k < |view| ==> rows[view[k]].value <= r
    ensures view == [] ==> r == 0
    decreases |view|
  {
    if view == [] then 0 else rows[view[0]].value + TotalValue(rows, view[1..])
  }

  /** Two masks that are each other's complement on a view split its
      rows, its count and its total value between them. */
  lemma {:induction false} SplitView(rows: seq<Transfer>, view: seq<nat>, keep: Mask, drop: Mask)
    requires InRange(rows, view)
    requires forall i :: i in view ==> drop(rows[i]) == !keep(rows[i])
    ensures forall i :: i in view <==> (i in Where(rows, view, keep) || i in Where(rows, view, drop))
    ensures forall i :: !(i in Where(rows, view, keep) && i in Where(rows, view, drop))
    ensures |Where(rows, view, keep)| + |Where(rows, view, drop)| == |view|
    ensures TotalValue(rows, Where(rows, view, keep)) + TotalValue(rows, Where(rows, view, drop))
            == TotalValue(rows, view)
    decreases |view|
  {
    if view != [] {
      assert forall i :: i in view[1..] ==> i in view;
      SplitView(rows, view[1..], keep, drop);
    }
  }

  /** Masking twice is masking once with the conjunction. */
  lemma {:induction false} WhereWhere(rows: seq<Transfer>, view: seq<nat>, a: Mask, b: Mask, both: Mask)
    requires InRange(rows, view)
    requires forall t :: both(t) == (a(t) && b(t))
    ensures Where(rows, Where(rows, view, a), b) == Where(rows, view, both)
    decreases |view|
  {
    if view != [] {
      WhereWhere(rows, view[1..], a, b, both);
    }
  }

  predicate AllPositive(rows: seq<Transfer>, view: seq<nat>)
    requires InRange(rows, view)
  {
    forall i :: i in view ==> rows[i].value > 0
  }

  /** With positive values, a view's total is zero exactly when the view
      is empty. */
  lemma {:induction false} TotalZeroIffEmpty(rows: seq<Transfer>, view: seq<nat>)
    requires InRange(rows, view) && AllPositive(rows, view)
    ensures TotalValue(rows, view) == 0 <==> view == []
  {
    if view != [] {
      assert view[0] in view;
    }
  }

  // ---- masks of the dashboard ----

  function FromIs(code: string): Mask { (t: Transfer) => t.fromBranch == code }
  function ToIs(code: string): Mask { (t: Transfer) => t.toBranch == code }
  function FromOrToIs(code: string): Mask { (t: Transfer) => t.fromBranch == code || t.toBranch == code }
  function CreatedOn(d: Date): Mask { (t: Transfer) => t.createdAt.date == d }
  function IdContains(term: string): Mask { (t: Transfer) => ContainsIgnoringCase(t.transferId, term) }

  function IsDone(t: Transfer): bool { t.status == Received }
  function IsOpen(t: Transfer): bool { t.status != Received }
  function IsPending(t: Transfer): bool { t.status == Pending }
  function IsPickedUp(t: Transfer): bool { t.status == PickedUp }

  // ---- the general filters ----

  /** The three general filter inputs: the branch select box ("All" or a
      code), the optional date, and the transfer-id search term, which
      `MakeFilter` takes from the input box through `SearchTerm`. */
  datatype Filter = Filter(branch: string, date: Option<Date>, search: string)

  /** The search box text with `.strip()` applied; it is empty, and so
      switches the search off, exactly when the box holds only
      whitespace. */
  function SearchTerm(raw: string): (term: string)
    ensures exists lo :: SurroundedBySpace(raw, term, lo)
    ensures term == "" <==> forall k :: 0 <= k < |raw| ==> IsSpace(raw[k])
    ensures term != "" ==> !IsSpace(term[0]) && !IsSpace(term[|term| - 1])
  {
    var term := Strip(raw);
    assert term != "" ==> exists k :: 0 <= k < |raw| && !IsSpace(raw[k]) by {
      if term != "" {
        var lo :| SurroundedBySpace(raw, term, lo);
        assert raw[lo] == term[0];
      }
    }
    term
  }

  /** The filter as the page builds it from its three inputs: the search
      box text goes through `SearchTerm`. */
  function MakeFilter(branch: string, date: Option<Date>, rawSearch: string): (f: Filter)
    ensures f.branch == branch && f.date == date
    ensures exists lo :: SurroundedBySpace(rawSearch, f.search, lo)
    ensures f.search == "" <==> forall k :: 0 <= k < |rawSearch| ==> IsSpace(rawSearch[k])
    ensures f.search != "" ==> !IsSpace(f.search[0]) && !IsSpace(f.search[|f.search| - 1])
  {
    Filter(branch, date, SearchTerm(rawSearch))
  }

  predicate PassesBranch(f: Filter, t: Transfer)
  {
    f.branch != AllBranches ==> t.fromBranch == f.branch || t.toBranch == f.branch
  }

  predicate PassesDate(f: Filter, t: Transfer)
  {
    f.date.Some? ==> t.createdAt.date == f.date.value
  }

  predicate PassesSearch(f: Filter, t: Transfer)
  {
    f.search != "" ==> ContainsIgnoringCase(t.transferId, f.search)
  }

  /** `if cond: df = df[mask]`. */
  function WhereIf(rows: seq<Transfer>, view: seq<nat>, cond: bool, keep: Mask): (r: seq<nat>)
    requires IsView(rows, view)
    ensures IsView(rows, r)
    ensures forall i :: i in r <==> i in view && (cond ==> keep(rows[i]))
  {
    if cond then
      WhereIncreasing(rows, view, keep);
      Where(rows, view, keep)
    else
      view
  }

  predicate Passes(f: Filter, t: Transfer)
  {
    PassesBranch(f, t) && PassesDate(f, t) && PassesSearch(f, t)
  }

  /** `filtered_df`: the branch filter, then the date filter, then the
      id search, each applied only when set. A row is kept
      exactly when it passes all three; when a branch is selected, every
      kept row is from or to that branch. */
  function GeneralFilter(rows: seq<Transfer>, f: Filter): (r: seq<nat>)
    ensures IsView(rows, r)
    ensures forall i :: i in r <==> 0 <= i < |rows| && Passes(f, rows[i])
    ensures f.branch != AllBranches ==>
      forall i :: i in r ==> rows[i].fromBranch == f.branch || rows[i].toBranch == f.branch
  {
    var byBranch := WhereIf(rows, AllRows(rows), f.branch != AllBranches, FromOrToIs(f.branch));
    assert forall i :: i in byBranch <==> 0 <= i < |rows| && PassesBranch(f, rows[i]);
    var day := if f.date.Some? then f.date.value else Date(0, 0, 0);
    var byDate := WhereIf(rows, byBranch, f.date.Some?, CreatedOn(day));
    assert forall i :: i in byDate <==> i in byBranch && PassesDate(f, rows[i]);
    var r := WhereIf(rows, byDate, f.search != "", IdContains(f.search));
    assert forall i :: i in r <==> i in byDate && PassesSearch(f, rows[i]);
    r
  }

  /** A search box holding only whitespace switches the id search off:
      the page then keeps exactly the rows that pass the branch and date
      filters. */
  lemma BlankSearchBoxFiltersNothing(rows: seq<Transfer>, branch: string, date: Option<Date>, rawSearch: string)
    requires forall k :: 0 <= k < |rawSearch| ==> IsSpace(rawSearch[k])
    ensures var f := MakeFilter(branch, date, rawSearch);
      forall i :: i in GeneralFilter(rows, f) <==> 0 <= i < |rows| && PassesBranch(f, rows[i]) && PassesDate(f, rows[i])
  {
  }

  // ---- the Branch page ----

  /** `sent`: the rows of the view sent by the branch. */
  function Sent(rows: seq<Transfer>, view: seq<nat>, code: string): (r: seq<nat>)
    requires InRange(rows, view)
    ensures InRange(rows, r)
    ensures forall i :: i in r <==> i in view && rows[i].fromBranch == code
  {
    Where(rows, view, FromIs(code))
  }

  /** `received`: the rows of the view addressed to the branch. */
  function ReceivedBy(rows: seq<Transfer>, view: seq<nat>, code: string): (r: seq<nat>)
    requires InRange(rows, view)
    ensures InRange(rows, r)
    ensures forall i :: i in r <==> i in view && rows[i].toBranch == code
  {
    Where(rows, view, ToIs(code))
  }

  /** `sending_pending`: sent by the branch and not yet Received. */
  function SendingPending(rows: seq<Transfer>, view: seq<nat>, code: string): (r: seq<nat>)
    requires InRange(rows, view)
    ensures forall i :: i in r <==> i in view && rows[i].fromBranch == code && rows[i].status != Received
  {
    Where(rows, Sent(rows, view, code), IsOpen)
  }

  /** `sent_done`: sent by the branch and Received. */
  function SentDone(rows: seq<Transfer>, view: seq<nat>, code: string): (r: seq<nat>)
    requires InRange(rows, view)
    ensures forall i :: i in r <==> i in view && rows[i].fromBranch == code && rows[i].status == Received
  {
    Where(rows, Sent(rows, view, code), IsDone)
  }

  /** The rows a Confirm Receipt button is shown for. */
  function ReceivingPending(rows: seq<Transfer>, view: seq<nat>, code: string): (r: seq<nat>)
    requires InRange(rows, view)
    ensures forall i :: i in r <==> i in view && rows[i].toBranch == code && rows[i].status != Received
  {
    Where(rows, ReceivedBy(rows, view, code), IsOpen)
  }

  /** `received_done`: addressed to the branch and Received. */
  function ReceivedDone(rows: seq<Transfer>, view: seq<nat>, code: string): (r: seq<nat>)
    requires InRange(rows, view)
    ensures forall i :: i in r <==> i in view && rows[i].toBranch == code && rows[i].status == Received
  {
    Where(rows, ReceivedBy(rows, view, code), IsDone)
  }

  /** The four Branch lists split the branch's sent rows and its received
      rows by "Status == Received": each pair is disjoint, covers its side,
      and its counts and values add up to that side's. */
  lemma {:induction false} BranchPartitions(rows: seq<Transfer>, view: seq<nat>, code: string)
    requires InRange(rows, view)
    ensures forall i :: i in Sent(rows, view, code) <==>
      (i in SendingPending(rows, view, code) || i in SentDone(rows, view, code))
    ensures forall i :: !(i in SendingPending(rows, view, code) && i in SentDone(rows, view, code))
    ensures forall i :: i in ReceivedBy(rows, view, code) <==>
      (i in ReceivingPending(rows, view, code) || i in ReceivedDone(rows, view, code))
    ensures forall i :: !(i in ReceivingPending(rows, view, code) && i in ReceivedDone(rows, view, code))
    ensures |SendingPending(rows, view, code)| + |SentDone(rows, view, code)| == |Sent(rows, view, code)|
    ensures |ReceivingPending(rows, view, code)| + |ReceivedDone(rows, view, code)|
            == |ReceivedBy(rows, view, code)|
    ensures TotalValue(rows, SendingPending(rows, view, code)) + TotalValue(rows, SentDone(rows, view, code))
            == TotalValue(rows, Sent(rows, view, code))
    ensures TotalValue(rows, ReceivingPending(rows, view, code)) + TotalValue(rows, ReceivedDone(rows, view, code))
            == TotalValue(rows, ReceivedBy(rows, view, code))
  {
    SplitView(rows, Sent(rows, view, code), IsOpen, IsDone);
    SplitView(rows, ReceivedBy(rows, view, code), IsOpen, IsDone);
  }

  /** The five figures of the Branch KPI row (Most From is left out). */
  datatype BranchKpis = BranchKpis(
    sentTotal: nat, sentCount: nat,
    receivedTotal: nat, receivedCount: nat,
    pendingSent: nat, receivingPending: nat)

  /** The KPI figures: the pending figures are the open part of the
      totals, so they never exceed them. */
  function Kpis(rows: seq<Transfer>, view: seq<nat>, code: string): (k: BranchKpis)
    requires InRange(rows, view)
    ensures k.sentTotal == TotalValue(rows, Sent(rows, view, code))
    ensures k.receivedTotal == TotalValue(rows, ReceivedBy(rows, view, code))
    ensures k.pendingSent == TotalValue(rows, SendingPending(rows, view, code))
    ensures k.receivingPending == TotalValue(rows, ReceivingPending(rows, view, code))
    ensures k.sentCount == |Sent(rows, view, code)| && k.receivedCount == |ReceivedBy(rows, view, code)|
    ensures k.sentTotal == k.pendingSent + TotalValue(rows, SentDone(rows, view, code))
    ensures k.receivedTotal == k.receivingPending + TotalValue(rows, ReceivedDone(rows, view, code))
    ensures k.pendingSent <= k.sentTotal && k.receivingPending <= k.receivedTotal
  {
    var sent := Sent(rows, view, code);
    var received := ReceivedBy(rows, view, code);
    BranchPartitions(rows, view, code);
    BranchKpis(
      TotalValue(rows, sent), |sent|,
      TotalValue(rows, received), |received|,
      TotalValue(rows, Where(rows, sent, IsOpen)),
      TotalValue(rows, Where(rows, received, IsOpen)))
  }

  /** With every value positive, Pending Sent equals Sent Total exactly
      when nothing sent has been received yet, and Receiving Pending equals
      Received Total exactly when nothing addressed to the branch has been
      received yet. */
  lemma {:induction false} PendingEqualsTotalIffNoneDone(rows: seq<Transfer>, view: seq<nat>, code: string)
    requires InRange(rows, view) && AllPositive(rows, view)
    ensures Kpis(rows, view, code).pendingSent == Kpis(rows, view, code).sentTotal
            <==> SentDone(rows, view, code) == []
    ensures Kpis(rows, view, code).receivingPending == Kpis(rows, view, code).receivedTotal
            <==> ReceivedDone(rows, view, code) == []
  {
    var sentDone := SentDone(rows, view, code);
    var receivedDone := ReceivedDone(rows, view, code);
    assert forall i :: i in sentDone ==> i in view;
    assert forall i :: i in receivedDone ==> i in view;
    TotalZeroIffEmpty(rows, sentDone);
    TotalZeroIffEmpty(rows, receivedDone);
  }

  // ---- the Driver page ----

  /** A row a driver with this prefix is offered for pickup. */
  predicate PickupCandidate(prefix: string, t: Transfer)
  {
    (StartsWith(t.fromBranch, prefix) || StartsWith(t.toBranch, prefix)) && t.status == Pending
  }

  function PickupMask(prefix: string): Mask { (t: Transfer) => PickupCandidate(prefix, t) }

  /** `pending`, always taken from the whole table. */
  function PickupPool(rows: seq<Transfer>, prefix: string): (r: seq<nat>)
    ensures IsView(rows, r)
    ensures forall i :: i in r <==> 0 <= i < |rows| && PickupCandidate(prefix, rows[i])
  {
    WhereIf(rows, AllRows(rows), true, PickupMask(prefix))
  }

  /** A row the driver holds and may put in the warehouse. */
  predicate HeldBy(username: string, t: Transfer)
  {
    t.driver == username && t.status == PickedUp
  }

  function HeldMask(username: string): Mask { (t: Transfer) => HeldBy(username, t) }

  /** `holding`, always taken from the whole table. */
  function Holding(rows: seq<Transfer>, username: string): (r: seq<nat>)
    ensures IsView(rows, r)
    ensures forall i :: i in r <==> 0 <= i < |rows| && rows[i].driver == username && rows[i].status == PickedUp
  {
    WhereIf(rows, AllRows(rows), true, HeldMask(username))
  }

  /** A driver whose region has no entry in the dictionary is offered
      every Pending row. */
  lemma UnmappedDriverSeesAllPending(rows: seq<Transfer>, region: string)
    requires region !in {"Riyadh", "Taif", "Jeddah", "Qassim", "Meccah"}
    ensures forall i :: i in PickupPool(rows, DriverPrefix(region)) <==> 0 <= i < |rows| && rows[i].status == Pending
  {
  }

  /** A Pending row from P00-12 is in a Riyadh driver's pickup list and,
      unless it is addressed to a Qassim branch, not in a Qassim
      driver's. */
  lemma PickupScopedByRegion(rows: seq<Transfer>, i: nat)
    requires i < |rows| && rows[i].status == Pending && rows[i].fromBranch == "P00-12"
    ensures i in PickupPool(rows, DriverPrefix("Riyadh"))
    ensures !StartsWith(rows[i].toBranch, "P03") <==> i !in PickupPool(rows, DriverPrefix("Qassim"))
  {
    assert "P00-12"[..3] == "P00";
  }

  // ---- the Supervisor, Manager and Owner pages ----

  predicate SupervisorVisible(code: string, t: Transfer)
  {
    && (StartsWith(t.fromBranch, code) || StartsWith(t.toBranch, code))
    && !StartsWith(t.fromBranch, Warehouse)
    && !StartsWith(t.toBranch, Warehouse)
  }

  function SupervisorMask(code: string): Mask { (t: Transfer) => SupervisorVisible(code, t) }

  /** `region_transfers` for a supervisor: the filtered rows from or to a
      branch of the region's prefix, with no warehouse on either side. */
  function SupervisorView(rows: seq<Transfer>, filtered: seq<nat>, region: string): (r: seq<nat>)
    requires InRange(rows, filtered)
    ensures InRange(rows, r)
    ensures forall i :: i in r <==>
      (&& i in filtered
       && (StartsWith(rows[i].fromBranch, SupervisorPrefix(region))
           || StartsWith(rows[i].toBranch, SupervisorPrefix(region)))
       && !StartsWith(rows[i].fromBranch, "WH") && !StartsWith(rows[i].toBranch, "WH"))
  {
    Where(rows, filtered, SupervisorMask(SupervisorPrefix(region)))
  }

  /** A supervisor of a region the dictionary does not know sees every
      filtered row that touches no warehouse. */
  lemma UnmappedSupervisorSeesAllButWarehouse(rows: seq<Transfer>, filtered: seq<nat>, region: string)
    requires InRange(rows, filtered)
    requires Upper(region) !in {"RIYADH", "TAIF", "JEDDAH", "QASSIM"}
    ensures forall i :: i in SupervisorView(rows, filtered, region) <==>
      (i in filtered && !StartsWith(rows[i].fromBranch, "WH") && !StartsWith(rows[i].toBranch, "WH"))
  {
    SupervisorPrefixUnmapped(region);
  }

  /** `region_transfers`: the supervisor's view, or every filtered row for
      a manager. */
  function Overview(rows: seq<Transfer>, filtered: seq<nat>, role: Role, region: string): (r: seq<nat>)
    requires role == Supervisor || role == Manager
    requires InRange(rows, filtered)
    ensures InRange(rows, r)
    ensures role == Manager ==> r == filtered
    ensures role == Supervisor ==> r == SupervisorView(rows, filtered, region)
    ensures forall i :: i in r ==> i in filtered
  {
    if role == Supervisor then SupervisorView(rows, filtered, region) else filtered
  }

  /** A sum and a count, one row of a group-by summary. */
  datatype Totals = Totals(sum: nat, count: nat)

  function KeyIs<K(==)>(key: Transfer -> K, k: K): Mask { (t: Transfer) => key(t) == k }

  /** `view.groupby(key)["Value"].agg(["sum", "count"])`. */
  function GroupTotals<K(==)>(rows: seq<Transfer>, view: seq<nat>, key: Transfer -> K): (g: map<K, Totals>)
    requires InRange(rows, view)
    ensures forall k :: k in g ==> 0 < g[k].count
    ensures |view| == 0 ==> g == map[]
    decreases |view|
  {
    if view == [] then map[]
    else
      var g := GroupTotals(rows, view[1..], key);
      var t := rows[view[0]];
      var prev := if key(t) in g then g[key(t)] else Totals(0, 0);
      g[key(t) := Totals(prev.sum + t.value, prev.count + 1)]
  }

  /** A group exists exactly for the keys some row of the view has, and it
      holds the sum and the count of the rows with that key. */
  lemma {:induction false} GroupTotalsSpec<K>(rows: seq<Transfer>, view: seq<nat>, key: Transfer -> K, k: K)
    requires InRange(rows, view)
    ensures k in GroupTotals(rows, view, key) <==> Where(rows, view, KeyIs(key, k)) != []
    ensures k in GroupTotals(rows, view, key) ==>
      GroupTotals(rows, view, key)[k]
        == Totals(TotalValue(rows, Where(rows, view, KeyIs(key, k))), |Where(rows, view, KeyIs(key, k))|)
    decreases |view|
  {
    if view != [] {
      GroupTotalsSpec(rows, view[1..], key, k);
    }
  }

  function RegionOf(t: Transfer): RegionLabel { MapRegion(t.fromBranch) }

  /** The key `to_period("M")` gives: year and month of Created At. */
  datatype MonthKey = MonthKey(year: int, month: int)

  function MonthOf(t: Transfer): MonthKey { MonthKey(t.createdAt.date.year, t.createdAt.date.month) }

  /** The region summary: value and count per `map_region` of From Branch. */
  function RegionSummary(rows: seq<Transfer>, view: seq<nat>): (r: map<RegionLabel, Totals>)
    requires InRange(rows, view)
    ensures forall tag :: tag in r <==> Where(rows, view, KeyIs(RegionOf, tag)) != []
    ensures forall tag :: tag in r ==>
      r[tag] == Totals(TotalValue(rows, Where(rows, view, KeyIs(RegionOf, tag))),
                       |Where(rows, view, KeyIs(RegionOf, tag))|)
  {
    forall tag: RegionLabel
      ensures tag in GroupTotals(rows, view, RegionOf) <==> Where(rows, view, KeyIs(RegionOf, tag)) != []
    {
      GroupTotalsSpec(rows, view, RegionOf, tag);
    }
    forall tag: RegionLabel | tag in GroupTotals(rows, view, RegionOf)
      ensures GroupTotals(rows, view, RegionOf)[tag]
              == Totals(TotalValue(rows, Where(rows, view, KeyIs(RegionOf, tag))),
                        |Where(rows, view, KeyIs(RegionOf, tag))|)
    {
      GroupTotalsSpec(rows, view, RegionOf, tag);
    }
    GroupTotals(rows, view, RegionOf)
  }

  /** The monthly summary: value and count per month of Created At. */
  function MonthlySummary(rows: seq<Transfer>, view: seq<nat>): (r: map<MonthKey, Totals>)
    requires InRange(rows, view)
    ensures forall m :: m in r <==> Where(rows, view, KeyIs(MonthOf, m)) != []
    ensures forall m :: m in r ==>
      r[m] == Totals(TotalValue(rows, Where(rows, view, KeyIs(MonthOf, m))),
                     |Where(rows, view, KeyIs(MonthOf, m))|)
  {
    forall m: MonthKey
      ensures m in GroupTotals(rows, view, MonthOf) <==> Where(rows, view, KeyIs(MonthOf, m)) != []
    {
      GroupTotalsSpec(rows, view, MonthOf, m);
    }
    forall m: MonthKey | m in GroupTotals(rows, view, MonthOf)
      ensures GroupTotals(rows, view, MonthOf)[m]
              == Totals(TotalValue(rows, Where(rows, view, KeyIs(MonthOf, m))),
                        |Where(rows, view, KeyIs(MonthOf, m))|)
    {
      GroupTotalsSpec(rows, view, MonthOf, m);
    }
    GroupTotals(rows, view, MonthOf)
  }

  /** The Owner's two metrics: completed (Received) and Pending value.
      Rows that are Picked Up are in neither. */
  datatype OwnerMetrics = OwnerMetrics(completed: nat, pending: nat)

  function OwnerTotals(rows: seq<Transfer>, view: seq<nat>): (m: OwnerMetrics)
    requires InRange(rows, view)
    ensures m.completed == TotalValue(rows, Where(rows, view, IsDone))
    ensures m.pending == TotalValue(rows, Where(rows, view, IsPending))
    ensures m.completed + m.pending + TotalValue(rows, Where(rows, view, IsPickedUp)) == TotalValue(rows, view)
  {
    var open := Where(rows, view, IsOpen);
    SplitView(rows, view, IsDone, IsOpen);
    SplitView(rows, open, IsPending, IsPickedUp);
    WhereWhere(rows, view, IsOpen, IsPending, IsPending);
    WhereWhere(rows, view, IsOpen, IsPickedUp, IsPickedUp);
    OwnerMetrics(TotalValue(rows, Where(rows, view, IsDone)), TotalValue(rows, Where(rows, view, IsPending)))
  }
}
