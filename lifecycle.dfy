/** The four row updates of the dashboard as a function from a table and
    an action to the new table, and what they guarantee alone and over
    any sequence of actions. An action names a row by its label in the
    table; it takes effect only when that row is in the list its button is
    rendered for, exactly as a button exists only inside that loop. */
module Lifecycle {
  import opened Text
  import opened Transfers
  import opened Regions
  import opened Views
  import opened Directory

  /** A button press with the session values it reads. */
  datatype Action =
    | Create(branchCode: string, transferId: string, toBranch: string, value: Amount,
             kind: TransferKind, notes: string, now: DateTime)
    | PickUp(index: nat, region: string, username: string, now: DateTime)
    | PutInWarehouse(index: nat, username: string)
    | ConfirmReceipt(index: nat, branchCode: string, filter: Filter, now: DateTime)

  /** Done: the table changed. Ignored: the create form lacked an id or a
      destination. NotFound: no row has that label. NotOffered: the row
      exists but its button is not shown. */
  datatype Outcome = Done | Ignored | NotFound | NotOffered

  datatype Step = Step(rows: seq<Transfer>, outcome: Outcome)

  /** The submit guard of the create form. */
  predicate CreateAccepted(transferId: string, toBranch: string)
  {
    transferId != "" && toBranch != SelectPlaceholder
  }

  /** The `new_transfer` record. */
  function NewTransfer(branchCode: string, transferId: string, toBranch: string, value: Amount,
                       kind: TransferKind, notes: string, now: DateTime): Transfer
  {
    Transfer(transferId, branchCode, toBranch, value, kind, Pending, now,
             None, None, "", false, "", notes)
  }

  function AfterPickUp(t: Transfer, username: string, now: DateTime): Transfer
  {
    t.(status := PickedUp, pickedUpAt := Some(now), driver := username)
  }

  function AfterWarehouse(t: Transfer): Transfer
  {
    t.(fromBranch := Warehouse, status := Pending, handledByWh := true, pickedUpAt := None, driver := "")
  }

  function AfterReceipt(t: Transfer, now: DateTime): Transfer
  {
    t.(status := Received, receivedAt := Some(now))
  }

  /** Submit Transfer on the create form. */
  function CreateStep(rows: seq<Transfer>, code: string, id: string, to: string, value: Amount,
                      kind: TransferKind, notes: string, now: DateTime): (s: Step)
    ensures s.outcome == Done || (s.outcome == Ignored && s.rows == rows)
    ensures s.outcome == Done ==> |s.rows| == |rows| + 1 && s.rows[..|rows|] == rows
  {
    if CreateAccepted(id, to) then Step(rows + [NewTransfer(code, id, to, value, kind, notes, now)], Done)
    else Step(rows, Ignored)
  }

  /** Pick Up, offered for the rows of the driver's pending list. */
  function PickUpStep(rows: seq<Transfer>, i: nat, region: string, username: string, now: DateTime): (s: Step)
    ensures s.outcome != Done ==> s.rows == rows
    ensures s.outcome == Done ==> OnlyRowChanged(rows, s.rows, i) && rows[i].status == Pending
  {
    if i >= |rows| then Step(rows, NotFound)
    else if i !in PickupPool(rows, DriverPrefix(region)) then Step(rows, NotOffered)
    else Step(rows[i := AfterPickUp(rows[i], username, now)], Done)
  }

  /** Put in WH, offered for the rows the driver holds. */
  function PutInWarehouseStep(rows: seq<Transfer>, i: nat, username: string): (s: Step)
    ensures s.outcome != Done ==> s.rows == rows
    ensures s.outcome == Done ==> OnlyRowChanged(rows, s.rows, i) && rows[i].status == PickedUp
  {
    if i >= |rows| then Step(rows, NotFound)
    else if i !in Holding(rows, username) then Step(rows, NotOffered)
    else Step(rows[i := AfterWarehouse(rows[i])], Done)
  }

  /** Confirm Receipt, offered for the branch's Receiving Pending rows of
      the filtered table. */
  function ConfirmReceiptStep(rows: seq<Transfer>, i: nat, code: string, f: Filter, now: DateTime): (s: Step)
    ensures s.outcome != Done ==> s.rows == rows
    ensures s.outcome == Done ==> OnlyRowChanged(rows, s.rows, i) && rows[i].status != Received
  {
    if i >= |rows| then Step(rows, NotFound)
    else if !ReceiptOffered(rows, i, code, f) then Step(rows, NotOffered)
    else Step(rows[i := AfterReceipt(rows[i], now)], Done)
  }

  /** Whether Confirm Receipt is offered for row `i`. */
  predicate ReceiptOffered(rows: seq<Transfer>, i: nat, code: string, f: Filter)
    requires i < |rows|
  {
    i in ReceivingPending(rows, GeneralFilter(rows, f), code)
  }

  /** One button press: it appends one row or rewrites one row in place,
      and a press that is not Done changes nothing. */
  function Apply(rows: seq<Transfer>, a: Action): (s: Step)
    ensures |rows| <= |s.rows|
    ensures s.outcome != Done ==> s.rows == rows
    ensures s.outcome == Done ==>
      (|s.rows| == |rows| + 1 && s.rows[..|rows|] == rows) || exists i :: OnlyRowChanged(rows, s.rows, i)
  {
    match a
    case Create(code, id, to, value, kind, notes, now) => CreateStep(rows, code, id, to, value, kind, notes, now)
    case PickUp(i, region, username, now) => PickUpStep(rows, i, region, username, now)
    case PutInWarehouse(i, username) => PutInWarehouseStep(rows, i, username)
    case ConfirmReceipt(i, code, f, now) => ConfirmReceiptStep(rows, i, code, f, now)
  }

  /** The table after a sequence of actions, one after the other. */
  function Run(rows: seq<Transfer>, actions: seq<Action>): (r: seq<Transfer>)
    ensures |rows| <= |r|
    decreases |actions|
  {
    if actions == [] then rows else Run(Apply(rows, actions[0]).rows, actions[1..])
  }

  /** Row `i` alone differs between the two tables. */
  predicate OnlyRowChanged(before: seq<Transfer>, after: seq<Transfer>, i: nat)
  {
    |after| == |before| && i < |before| &&
    forall j :: 0 <= j < |before| && j != i ==> after[j] == before[j]
  }

  // ---- one action ----

  /** Create appends exactly one row, at label `|rows|`, whenever the id is
      non-empty and a destination is chosen, whatever ids the table holds;
      the new row is Pending, comes from the acting branch and has no
      pickup, receipt, driver, warehouse mark or attachment. Otherwise the
      table is unchanged. */
  lemma CreateEffect(rows: seq<Transfer>, code: string, id: string, to: string, value: Amount,
                     kind: TransferKind, notes: string, now: DateTime)
    ensures var s := Apply(rows, Create(code, id, to, value, kind, notes, now));
      && (s.outcome == Done <==> id != "" && to != SelectPlaceholder)
      && (s.outcome != Done ==> s.outcome == Ignored && s.rows == rows)
      && (s.outcome == Done ==>
            && |s.rows| == |rows| + 1 && s.rows[..|rows|] == rows
            && var t := s.rows[|rows|];
               && t.transferId == id && t.fromBranch == code && t.toBranch == to
               && t.value == value && t.kind == kind && t.notes == notes
               && t.status == Pending && t.createdAt == now
               && t.pickedUpAt == None && t.receivedAt == None
               && t.driver == "" && !t.handledByWh && t.attachment == "")
  {
  }

  /** No uniqueness check: a create whose id some row already has still
      appends, and the table then holds two rows with that id. */
  lemma CreateAcceptsDuplicateId(rows: seq<Transfer>, j: nat, code: string, to: string, value: Amount,
                                 kind: TransferKind, notes: string, now: DateTime)
    requires j < |rows| && rows[j].transferId != "" && to != SelectPlaceholder
    ensures var s := Apply(rows, Create(code, rows[j].transferId, to, value, kind, notes, now));
      s.outcome == Done && s.rows[j].transferId == s.rows[|rows|].transferId && j != |rows|
  {
  }

  /** A destination taken from the To Branch options is never the acting
      branch itself. */
  lemma CreateFromOptionsCrossesBranches(users: seq<User>, rows: seq<Transfer>, code: string, id: string,
                                         to: string, value: Amount, kind: TransferKind, notes: string,
                                         now: DateTime)
    requires to in ToBranchOptions(users, code)
    ensures var s := Apply(rows, Create(code, id, to, value, kind, notes, now));
      s.outcome == Done ==> s.rows[|rows|].toBranch != s.rows[|rows|].fromBranch
  {
    var options := ToBranchOptions(users, code);
    if to != SelectPlaceholder {
      var k :| 0 <= k < |options| && options[k] == to;
      assert k > 0;
      assert options[1..][k - 1] == to;
    }
  }

  /** Pickup succeeds exactly on an existing Pending row whose From Branch
      or To Branch starts with the driver's prefix; it then sets Status
      Picked Up, Picked Up At to now and Driver to the driver's name, and
      changes no other field and no other row. */
  lemma PickUpEffect(rows: seq<Transfer>, i: nat, region: string, username: string, now: DateTime)
    ensures var s := Apply(rows, PickUp(i, region, username, now));
      var p := DriverPrefix(region);
      && (s.outcome == Done <==>
            i < |rows| && rows[i].status == Pending
            && (StartsWith(rows[i].fromBranch, p) || StartsWith(rows[i].toBranch, p)))
      && (s.outcome != Done ==> s.rows == rows)
      && (s.outcome == Done ==>
            && OnlyRowChanged(rows, s.rows, i)
            && s.rows[i].status == PickedUp && s.rows[i].pickedUpAt == Some(now)
            && s.rows[i].driver == username
            && SameFixedFields(s.rows[i], rows[i])
            && s.rows[i].fromBranch == rows[i].fromBranch
            && s.rows[i].receivedAt == rows[i].receivedAt
            && s.rows[i].handledByWh == rows[i].handledByWh)
  {
  }

  /** A second pickup of the same row, by any driver, is not offered. */
  lemma PickUpTwiceRejected(rows: seq<Transfer>, i: nat, region: string, username: string, now: DateTime,
                            region2: string, username2: string, now2: DateTime)
    requires Apply(rows, PickUp(i, region, username, now)).outcome == Done
    ensures Apply(Apply(rows, PickUp(i, region, username, now)).rows, PickUp(i, region2, username2, now2)).outcome
            == NotOffered
  {
  }

  /** The warehouse re-route succeeds exactly on an existing row that the
      acting driver holds in status Picked Up; it sets From Branch "WH",
      Status Pending, Handled By WH, clears Picked Up At and Driver, and
      changes nothing else. */
  lemma PutInWarehouseEffect(rows: seq<Transfer>, i: nat, username: string)
    ensures var s := Apply(rows, PutInWarehouse(i, username));
      && (s.outcome == Done <==> i < |rows| && rows[i].driver == username && rows[i].status == PickedUp)
      && (s.outcome != Done ==> s.rows == rows)
      && (s.outcome == Done ==>
            && OnlyRowChanged(rows, s.rows, i)
            && s.rows[i].fromBranch == Warehouse && s.rows[i].status == Pending
            && s.rows[i].handledByWh && s.rows[i].pickedUpAt == None && s.rows[i].driver == ""
            && SameFixedFields(s.rows[i], rows[i])
            && s.rows[i].receivedAt == rows[i].receivedAt)
  {
  }

  /** Only the holder can re-route: a driver other than the row's Driver
      is refused. */
  lemma WarehouseNeedsHolder(rows: seq<Transfer>, i: nat, username: string)
    requires i < |rows| && rows[i].driver != username
    ensures Apply(rows, PutInWarehouse(i, username)).outcome == NotOffered
  {
  }

  /** After a re-route the row is back in the pickup pool of every driver
      whose prefix its To Branch starts with. */
  lemma RequeuedAfterWarehouse(rows: seq<Transfer>, i: nat, username: string, region: string)
    requires Apply(rows, PutInWarehouse(i, username)).outcome == Done
    requires StartsWith(rows[i].toBranch, DriverPrefix(region))
    ensures i in PickupPool(Apply(rows, PutInWarehouse(i, username)).rows, DriverPrefix(region))
  {
  }

  /** After a re-route the row leaves every supervisor's overview, whatever
      the filters, because its From Branch now starts with "WH". */
  lemma WarehouseLeavesSupervisorViews(rows: seq<Transfer>, i: nat, username: string, f: Filter, region: string)
    requires Apply(rows, PutInWarehouse(i, username)).outcome == Done
    ensures var after := Apply(rows, PutInWarehouse(i, username)).rows;
      i !in SupervisorView(after, GeneralFilter(after, f), region)
  {
    var after := Apply(rows, PutInWarehouse(i, username)).rows;
    assert StartsWith(after[i].fromBranch, "WH");
  }

  /** Receipt succeeds exactly on a row of the filtered view addressed to
      the acting branch and not yet Received; it sets Status Received and
      Received At to now and leaves every other field, Driver included,
      and every other row as they were. */
  lemma ConfirmReceiptEffect(rows: seq<Transfer>, i: nat, code: string, f: Filter, now: DateTime)
    ensures var s := Apply(rows, ConfirmReceipt(i, code, f, now));
      && (s.outcome == Done <==>
            i < |rows| && Passes(f, rows[i]) && rows[i].toBranch == code && rows[i].status != Received)
      && (s.outcome != Done ==> s.rows == rows)
      && (s.outcome == Done ==>
            && OnlyRowChanged(rows, s.rows, i)
            && s.rows[i].status == Received && s.rows[i].receivedAt == Some(now)
            && s.rows[i].driver == rows[i].driver
            && SameFixedFields(s.rows[i], rows[i])
            && s.rows[i].fromBranch == rows[i].fromBranch
            && s.rows[i].pickedUpAt == rows[i].pickedUpAt
            && s.rows[i].handledByWh == rows[i].handledByWh)
  {
  }

  /** A Received row is offered to no button: not for pickup, not for
      re-route, not for another receipt. */
  lemma ReceivedIsTerminal(rows: seq<Transfer>, i: nat, a: Action)
    requires i < |rows| && rows[i].status == Received
    requires a.PickUp? || a.PutInWarehouse? || a.ConfirmReceipt?
    requires a.index == i
    ensures Apply(rows, a).outcome == NotOffered
  {
  }

  /** One action keeps the field invariant of every row. */
  lemma {:induction false} ApplyKeepsWellFormed(rows: seq<Transfer>, a: Action)
    requires AllWellFormed(rows)
    ensures AllWellFormed(Apply(rows, a).rows)
  {
    var after := Apply(rows, a).rows;
    forall j | 0 <= j < |after|
      ensures WellFormed(after[j])
    {
      if j >= |rows| || after[j] != rows[j] {
        match a
        case Create(_, _, _, _, _, _, _) =>
        case PickUp(i, region, _, _) =>
          assert i in PickupPool(rows, DriverPrefix(region));
        case PutInWarehouse(i, username) =>
          assert i in Holding(rows, username);
        case ConfirmReceipt(i, _, _, _) =>
      }
    }
  }

  /** What may happen to one row between two tables: its fixed fields
      stay, its From Branch stays or becomes "WH", Handled By WH stays
      set, and a Received row stays exactly as it is. */
  predicate RowHistory(before: Transfer, after: Transfer)
  {
    && SameFixedFields(after, before)
    && (after.fromBranch == before.fromBranch || after.fromBranch == Warehouse)
    && (before.handledByWh ==> after.handledByWh)
    && (before.status == Received ==> after == before)
  }

  /** No row is removed and each one moves only as `RowHistory` allows. */
  predicate History(before: seq<Transfer>, after: seq<Transfer>)
  {
    |before| <= |after| && forall j :: 0 <= j < |before| ==> RowHistory(before[j], after[j])
  }

  /** One action keeps every existing row and its fixed fields, moves a
      From Branch only to "WH", never clears Handled By WH, and leaves a
      Received row exactly as it was. */
  lemma {:induction false} ApplyKeepsHistory(rows: seq<Transfer>, a: Action)
    ensures History(rows, Apply(rows, a).rows)
  {
    var after := Apply(rows, a).rows;
    forall j | 0 <= j < |rows|
      ensures RowHistory(rows[j], after[j])
    {
      if after[j] != rows[j] {
        match a
        case Create(_, _, _, _, _, _, _) =>
        case PickUp(i, region, _, _) =>
          assert i in PickupPool(rows, DriverPrefix(region));
        case PutInWarehouse(i, username) =>
          assert i in Holding(rows, username);
        case ConfirmReceipt(i, code, f, _) =>
          assert i in ReceivingPending(rows, GeneralFilter(rows, f), code);
      }
    }
  }

  lemma {:induction false} HistoryTransitive(a: seq<Transfer>, b: seq<Transfer>, c: seq<Transfer>)
    requires History(a, b) && History(b, c)
    ensures History(a, c)
  {
    forall j | 0 <= j < |a|
      ensures RowHistory(a[j], c[j])
    {
      assert RowHistory(a[j], b[j]) && RowHistory(b[j], c[j]);
    }
  }

  // ---- any sequence of actions ----

  /** Every row of every reachable table satisfies the field invariant:
      a value of at least 1.00, Received At set exactly when Received, no
      driver and no pickup time while Pending, a pickup time while Picked
      Up. */
  lemma {:induction false} RunKeepsWellFormed(rows: seq<Transfer>, actions: seq<Action>)
    requires AllWellFormed(rows)
    ensures AllWellFormed(Run(rows, actions))
    decreases |actions|
  {
    if actions != [] {
      ApplyKeepsWellFormed(rows, actions[0]);
      RunKeepsWellFormed(Apply(rows, actions[0]).rows, actions[1..]);
    }
  }

  /** Rows are never removed; the id, destination, value, type, creation
      time, attachment and notes of a row never change; its From Branch
      only ever becomes "WH"; Handled By WH stays set once set; and a
      Received row, its Received At included, is never touched again. */
  lemma {:induction false} RunKeepsHistory(rows: seq<Transfer>, actions: seq<Action>)
    ensures History(rows, Run(rows, actions))
    decreases |actions|
  {
    if actions == [] {
      assert forall j :: 0 <= j < |rows| ==> RowHistory(rows[j], rows[j]);
    } else {
      var mid := Apply(rows, actions[0]).rows;
      ApplyKeepsHistory(rows, actions[0]);
      RunKeepsHistory(mid, actions[1..]);
      HistoryTransitive(rows, mid, Run(rows, actions));
    }
  }

  /** The code keeps Driver on receipt, so a transfer that was picked up
      and is then received by its destination branch from the filtered
      list is Received with its driver's non-empty name: the
      invariant "Driver is set only while Picked Up" does not hold. */
  lemma ReceiptKeepsDriver(rows: seq<Transfer>, i: nat, code: string, f: Filter, now: DateTime)
    requires i < |rows| && rows[i].status == PickedUp && rows[i].driver != ""
    requires Passes(f, rows[i]) && rows[i].toBranch == code
    ensures var s := Apply(rows, ConfirmReceipt(i, code, f, now));
      s.outcome == Done && s.rows[i].status == Received && s.rows[i].driver == rows[i].driver
  {
    ConfirmReceiptEffect(rows, i, code, f, now);
  }
}
