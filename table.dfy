/** `transfers_df` as an object: a table of rows that the four buttons of
    the dashboard update in place, one cell at a time. Each method does
    what `Lifecycle.Apply` says of its action, so every lemma of that
    module applies to the table after any sequence of calls. */
module Table {
  import opened Text
  import opened Transfers
  import opened Regions
  import opened Views
  import opened Lifecycle

  class TransferTable {
    var rows: seq<Transfer>

    /** The table as loaded from the Transfers sheet. */
    constructor (loaded: seq<Transfer>)
      ensures rows == loaded
    {
      rows := loaded;
    }

    /** Submit Transfer: `transfers_df.loc[len(transfers_df)] = new_transfer`. */
    method Create(branchCode: string, transferId: string, toBranch: string, value: Amount,
                  kind: TransferKind, notes: string, now: DateTime) returns (outcome: Outcome)
      modifies this
      ensures Step(rows, outcome)
              == CreateStep(old(rows), branchCode, transferId, toBranch, value, kind, notes, now)
    {
      if transferId != "" && toBranch != SelectPlaceholder {
        var newTransfer := Transfer(transferId, branchCode, toBranch, value, kind, Pending, now,
                                    None, None, "", false, "", notes);
        rows := rows + [newTransfer];
        outcome := Done;
      } else {
        outcome := Ignored;
      }
    }

    /** Pick Up on row `i` of the driver's pending list. */
    method PickUp(i: nat, region: string, username: string, now: DateTime) returns (outcome: Outcome)
      modifies this
      ensures Step(rows, outcome) == PickUpStep(old(rows), i, region, username, now)
    {
      if i >= |rows| {
        return NotFound;
      }
      var prefix := DriverPrefix(region);
      var pending := PickupPool(rows, prefix);
      if i !in pending {
        return NotOffered;
      }
      rows := rows[i := rows[i].(status := PickedUp)];
      rows := rows[i := rows[i].(pickedUpAt := Some(now))];
      rows := rows[i := rows[i].(driver := username)];
      outcome := Done;
    }

    /** Put in WH on row `i` of the driver's holding list. */
    method PutInWarehouse(i: nat, username: string) returns (outcome: Outcome)
      modifies this
      ensures Step(rows, outcome) == PutInWarehouseStep(old(rows), i, username)
    {
      if i >= |rows| {
        return NotFound;
      }
      var holding := Holding(rows, username);
      if i !in holding {
        return NotOffered;
      }
      rows := rows[i := rows[i].(fromBranch := Warehouse)];
      rows := rows[i := rows[i].(status := Pending)];
      rows := rows[i := rows[i].(handledByWh := true)];
      rows := rows[i := rows[i].(pickedUpAt := None)];
      rows := rows[i := rows[i].(driver := "")];
      outcome := Done;
    }

    /** Confirm Receipt on row `i` of the branch's Receiving Pending list,
        which is taken from the generally filtered rows. */
    method ConfirmReceipt(i: nat, branchCode: string, f: Filter, now: DateTime) returns (outcome: Outcome)
      modifies this
      ensures Step(rows, outcome) == ConfirmReceiptStep(old(rows), i, branchCode, f, now)
    {
      if i >= |rows| {
        return NotFound;
      }
      if !ReceiptOffered(rows, i, branchCode, f) {
        return NotOffered;
      }
      var row := rows[i].(status := Received);
      row := row.(receivedAt := Some(now));
      rows := rows[i := row];
      outcome := Done;
    }
  }

  /** The four-step story of one transfer: branch P00-01 sends T1 to
      P01-02, a Riyadh driver picks it up and puts it in the warehouse,
      P01-02 confirms receipt, and a second confirmation is refused. */
  method TransferStory(t0: DateTime, t1: DateTime, t2: DateTime)
  {
    var table := new TransferTable([]);
    var outcome := table.Create("P00-01", "T1", "P01-02", 50000, Normal, "", t0);
    assert outcome == Done && |table.rows| == 1;
    assert table.rows[0].status == Pending && table.rows[0].value == 50000;

    assert StartsWith(table.rows[0].fromBranch, DriverPrefix("Riyadh"));
    outcome := table.PickUp(0, "Riyadh", "driver1", t1);
    assert outcome == Done;
    assert table.rows[0].status == PickedUp && table.rows[0].driver == "driver1";

    outcome := table.PutInWarehouse(0, "driver1");
    assert outcome == Done;
    assert table.rows[0].fromBranch == "WH" && table.rows[0].status == Pending;
    assert table.rows[0].handledByWh && table.rows[0].driver == "";

    var noFilter := Filter(AllBranches, None, "");
    assert Passes(noFilter, table.rows[0]);
    outcome := table.ConfirmReceipt(0, "P01-02", noFilter, t2);
    assert outcome == Done;
    assert table.rows[0].status == Received && table.rows[0].receivedAt == Some(t2);

    outcome := table.ConfirmReceipt(0, "P01-02", noFilter, t2);
    assert outcome == NotOffered;
  }
}
