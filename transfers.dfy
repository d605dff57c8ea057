/** The rows of the Transfers sheet and the Users sheet, and the
    field-level invariant the lifecycle keeps on a transfer. */
module Transfers {

  datatype Option<T> = None | Some(value: T)

  /** The three values the Status column takes. */
  datatype Status = Pending | PickedUp | Received

  /** The three options of the Transfer Type select box. */
  datatype TransferKind = Normal | Return | Recall

  datatype Date = Date(year: int, month: int, day: int)

  /** A moment: its calendar date and the second of that day. */
  datatype DateTime = DateTime(date: Date, second: nat)

  /** One row of the Transfers sheet. `value` is in halalas (hundredths
      of a riyal); `handledByWh` is the "Handled By WH" column, which
      holds "" or "Yes". */
  datatype Transfer = Transfer(
    transferId: string,
    fromBranch: string,
    toBranch: string,
    value: nat,
    kind: TransferKind,
    status: Status,
    createdAt: DateTime,
    pickedUpAt: Option<DateTime>,
    receivedAt: Option<DateTime>,
    driver: string,
    handledByWh: bool,
    attachment: string,
    notes: string)

  datatype Role = Branch | Driver | Supervisor | Manager | Owner

  /** One row of the Users sheet, without its password column (only the
      login page reads it). */
  datatype User = User(username: string, role: Role, region: string, branchCode: string)

  /** The smallest amount the Transfer Value input accepts: 1.00 SAR. */
  const MinValue: nat := 100

  /** An amount the Transfer Value input can produce. */
  type Amount = v: nat | MinValue <= v witness MinValue

  /** The placeholder first entry of the To Branch select box. */
  const SelectPlaceholder: string := "Select..."

  /** The From Branch code a warehouse re-route writes. */
  const Warehouse: string := "WH"

  /** The first entry of the branch filter, meaning "no branch filter". */
  const AllBranches: string := "All"

  /** The field invariant every operation keeps: the value is at least the
      input minimum, Received At is set exactly when the status is
      Received, a Pending row has no pickup time and no driver, a
      Picked Up row has a pickup time. */
  predicate WellFormed(t: Transfer)
  {
    && MinValue <= t.value
    && (t.receivedAt.Some? <==> t.status == Received)
    && (t.status == Pending ==> t.pickedUpAt.None? && t.driver == "")
    && (t.status == PickedUp ==> t.pickedUpAt.Some?)
  }

  predicate AllWellFormed(rows: seq<Transfer>)
  {
    forall i :: 0 <= i < |rows| ==> WellFormed(rows[i])
  }

  /** The fields no operation ever writes after creation. */
  predicate SameFixedFields(a: Transfer, b: Transfer)
  {
    && a.transferId == b.transferId
    && a.toBranch == b.toBranch
    && a.value == b.value
    && a.kind == b.kind
    && a.createdAt == b.createdAt
    && a.attachment == b.attachment
    && a.notes == b.notes
  }
}
