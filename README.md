# CIRCULA transfer lifecycle in Dafny

CIRCULA is a dashboard for inter-branch inventory transfers:
- a branch creates a transfer to another branch;
- a driver of the right region picks it up, and may route it through the warehouse ("WH"), which puts it back in the pickup pool;
- the destination branch confirms receipt;
- supervisors, managers and the owner watch filtered totals.

All of this lives in one page, `01_Dashboard.py`. The page keeps the Transfers sheet as an in-memory table (`transfers_df`). Rows are addressed by their index label. The create button appends a whole row; the other three buttons rewrite one cell at a time.

The model has seven modules:

- `Text`: the string operations the page calls.
  - `startswith`.
  - A case-insensitive substring test.
  - `strip`, `upper` and `lower`.
  - Python's string order, used by `sorted`.
- `Transfers`: the Transfer and User records and the constants of the page.
  - It also holds the field invariant `WellFormed`.
  - Value is a whole number of halalas (hundredths of a riyal). The smallest accepted amount is 1.00 SAR, the minimum of the Transfer Value input.
  - Timestamps are `DateTime` values. "Now" is a parameter of every operation that stamps a time.
- `Regions`: the lookup tables that turn a region into a branch prefix.
  - The driver's dictionary is case-sensitive.
  - The supervisor's dictionary is keyed by the upper-cased region and has no Meccah entry.
  - `map_region` labels a branch code.
- `Views`: every read-only selection of the page.
  - A view is the list of row labels a boolean mask keeps, in table order. A row of a filtered view still names its row in the full table.
  - It covers the general filters (branch, date, transfer-id search), the four Branch lists, the Branch KPIs, the driver's pickup and holding lists, the Supervisor/Manager overview, the group-by summaries and the Owner metrics.
- `Directory`: the To Branch options of the create form.
  - The placeholder comes first.
  - Then every Branch user's code, once each, sorted, without the acting branch's own code.
- `Lifecycle`: the four row updates as pure functions (`CreateStep`, `PickUpStep`, `PutInWarehouseStep`, `ConfirmReceiptStep`, dispatched by `Apply`). `Run` applies any sequence of actions.
  - An update takes effect only on a row of the list its button is drawn for, because the page creates the button only inside that list's loop.
  - The module's lemmas state each update's effect field by field, and what holds after any sequence of updates.
- `Table`: `transfers_df` as a class, `TransferTable`, with a `rows` field.
  - Its four methods update the rows as the page does. Create appends a row. Pick Up and Put in WH write one field of the row per `.at[...]` assignment. Confirm Receipt makes its two field writes on a copy of the row and then stores the row once.
  - Each method is proved to produce exactly the table and outcome of its `Lifecycle` function, so the `Lifecycle` lemmas carry over to the class.
  - `TransferStory` follows one transfer on the table:
    1. P00-01 creates T1 to P01-02.
    2. A Riyadh driver picks it up and puts it in the warehouse.
    3. P01-02 confirms receipt.
    4. A second confirmation is not offered.

One might expect Driver to be empty once a transfer is Received, since it names the driver currently holding it. The code does not clear it: confirming receipt writes only Status and Received At, so a delivered transfer keeps its driver's name. The model follows the code, `Lifecycle.ReceiptKeepsDriver` states it, and `WellFormed` has no clause about Driver on Received rows.

An action names its row by label. Its `Outcome` is one of:
- `Done`: the table changed.
- `Ignored`: the create form lacked an id or a destination.
- `NotFound`: no row has that label.
- `NotOffered`: the row exists but its button is not drawn.

## Model

| member | source | states |
|---|---|---|
| Text.Contains | 01_Dashboard.py:60 | true exactly when the term occurs in the string at some position |
| Text.Lower | 01_Dashboard.py:60 | same length; every character is lower-cased on its own (ASCII letters) |
| Text.Upper | 01_Dashboard.py:209 | same length; every character is upper-cased on its own (ASCII letters) |
| Text.UpperIdempotent | 01_Dashboard.py:209 | upper-casing twice gives the same key as upper-casing once |
| Text.StartsWith | 01_Dashboard.py:150-151 | `str.startswith`; its properties are stated by Text.EmptyPrefixMatchesAll and Text.SameLengthPrefixesAgree |
| Text.ContainsIgnoringCase | 01_Dashboard.py:60 | `str.contains(term, case=False)` as a substring test on lower-cased strings; its case behaviour is stated by Text.SearchIgnoresTermCase |
| Text.LowerOfUpper | 01_Dashboard.py:60 | lower-casing an upper-cased string is lower-casing it |
| Text.SearchIgnoresTermCase | 01_Dashboard.py:60 | the id search answers the same for the term upper-cased, lower-cased or as typed, and for an upper-cased id |
| Text.Strip | 01_Dashboard.py:46 | the result is the input with only whitespace before and after it, has no whitespace at either end, and is empty only for all-whitespace input |
| Text.StripIdempotent | 01_Dashboard.py:46 | stripping an already stripped term changes nothing |
| Text.EmptyPrefixMatchesAll | 01_Dashboard.py:150-151 | the empty prefix matches every branch code |
| Text.SameLengthPrefixesAgree | 01_Dashboard.py:190-197 | a code starts with at most one of several distinct three-letter prefixes |
| Text.LexLessIrreflexive | 01_Dashboard.py:67 | the string order `sorted` uses is irreflexive |
| Text.LexLessTransitive | 01_Dashboard.py:67 | the string order is transitive |
| Text.LexLessTotal | 01_Dashboard.py:67 | any two different strings are ordered one way or the other |
| Regions.DriverPrefix | 01_Dashboard.py:145 | non-empty exactly for the five dictionary keys, and then a three-letter P0 code; case and scope are stated by Regions.CaseSensitivity, Regions.UnmappedDriverRegionMatchesAll and Regions.PrefixTablesAgree |
| Regions.SupervisorPrefix | 01_Dashboard.py:203-209 | a non-empty result is a three-letter P0 code; its lookup by the upper-cased region is stated by Regions.SupervisorPrefixIgnoresCase, Regions.MeccahOnlyForDrivers, Regions.PrefixTablesAgree and Regions.SupervisorPrefixUnmapped |
| Regions.SupervisorPrefixUnmapped | 01_Dashboard.py:209 | a region whose upper-cased form is none of the four keys gets the empty prefix |
| Regions.MapRegion | 01_Dashboard.py:189-199 | a named label is given only to a code starting with that label's prefix; the full case split is Regions.MapRegionByPrefix |
| Regions.MapRegionByPrefix | 01_Dashboard.py:189-199 | `map_region` gives a named label exactly to the codes starting with that label's prefix, and "other" exactly to codes starting with none of P00..P03 |
| Regions.WarehouseAndMeccahAreOther | 01_Dashboard.py:189-199 | "WH" and every P04 code are labelled "other" |
| Regions.UnmappedDriverRegionMatchesAll | 01_Dashboard.py:145 | a driver region missing from the dictionary gets "", and "" matches every code |
| Regions.CaseSensitivity | 01_Dashboard.py:209 | "riyadh" finds no driver prefix, but finds the supervisor prefix P00 |
| Regions.SupervisorPrefixIgnoresCase | 01_Dashboard.py:209 | the supervisor lookup depends only on the upper-cased region |
| Regions.MeccahOnlyForDrivers | 01_Dashboard.py:203-209 | Meccah drivers are scoped to P04; a Meccah supervisor gets the empty prefix |
| Regions.PrefixTablesAgree | 01_Dashboard.py:203-209 | for the four shared regions, both dictionaries give the prefix `map_region` tests for that region |
| Regions.DriverScopeMatchesMapRegion | 01_Dashboard.py:148-154 | a driver of a named region matches a code exactly when `map_region` gives the code that region |
| Views.AllRows | 01_Dashboard.py:48 | holds every label of the table once, in order |
| Views.Where | 01_Dashboard.py:50-53 | a masked view keeps exactly the labels of the view whose row passes the mask, and is no longer than the view |
| Views.WhereIncreasing | 01_Dashboard.py:48-60 | masking keeps labels unique and in table order |
| Views.TotalValue | 01_Dashboard.py:109-114 | `["Value"].sum()` of a view: 0 for an empty view and at least each row's value; its splitting is Views.SplitView |
| Views.SplitView | 01_Dashboard.py:121-124 | two complementary masks split a view's labels, count and total value between them, with no label in both |
| Views.WhereWhere | 01_Dashboard.py:256-257 | masking a masked view equals masking once with the conjunction |
| Views.TotalZeroIffEmpty | 01_Dashboard.py:109-114 | with positive values, a view totals zero exactly when it is empty |
| Views.SearchTerm | 01_Dashboard.py:46 | the search term is the box text with only whitespace before and after it removed; it is empty (search off) exactly when the box holds only whitespace |
| Views.MakeFilter | 01_Dashboard.py:44-46 | the filter keeps the selected branch and date, and its search term is the box text with only its surrounding whitespace removed, empty exactly when the box is blank |
| Views.BlankSearchBoxFiltersNothing | 01_Dashboard.py:46-60 | with a blank search box the page keeps exactly the rows that pass the branch and date filters |
| Views.IdContains | 01_Dashboard.py:60 | the id-search mask: Text.ContainsIgnoringCase of the Transfer ID; stated through Views.GeneralFilter and Text.SearchIgnoresTermCase |
| Views.WhereIf | 01_Dashboard.py:49-60 | a conditional mask keeps a label exactly when it is in the view and, when the condition holds, passes the mask |
| Views.GeneralFilter | 01_Dashboard.py:48-60 | `filtered_df` holds a row exactly when it passes the branch, date and id-search filters that are set; with a branch selected, every kept row is from or to it |
| Views.Sent | 01_Dashboard.py:105 | exactly the view's rows whose From Branch is the branch |
| Views.ReceivedBy | 01_Dashboard.py:106 | exactly the view's rows whose To Branch is the branch |
| Views.ReceivingPending | 01_Dashboard.py:123 | exactly the view's rows addressed to the branch and not Received |
| Views.SendingPending | 01_Dashboard.py:121 | exactly the view's rows sent by the branch and not Received |
| Views.SentDone | 01_Dashboard.py:122 | exactly the view's rows sent by the branch and Received |
| Views.ReceivedDone | 01_Dashboard.py:124 | exactly the view's rows addressed to the branch and Received |
| Views.BranchPartitions | 01_Dashboard.py:121-124 | sending-pending and sent-done split `sent`; receiving-pending and received-done split `received`; each pair is disjoint and covers its side, and counts and values add up |
| Views.Kpis | 01_Dashboard.py:109-114 | Sent Total and Received Total are the value sums of `sent` and `received`, Pending Sent and Receiving Pending the sums of their non-Received rows, the counts are the list lengths; each total is its pending figure plus its done part, so Pending Sent <= Sent Total and Receiving Pending <= Received Total |
| Views.PendingEqualsTotalIffNoneDone | 01_Dashboard.py:109-114 | with positive values, a pending figure equals its total exactly when none of that side is Received |
| Views.PickupPool | 01_Dashboard.py:148-154 | exactly the Pending rows of the whole table whose From or To Branch starts with the driver's prefix |
| Views.Holding | 01_Dashboard.py:171 | exactly the rows of the whole table with Driver equal to the user and status Picked Up |
| Views.UnmappedDriverSeesAllPending | 01_Dashboard.py:145-154 | a driver of an unmapped region is offered every Pending row |
| Views.PickupScopedByRegion | 01_Dashboard.py:145-154 | a Pending row from P00-12 is offered to a Riyadh driver, and to a Qassim driver only if its To Branch starts with P03 |
| Views.SupervisorView | 01_Dashboard.py:210-215 | exactly the filtered rows from or to the region prefix with neither branch starting with "WH" |
| Views.UnmappedSupervisorSeesAllButWarehouse | 01_Dashboard.py:209-215 | a supervisor of a region the dictionary does not know sees every filtered row with neither branch starting with "WH" |
| Views.Overview | 01_Dashboard.py:202-217 | a manager sees all filtered rows; a supervisor sees exactly Views.SupervisorView of them |
| Views.GroupTotals | 01_Dashboard.py:264 | every group has at least one row and an empty view has no group; the sums and counts are Views.GroupTotalsSpec |
| Views.GroupTotalsSpec | 01_Dashboard.py:264 | a group exists exactly for keys some row has, and holds the sum and count of that key's rows |
| Views.RegionSummary | 01_Dashboard.py:261-265 | one entry per `map_region` label present, holding that label's total value and count |
| Views.MonthlySummary | 01_Dashboard.py:268-269 | one entry per month present, holding that month's total value and count |
| Views.OwnerTotals | 01_Dashboard.py:256-257 | completed is the value sum of the Received rows and pending that of the Pending rows; with the Picked Up total they add up to the view's total value |
| Directory.InsertSorted | 01_Dashboard.py:67 | inserting keeps the list strictly sorted and adds exactly the new code |
| Directory.BranchCodes | 01_Dashboard.py:67 | strictly sorted, and holds exactly the codes of Branch-role users |
| Directory.Without | 01_Dashboard.py:68 | removes exactly the given code and keeps the list strictly sorted |
| Directory.ToBranchOptions | 01_Dashboard.py:67-69 | placeholder first, then a strictly sorted list of exactly the other branches' codes, never the acting branch's own |
| Transfers.WellFormed | 01_Dashboard.py:76-181 | the field invariant of a row; that every update keeps it is Lifecycle.ApplyKeepsWellFormed and Lifecycle.RunKeepsWellFormed |
| Lifecycle.CreateStep | 01_Dashboard.py:76-92 | either appends one row and keeps the others, or is Ignored and changes nothing; the new row is Lifecycle.CreateEffect |
| Lifecycle.PickUpStep | 01_Dashboard.py:156-163 | a Done pickup changed only its Pending row, any other outcome nothing; field by field in Lifecycle.PickUpEffect |
| Lifecycle.PutInWarehouseStep | 01_Dashboard.py:172-181 | a Done re-route changed only its Picked Up row, any other outcome nothing; field by field in Lifecycle.PutInWarehouseEffect |
| Lifecycle.ReceiptOffered | 01_Dashboard.py:131-134 | the row is in Receiving Pending of the filtered table; spelt out in Lifecycle.ConfirmReceiptEffect |
| Lifecycle.ConfirmReceiptStep | 01_Dashboard.py:131-136 | a Done receipt changed only its non-Received row, any other outcome nothing; field by field in Lifecycle.ConfirmReceiptEffect |
| Lifecycle.Apply | 01_Dashboard.py:76-181 | a button press never removes a row, changes nothing unless Done, and when Done appends one row or rewrites one row |
| Lifecycle.Run | 01_Dashboard.py:76-181 | a sequence of presses never shortens the table; its invariants are Lifecycle.RunKeepsWellFormed and Lifecycle.RunKeepsHistory |
| Lifecycle.CreateEffect | 01_Dashboard.py:76-92 | create appends exactly one row at label `len` iff the id is non-empty and a destination is chosen; the new row is Pending, from the acting branch, with no pickup, receipt, driver, WH mark or attachment; otherwise nothing changes |
| Lifecycle.CreateAcceptsDuplicateId | 01_Dashboard.py:76-92 | an id already in the table is accepted again, giving two rows with that id |
| Lifecycle.CreateFromOptionsCrossesBranches | 01_Dashboard.py:68-69 | a destination from the To Branch options is never the acting branch |
| Lifecycle.PickUpEffect | 01_Dashboard.py:145-163 | pickup succeeds iff the row is Pending and either branch starts with the driver's prefix; it sets Picked Up, the pickup time and the driver, and changes nothing else |
| Lifecycle.PickUpTwiceRejected | 01_Dashboard.py:148-163 | a picked-up row is not offered for pickup again, to any driver |
| Lifecycle.PutInWarehouseEffect | 01_Dashboard.py:171-181 | re-route succeeds iff the acting driver holds the row in Picked Up; it sets From Branch WH, Pending, Handled By WH, clears pickup time and driver, and keeps every other field and row |
| Lifecycle.WarehouseNeedsHolder | 01_Dashboard.py:171 | a driver who is not the row's Driver cannot re-route it |
| Lifecycle.RequeuedAfterWarehouse | 01_Dashboard.py:148-154 | after a re-route, the row is in the pickup list of every driver whose prefix its To Branch starts with |
| Lifecycle.WarehouseLeavesSupervisorViews | 01_Dashboard.py:210-215 | after a re-route, the row is in no supervisor's overview under any filter |
| Lifecycle.ConfirmReceiptEffect | 01_Dashboard.py:131-136 | receipt succeeds iff the row passes the filters, is addressed to the branch and is not Received; it sets Received and Received At, keeps Driver and every other field and row |
| Lifecycle.ReceivedIsTerminal | 01_Dashboard.py:123-171 | a Received row is offered to no pickup, re-route or receipt button |
| Lifecycle.ReceiptKeepsDriver | 01_Dashboard.py:134-136 | a Picked Up transfer that passes the filters and is confirmed by its destination becomes Received and keeps its non-empty Driver |
| Lifecycle.ApplyKeepsWellFormed | 01_Dashboard.py:76-181 | every update keeps the field invariant of every row |
| Lifecycle.ApplyKeepsHistory | 01_Dashboard.py:76-181 | every update keeps every row and its fixed fields, moves From Branch only to WH, never clears Handled By WH, and leaves a Received row untouched |
| Lifecycle.HistoryTransitive | 01_Dashboard.py:76-181 | the row-history relation composes across consecutive tables |
| Lifecycle.RunKeepsWellFormed | 01_Dashboard.py:76-181 | after any sequence of updates, every row has value >= 1.00, Received At set exactly when Received, no driver or pickup time while Pending, and a pickup time while Picked Up |
| Lifecycle.RunKeepsHistory | 01_Dashboard.py:76-181 | after any sequence of updates, no row is lost, fixed fields never change, From Branch only becomes WH, Handled By WH stays set, and Received rows are frozen |
| Table.TransferTable.constructor | 01_Dashboard.py:21 | the table holds the loaded rows |
| Table.TransferTable.Create | 01_Dashboard.py:76-92 | the new rows and outcome are those of `Lifecycle.CreateStep` on the old rows |
| Table.TransferTable.PickUp | 01_Dashboard.py:156-163 | the new rows and outcome are those of `Lifecycle.PickUpStep` on the old rows |
| Table.TransferTable.PutInWarehouse | 01_Dashboard.py:172-181 | the new rows and outcome are those of `Lifecycle.PutInWarehouseStep` on the old rows |
| Table.TransferTable.ConfirmReceipt | 01_Dashboard.py:131-136 | the new rows and outcome are those of `Lifecycle.ConfirmReceiptStep` on the old rows |

## Left out

- Streamlit widgets, expanders, `st.rerun`, session state and the logo (01_Dashboard.py:8-30, 279-281). These are presentation. The acting user's name, role, region and branch code are parameters.
- Excel persistence: `read_excel` and `save_transfers` (01_Dashboard.py:20-22, 33-35). These are file I/O. The table is in-memory state, and every save is taken to succeed.
- Counts versus sums. The Supervisor/Manager charts (01_Dashboard.py:227-234) and the Owner's charts (01_Dashboard.py:268-276) use sums only; `RegionSummary` and `MonthlySummary` also carry the counts that the Owner's region table shows (01_Dashboard.py:264). Plotly, the bar charts and the `mode()` "Most From" metric (01_Dashboard.py:115) are presentation and library calls.
- `get_days_diff` (01_Dashboard.py:37-39). It is unused and reads the wall clock.
- Floating-point Values and `:,.2f` formatting. Values are whole halalas.
- The choices of the branch filter select box (01_Dashboard.py:43-44). The selected value is an input of `Filter`.
- Date parsing by `pd.to_datetime` and `to_period("M")` (01_Dashboard.py:56-57, 223-224, 268). Created At is already a `DateTime`, and the month key is its year and month.
- Views.IdContains: pandas `str.contains` treats the term as a regular expression. It is modelled as a literal substring test, because the page uses it as an id search and regular-expression matching is outside the model.
- Text.Lower: only ASCII letters are lower-cased. `str.contains(case=False)` folds the case of every Unicode letter, so an id that matches the search term only under Unicode case folding is not found by the model.
- Text.Upper: only ASCII letters are upper-cased. Python's `str.upper` maps every Unicode letter, and `"rıyadh".upper()` is `"RIYADH"`, so Python gives that supervisor region the prefix P00 where the model's `Regions.SupervisorPrefix` gives "".
- Text.Strip: only ASCII whitespace is stripped. Python also strips Unicode spaces.
- Missing (NaN) cells of the sheet. Every field has a value; an empty Driver is "", and Handled By WH is a bool for "" / "Yes".
- The password column of the Users sheet, and the pages 00_Login.py, Home.py and 99_Logout.py. These are UI and a credential lookup outside the transfer lifecycle.
- Concurrency between sessions and last-writer-wins on the sheet. The model is one session's sequence of actions.
