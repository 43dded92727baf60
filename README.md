# Savings-goal tracker (celenganku) in Dafny

A model of the state and logic of `script.js`, a browser savings-goal tracker.
The user creates savings targets, each with a goal, a planned amount per period
and a frequency label (Harian, Mingguan, Bulanan). The user deposits
("nabung") and withdraws against a target. The home view lists the targets of
the active tab, which is "active" or "complete", sorted by name or goal. The
detail view shows one target's figures, its estimation and its history, newest
first.

Modules, one per component of the script:

- `Records` (records.dfy): the record and history-entry data model and the
  balance of a history log. Also the record-level effects of a deposit, a
  withdrawal, a create and an edit. The record invariant `WellFormed` says
  `collected >= 0`, and `collected` equals the sum of the `"add"` amounts
  minus the sum of the `"subtract"` amounts. It also says every entry is
  positive and no prefix of the log was ever overdrawn.
- `Estimation` (estimation.dfy): `calculateEstimation` as a datatype result,
  either `Reached` or a period count with a unit.
- `Listing` (listing.dfy): the tab filter and the sort comparator of
  `renderHome`. The sort is modelled as a stable insertion sort, because
  `Array.prototype.sort` is stable. It is proved to be a permutation that is
  ordered by the comparator.
- `Detail` (detail.dfy): the figures `openDetail` derives. These are the
  clamped remaining amount, the estimation and the newest-first history.
- `SavingsStore` (store.dfy): class `Store` holds `savings`, `activeTab` and
  `currentId`. Its methods are the event handlers that change them. `Valid()`
  says every record is `WellFormed` and the ids are unique. Every mutating
  handler keeps `Valid()`, and each one states the whole new state.

The clock (`Date.now()`, the formatted dates), the file reader, `confirm` and
the parsed amount field are parameters of the methods. Ids are positive
integers, as `Date.now()` is, so `if (currentId)` holds exactly when a record
is open. A new id must be fresh, which is a precondition of `Submit` in create
mode. The image is a string, and the empty string means no image, matching the
script's falsy test. An unparsable transaction amount (`parseInt` giving `NaN`)
is `None`.

Behaviour that follows the code as written:

- `openDetail` sets `currentId` before it looks the id up. So an unknown id
  still becomes the open id, although no view is produced (`Store.OpenDetail`).
- The form handler does not validate the goal or the amount per period. Any
  integer is stored (`Store.Submit`).
- An edit while `currentId` names no record fails on `savings[-1]` before
  anything changes. This is the `EditTargetMissing` outcome.
- An edit switches the reminder off, because the rebuilt record carries
  `reminderOn: false`.
- A zero amount per period estimates `Infinity` periods. A negative amount
  per period gives a count of zero or less.

## Model

| member | source | states |
|---|---|---|
| `Records.BalanceAppend` | script.js:231-244 | appending one entry adds its amount to the deposit total or to the withdrawal total, and moves the balance by plus or minus that amount |
| `Records.AppendKeepsLog` | script.js:232-244 | appending a positive entry whose new balance is non-negative keeps every amount positive and keeps every prefix of the log non-negative |
| `Records.Deposit` | script.js:230-236 | a deposit adds the amount to `collected` and appends exactly one `add` entry with that amount and date; every other field is unchanged |
| `Records.Withdraw` | script.js:237-244 | a withdrawal subtracts the amount from `collected` and appends exactly one `subtract` entry; every other field is unchanged |
| `Records.DepositKeepsWellFormed` | script.js:230-236 | a positive deposit keeps the record invariant; the deposit total grows by the amount and the withdrawal total is unchanged |
| `Records.WithdrawKeepsWellFormed` | script.js:237-244 | a withdrawal of at most the balance keeps the record invariant, whole balance included, so `collected` stays non-negative; the withdrawal total grows by the amount |
| `Records.NewRecord` | script.js:176-191 | a new record is well formed, with `collected` 0, empty history, reminder off, the given id and creation date, and the name, image, goal, amount per period and frequency entered in the form |
| `Records.EditRecord` | script.js:193-202 | an edit keeps id, `collected`, history and creation date; it keeps the old image unless a new one is given; it takes name, goal, amount per period and frequency from the form; it turns the reminder off and keeps the record invariant |
| `Estimation.CeilDiv` | script.js:26 | the result is the ceiling of the exact quotient, for positive and for negative divisors |
| `Estimation.Estimate` | script.js:24-31 | `Reached` exactly when remaining <= 0; otherwise the unit follows the frequency; a zero amount per period gives Infinity; a positive amount per period gives n >= 1 with (n-1)*amount < remaining <= n*amount; a negative one gives n <= 0 |
| `Estimation.UnitLabels` | script.js:27-30 | Harian, Mingguan and Bulanan map to Hari, Minggu and Bulan, in both directions; every other label maps to Periode |
| `Estimation.EstimateIsLeast` | script.js:26 | the period count is the least number of periods whose savings cover the remaining amount |
| `Estimation.EstimateExamples` | script.js:24-31 | 250 remaining at 100 per week is 3 Minggu; 300 at 100 per day is 3 Hari; 0 remaining is Reached; an unknown label gives Periode |
| `Listing.FilterTab` | script.js:41-44 | a record is listed exactly when it is in the collection and its completeness (`collected >= goal`) matches the tab |
| `Listing.FilterAppend` | script.js:41-44 | filtering distributes over concatenation, so it keeps the relative order |
| `Listing.TabsPartition` | script.js:41-44 | the active and complete tabs together hold every record exactly once |
| `Listing.Lower` | script.js:53-54 | lower-casing keeps the length and maps each character to its lower case |
| `Listing.StrLessAsymmetric` | script.js:60-61 | no two strings are each less than the other |
| `Listing.StrLessTransitive` | script.js:60-61 | string less-than is transitive |
| `Listing.Compare` | script.js:50-63 | the comparator is negative exactly when the first record sorts strictly before the second by the chosen key and order, positive exactly when the reverse holds, and zero otherwise |
| `Listing.BeforeIrreflexive` | script.js:60-62 | no record sorts strictly before itself |
| `Listing.BeforeTransitive` | script.js:60-61 | "sorts strictly before" is transitive for both keys and both orders |
| `Listing.Insert` | script.js:50 | inserting adds exactly the one record to the multiset |
| `Listing.InsertSorted` | script.js:50-63 | inserting into an ordered list keeps it ordered |
| `Listing.SortBy` | script.js:50-63 | the sorted list is a permutation of its input, and no record comes after one that the comparator puts strictly behind it |
| `Listing.HomeListing` | script.js:41-63 | the listing is a permutation of the tab's filtered records, ordered by the comparator, and holds exactly the records of the collection on that tab |
| `Detail.Remaining` | script.js:120 | the remaining amount is never negative; it is at least goal minus collected, and it is either 0 or goal minus collected |
| `Detail.RemainingZeroIffComplete` | script.js:120 | nothing remains exactly for the records on the complete tab |
| `Detail.CardAndDetailEstimationsAgree` | script.js:68-73 | the home card's unclamped estimation equals the detail view's clamped one, and it is `Reached` exactly for complete records |
| `Detail.NewestFirst` | script.js:146 | the history view is the history reversed, entry by entry |
| `Detail.NewestFirstAppend` | script.js:146 | a transaction just recorded appears first in the history view |
| `Detail.NewestFirstInvolution` | script.js:146 | reversing the history view gives back the log in the order it was written |
| `Detail.DetailOf` | script.js:102-146 | the detail view copies the record's name, goal, amount per period, frequency, creation date, balance and reminder flag; its image is the record's own, or the placeholder when the record has none; its remaining amount is `max(0, goal - collected)`, so never negative; its estimation is computed from that remaining amount and is `Reached` exactly for complete records; its history is the record's history, newest first |
| `SavingsStore.IndexOf` | script.js:227 | `findIndex`: the first record with the id, or -1 exactly when no record has it |
| `SavingsStore.Without` | script.js:256 | a record survives deletion exactly when its id is not the open id |
| `SavingsStore.WithoutAppend` | script.js:256 | deletion distributes over concatenation, so the surviving records keep their order |
| `SavingsStore.WithoutAbsent` | script.js:256 | deleting an id no record has changes nothing |
| `SavingsStore.WithoutUnique` | script.js:256 | with unique ids, deleting the id of the record at position i removes exactly that position, so the length drops by one |
| `SavingsStore.WithoutKeepsInvariant` | script.js:256 | deletion keeps every record well formed and the ids unique |
| `SavingsStore.ReplaceKeepsInvariant` | script.js:202 | replacing a record in place by a well-formed one with the same id keeps the collection invariant |
| `SavingsStore.Store.constructor` | script.js:2-4 | the page starts with the stored collection, on the active tab, with no record open |
| `SavingsStore.Store.Home` | script.js:36-63 | the home listing is a permutation of the current tab's records, ordered by the selected key and order |
| `SavingsStore.Store.SetTab` | script.js:278-279 | only the active tab changes |
| `SavingsStore.Store.OpenDetail` | script.js:102-146 | the open id becomes the given id even when no record has it; the collection and tab are unchanged; the view is the record's detail when the id is found, and nothing otherwise |
| `SavingsStore.Store.GoHome` | script.js:292-297 | no record is open afterwards, and nothing else changes |
| `SavingsStore.Store.Submit` | script.js:167-206 | with no record open, the new record (balance 0, empty history) is appended and the others are unchanged; with a record open, that record alone is replaced in place by its edited version and the open id is cleared; an open id that matches no record changes nothing; the collection invariant holds afterwards |
| `SavingsStore.Store.ProcessTransaction` | script.js:223-251 | a missing or non-positive amount, or no matching record, changes nothing; a deposit updates only the open record, by `Deposit`; a withdrawal above the balance is rejected with nothing changed, otherwise only the open record changes, by `Withdraw`; the invariant is kept and the open id does not change |
| `SavingsStore.Store.DeleteCurrentTarget` | script.js:254-260 | without confirmation nothing changes; with it, exactly the records with the open id are removed, the rest keep their order, the invariant holds, and no record is open |
| `SavingsStore.Store.ToggleReminder` | script.js:315-321 | only `reminderOn` of the open record changes, to the switch's value; with no matching record nothing changes |
| `SavingsStore.CreateThenDeposit` | script.js:205-236 | creating a target and depositing into it gives a record with the new id, a balance equal to the deposit, and that deposit as its one history entry |

## Left out

- Rendering: card and detail HTML, modals, the tab indicator, dark mode and
  scrolling (script.js:36-99, 107-163, 278-304, 310-312). These are view code;
  the model keeps only the data they display.
- `editCurrentTarget` (script.js:262-275) only copies the open record into the
  form fields and opens the modal. It changes no state, so it is not modelled.
- `localStorage` loading and `saveData` (script.js:2, 305-307) are persistent
  storage and JSON. The store starts from a collection that is assumed to be
  valid.
- `toBase64` and the file reader (script.js:15-21) are asynchronous browser
  APIs. The encoded image is an opaque string parameter.
- `formatIDR` (script.js:7-12) is locale formatting through
  `Intl.NumberFormat`.
- The text of the labels ("3 Minggu Lagi", "Tercapai!") is not built. The
  `Estimation` datatype carries the same information.
- The progress percentage and the gradient (script.js:67, 76, 119-125) are
  floating-point values and are not modelled.
- `alert` and `confirm` are outside the model. A rejection is an outcome
  value, and the confirmation is a boolean parameter.
- The refresh after an edit (script.js:214-219) is view code. Its condition
  never holds, because `Submit` ensures `currentId == None` after an edit.
- Records.Deposit: balances and amounts are unbounded integers. The script
  keeps `collected` in a double, so `+=` is exact, and `collected` equals the
  balance of its history, only while the values stay below 2^53.
- Records.Withdraw: the same limit applies. `-=` on doubles is exact only
  below 2^53, so the invariant `WellFormed` holds in the script only there.
- Estimation.Estimate: models `Math.ceil(remaining / amount)` as exact integer
  ceiling division. Doubles agree with this only while the amounts stay
  below 2^53. A `NaN` amount per period is not modelled.
- SavingsStore.Store.Submit: the goal and the amount per period are integers. `parseInt`
  returning `NaN` for them is not modelled.
- Listing.Lower: lower-cases the ASCII letters A-Z only. `toLowerCase` also
  folds other Unicode letters.
- Listing.StrLess: compares characters as code points. JavaScript compares
  UTF-16 code units, and the two orders differ only outside the Basic
  Multilingual Plane.
- Listing.SortBy: stability is built into the definition, but no lemma about
  stability is stated. The model proves that the result is ordered and is a
  permutation.
