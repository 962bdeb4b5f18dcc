# Car-wash transaction ledger — a Dafny model

The app records car-wash jobs in a ledger ("laporan"). Each record holds an id, a
date string, the plate ("plat"), phone ("telepon"), car model ("mobil"), colour
("warna"), price ("harga"), service type ("tipe": Full or Body) and payment status
(paid or pending). Records are created from an entry form. The new record goes in
front of the list. Records can be deleted by id and can have their payment status
toggled. A view selects either all history or one date. Over the records in view
the app totals the unit count, money received ("totalMasuk"), money still owed
("totalPending") and gross revenue ("totalOmzet").

This project models that logic as pure functions over immutable values. There
are five modules:

- `Seqs` (seqs.dfy): an order-preserving filter (JavaScript's `Array.filter`) and what "subsequence" means.
- `Text` (text.dfy): the digit-only check, upper-casing, `String(n)` for the years, months and days a `Date` reports, `padStart`, and a decimal parser that inverts that rendering.
- `Dates` (dates.dfy): the `YYYY-MM-DD` date key (`getTodayString`) and its parser.
- `Ledger` (ledger.dfy): records, the form, change events, submit, delete and status toggle.
- `Report` (report.dfy): the date scope and the totals.

The record id and today's date are parameters of `Ledger.Submit`, because the app
reads them from the clock (`Date.now()`, `new Date()`). `Dates.TodayString` takes
the year, the 0-based month index and the day of the month as integers, as a
JavaScript `Date` reports them.

Points about the code's behaviour:

- A submit with an empty plate or car model does nothing. No error is raised.
- Deleting or toggling an id that no record has leaves the ledger unchanged. No error is raised.
- Any status string other than `paid` toggles to `paid`. Such strings are `Ledger.Status.Other`, whose tag can be neither `"paid"` nor `"pending"`.
- Gross revenue counts only `paid` and `pending` records.

## Model

| member | source | states |
|---|---|---|
| Dates.TodayString | src/App.jsx:6-12 | The date key is the year in decimal, a hyphen, the 1-based month zero-padded to two digits, a hyphen, and the day zero-padded to two digits. Parsing it gives back exactly that year, month index + 1 and day. |
| Dates.TodayStringInjective | src/App.jsx:6-12 | Two days have the same date key exactly when they are the same day, so an exact-match date filter selects one calendar day. |
| Dates.FourDigitYearShape | src/App.jsx:6-12 | For years 1000–9999 the key has the 10-character `YYYY-MM-DD` shape: hyphens at positions 4 and 7 and digits everywhere else. |
| Dates.TwoDigitsRoundTrip | src/App.jsx:9-10 | `padStart(2, '0')` of a number below 100 is exactly two digits that read back as the number. |
| Text.IntDecimalRoundTrip | src/App.jsx:11 | The decimal rendering of any integer year, minus sign included, parses back to that integer. |
| Text.NatDecimalRoundTrip | src/App.jsx:9-11 | The decimal rendering of a natural number reads back as that number. |
| Text.PadStart | src/App.jsx:9-10 | Padding keeps a string already at least `width` long and otherwise brings it to exactly `width`. The original string is the suffix and every added character is the fill. |
| Text.ToUpper | src/App.jsx:68 | The upper-cased plate has the same length and no lower-case letter. Lower-case letters become their capitals and all other characters are kept. |
| Text.ToUpperIdempotent | src/App.jsx:68 | Upper-casing an already upper-cased plate changes nothing. |
| Ledger.StatusStringInjective | src/App.jsx:91 | Each status string belongs to exactly one status: the string is "paid" exactly for `Paid` and "pending" exactly for `Pending`. So the source's `=== 'paid'` and `=== 'pending'` tests (also at lines 119-120) are the constructor tests. |
| Text.NatToDecimal | src/App.jsx:9-11 | The decimal rendering of a natural number is non-empty and all digits, has no leading zero, and is one character long exactly for numbers below 10. |
| Text.IntToDecimal | src/App.jsx:9-11 | The rendering of a non-negative integer is its digit string and starts with a digit. A negative integer gets a minus sign followed by the digits of its magnitude. |
| Dates.TwoDigits | src/App.jsx:9-10 | No contract of its own. It defines `String(n).padStart(2, '0')`, and its properties are stated by `Dates.TwoDigitsRoundTrip`. |
| Text.AllDigits | src/App.jsx:56 | No contract of its own. It defines the test `/^\d*$/`: every character is an ASCII digit, and the empty string passes. `Ledger.HandleChange` states its use. |
| Ledger.Accepts | src/App.jsx:62 | No contract of its own. It defines the submit guard: plate and car model both non-empty. `Ledger.Submit` states both outcomes. |
| Ledger.NewRecord | src/App.jsx:65-76 | No contract of its own. It builds the new record, and `Ledger.Submit` states every field of it. |
| Report.SumHarga | src/App.jsx:119-120 | No contract of its own. It defines the `reduce` sum of prices, and `Report.SumNonNegative`, `Report.SumComplement` and `Report.PaidPendingSplit` state its properties. |
| Ledger.HandleChange | src/App.jsx:54-58 | A phone edit that is not all digits is ignored. Any other edit sets that field to the new value. The other fields, the type and the status are untouched. A digit-only phone stays digit-only. |
| Ledger.FormStaysWellFormed | src/App.jsx:32 | The initial form has a digit-only phone and a paid/pending status, and every change event keeps it that way. |
| Ledger.Price | src/App.jsx:39-40 | A Full wash costs 50000 and a Body wash costs 35000. |
| Ledger.Submit | src/App.jsx:60-79 | With an empty plate or car model the ledger and form are unchanged. Otherwise the ledger grows by one: the new record is first and the old records follow unchanged and in order. The new record has the given id and date, a price from the table, the upper-cased plate and the form's other fields. The form is reset. |
| Ledger.Delete | src/App.jsx:84-88 | The result holds exactly the records whose id differs from the target, each as often as before and in the original order. No record with the target id remains, the list never grows, and an absent id changes nothing. |
| Ledger.Flip | src/App.jsx:91 | The toggled status is always paid or pending, and it is pending exactly when the old status was paid. |
| Ledger.ToggleStatus | src/App.jsx:90-92 | The length is unchanged, and records with other ids are unchanged. A matching record changes only its status: paid becomes pending and anything else becomes paid. An absent id changes nothing. |
| Ledger.ToggleTwice | src/App.jsx:90-92 | Toggling the same id twice gives back the original ledger when the matching records were paid or pending. |
| Ledger.LedgerStaysWellFormed | src/App.jsx:60-92 | Submit, delete and toggle keep every record well formed. A well-formed record is priced from the table, is paid or pending, has a non-empty plate and car model, an upper-case plate and a digit-only phone. |
| Seqs.Filter | src/App.jsx:114-116 | The filter result holds exactly the elements that satisfy the predicate, with their multiplicities, and is never longer than the input. |
| Seqs.FilterIsSubsequence | src/App.jsx:116 | The filtered records appear in the same relative order as in the ledger. |
| Report.ScopeOf | src/App.jsx:114-116 | The "all history" switch selects all history, and otherwise the view is the selected date. |
| Report.FilterByScope | src/App.jsx:114-116 | Under all history the view is the ledger itself. Under a date it is exactly that date's records, with their multiplicities, as a subsequence of the ledger. |
| Report.Summarize | src/App.jsx:118-121 | Units are the number of records in view, and gross revenue is received plus owed money. With non-negative prices no figure is negative. When every status in view is paid or pending, gross revenue is the sum of all prices in view. |
| Report.SumComplement | src/App.jsx:119-120 | When each record satisfies exactly one of two filters, the two filtered counts and price sums add up to the whole. |
| Report.PaidPendingSplit | src/App.jsx:119-121 | Paid plus pending price sums equal the total price sum when every status is paid or pending. |
| Report.SumNonNegative | src/App.jsx:119-120 | Sums of non-negative prices are non-negative. |
| Report.ToggleKeepsTotals | src/App.jsx:90-92 | When every status is paid or pending, toggling a status never changes any view's unit count or gross revenue (received plus owed money). |
| Report.DeleteFromEveryScope | src/App.jsx:84-88 | After a delete no view shows the deleted id, and each view equals deleting from that view. |
| Report.SubmitTotals | src/App.jsx:64-78 | A successful submit adds one unit to every view covering today. Its price goes to received money if paid and to owed money if pending. Views of other dates are unchanged. |
| Report.AllHistorySplitsByDay | src/App.jsx:114-121 | The all-history figures equal the selected day's figures plus the figures of all other days, field by field. |
| Report.RevenueFromPriceTable | src/App.jsx:39-40 | For well-formed records the price sum is 50000 per Full wash plus 35000 per Body wash. |
| Report.ViewRevenue | src/App.jsx:118-121 | For a ledger of well-formed records, a view's gross revenue is 50000 × Full units + 35000 × Body units. Units are Full plus Body, and received and owed money are non-negative. |

## Left out

- JSX rendering, CSS and print layouts (src/App.jsx:128-496), including the receipt template (src/App.jsx:205-270) and the daily-report template (src/App.jsx:272-317) that `handlePrintReceipt` and `handlePrintDailyReport` print: presentation with no behaviour to state.
- Saving to and loading from `localStorage`, including JSON parsing of the saved array (src/App.jsx:15-28, 43-51): browser persistence I/O. Records loaded this way could carry any shape. The model keeps only the case of an unknown status string (`Ledger.Status.Other`).
- `window.print` and its `setTimeout` staging and clearing (src/App.jsx:95-111): timers and the print surface.
- The `isNew` highlight flag and its one-second reset (src/App.jsx:75, 81): cosmetic timer state. Records have no such field here.
- The `window.confirm` dialog before a delete (src/App.jsx:85): user interaction. Only the confirmed path is modelled.
- `Date.now()` and `new Date()`: the id and the date are parameters. Id uniqueness is not claimed, because two submits in the same millisecond share an id.
- `toLocaleString` / `toLocaleDateString` currency and date display, including `formatDateDisplay` (src/App.jsx:123-126 and the JSX): locale-dependent library formatting.
- The Full/Body and paid/pending form buttons (src/App.jsx:409-414) set `tipe` and `status` directly. `Ledger.Form` admits any type and status, so they need no operation of their own.
- Text.ToUpper: only ASCII letters are mapped. JavaScript's `toUpperCase` also maps other Unicode letters and can change the length (for example 'ß' becomes "SS").
- Report.Summarize: sums use unbounded integers. JavaScript numbers are doubles, which add exactly only up to 2^53.
- Worker compensation policies, the expense ledger and owner profit: the app's code has none of them.
- Text.IntToDecimal: renders integers in plain decimal at every magnitude. JavaScript switches to exponent notation from 10^21 on, far above any year, month or day a `Date` reports.
