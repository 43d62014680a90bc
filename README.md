# Daily reconciliation of the agricultural receipts (corrispettivi)

A Dafny model of the reconciliation core of the corrispettivi-agricoli
project. A farm shop keeps three records of its daily takings:

- **Note**: the merchant's own log.
- **SumUp**: the card terminal's export.
- **Billy**: the fiscal ledger.

The project has two front ends that compare these records, and both are modelled.

**The React page (`src/App.tsx`).**
- Each CSV row becomes a typed entry. A column is looked up under a capitalised name and then a lower-case one. Amount text has its first comma turned into a period and is read by `parseFloat`; NaN counts as 0.
- Every entry's date is normalised to a `yyyy-MM-dd` key. `dd/MM/yyyy` is tried first, then `yyyy-MM-dd`.
- The amounts are added up per day in a dictionary by three loops.
- Each day gets `difference = noteTotal - billyTotal`. The days are sorted by key, and a fold produces the period totals.

**The Streamlit page (`app.py`).**
- The own log is split by the exact payment methods `Contanti` and `POS`. Each side is summed per date.
- The ledger's `Contanti` and `POS` columns are summed per date.
- The two sides are outer-joined on the date, with missing values read as 0.
- Three difference columns are derived.

Modules, one per file:

- `Wrappers`: `Option`, standing for `null`/`undefined`, NaT and NaN.
- `Decimal`: digits, numerals, white space.
- `LexOrder`: the string order used by the sort.
- `Calendar`: calendar dates, validity, chronological order.
- `DateKeys`: `normalizeDate`.
- `Amounts`: the comma fix and `parseFloat`.
- `Entries`: the `parseCSV` row mapping.
- `DailyAggregation`: `aggregatedData`. The three `forEach` loops are methods over the dictionary (a `map` plus its key insertion order), proved against the running per-day sums. The `.map`/`.sort` tail is a pair of functions.
- `DailySummary`: what the daily table guarantees.
- `PeriodTotals`: the `totals` reduce.
- `Confronto`: the pandas pipeline, as pure functions over date-indexed tables.

Amounts are exact reals. JavaScript `number` and pandas `float64` rounding are not modelled.

The sort compares keys with `localeCompare`. The model uses code-point order. Every key is a canonical `yyyy-MM-dd` string, with digits in the same positions and `-` at the same two positions, and on such strings the two orders agree. `DateKeys.KeyOrder` proves that this order is calendar order.

Two-digit years are not rewritten. `src/App.tsx` parses with `yyyy`, which takes the digits literally: `05/03/23` becomes `0023-03-05` (`DateKeys.TwoDigitYearIsReadLiterally`).

## Model

| member | source | states |
|---|---|---|
| Amounts.ParseFloat | src/App.tsx:148 | JavaScript `parseFloat` on the fixed text: leading white space skipped, then the longest decimal literal with its sign, or NaN; `PlainLiteral`, `MinusLiteral`, `NoDigitsIsZero` and `AmountRoundTrip` state what it reads |
| Amounts.ParseAmount | src/App.tsx:148-152 | the comma fix, `parseFloat`, and `isNaN(amount) ? 0 : amount`; `AmountRoundTrip` states that a written amount is read as its value and `NoDigitsIsZero` that a non-number is 0 |
| Amounts.ReplaceFirstCommaAt | src/App.tsx:148 | `replace(',', '.')` turns only the first comma into a period; every other character stays as it was |
| Amounts.AmountRoundTrip | src/App.tsx:148 | an amount written with two decimals and either `,` or `.` as separator, possibly followed by more text that starts with a separator, is read back as exactly its value, negative amounts included |
| Amounts.PlainLiteral | src/App.tsx:148 | `parseFloat` of text that starts with a digit is the unsigned literal at its start |
| Amounts.MinusLiteral | src/App.tsx:148 | a leading minus sign negates the literal that follows it |
| Amounts.NoDigitsIsZero | src/App.tsx:152 | text without any digit is NaN to the modelled `parseFloat`, so it counts as 0 (this covers `undefined` and the empty cell) |
| Amounts.LeadingSpaceSkipped | src/App.tsx:148 | any JavaScript white-space character in front of the text leaves what `parseFloat` reads unchanged |
| Amounts.WideSpacesSkipped | src/App.tsx:148 | a no-break space (U+00A0) or an ideographic space (U+3000) in front is skipped like an ASCII one |
| Amounts.ScaleWhole | src/App.tsx:148 | scaling a whole number by a non-negative exponent multiplies it by that power of ten; by a negative exponent, divides it |
| Amounts.ExponentDigits | src/App.tsx:148 | an exponent part `e`, an optional sign and digits has the digits' value as exponent, negated after a minus |
| Amounts.ScientificValue | src/App.tsx:148 | digits followed by an exponent part read as the digits' value times, or after a minus divided by, ten to the exponent's digits |
| Amounts.ExponentLiteral | src/App.tsx:148 | `15e3`, `15e+3` and `15e-3` and every such integer-with-exponent text read as the integer times or divided by the power of ten |
| Amounts.ExponentExample | src/App.tsx:148 | `1e2` reads as 100 |
| Amounts.DecimalSeparatorExamples | src/App.tsx:148 | `580,00` and `580.00` both read as 580 |
| Entries.Either | src/App.tsx:147 | a column looked up under its capitalised and its lower-case header: the capitalised column unless it is missing or empty, then the lower-case one, possibly missing; `EntryTexts` states the three cases for every text column |
| Entries.ToNoteEntry | src/App.tsx:147-153 | a Note row's date, method and amount; `EntryTexts` and `NoteEntryAmount` state what each field is |
| Entries.ToSumUpEntry | src/App.tsx:158-162 | a SumUp row's date and amount; `EntryTexts` and `SumUpEntryAmount` state what each field is |
| Entries.ToBillyEntry | src/App.tsx:168-176 | a Billy row's date and three amounts; `EntryTexts` and `BillyEntryAmounts` state what each field is |
| Entries.NoteEntries | src/App.tsx:146-154 | one Note entry per row, in row order, each built from its own row |
| Entries.SumUpEntries | src/App.tsx:157-164 | one SumUp entry per row, in row order |
| Entries.BillyEntries | src/App.tsx:167-178 | one Billy entry per row, in row order |
| Entries.ColumnRoundTrip | src/App.tsx:148 | the amount written in the capitalised column, or in the lower-case column when the capitalised one is missing or empty, is read as itself |
| Entries.BlankColumnIsZero | src/App.tsx:148-152 | a column that is missing or empty under both names gives amount 0 |
| Entries.NoteEntryAmount | src/App.tsx:148-152 | a Note entry's amount is the one written under `Importo`/`importo`, or 0 when both are blank |
| Entries.SumUpEntryAmount | src/App.tsx:159-162 | a SumUp entry's amount is the one written under `Gross amount`/`gross amount`, or 0 |
| Entries.BillyEntryAmounts | src/App.tsx:169-176 | a Billy entry's total, POS and cash are the ones written under `Totale`, `POS` and `Contanti`, each 0 when blank |
| Entries.EntryTexts | src/App.tsx:147-168 | for the Note date and method, the SumUp date and the Billy date: the capitalised column's text when it is there and not empty, otherwise the lower-case column's text, and nothing when the lower-case column is missing too |
| DateKeys.ParseDayFirst | src/App.tsx:207 | `parse(d, 'dd/MM/yyyy')` followed by `isValid`: only dates that exist are produced; `DayFirstCalendar` states which zero-padded `dd/MM/yyyy` texts get a key, and `ShortYearFields` that a two-digit year is read literally. Unpadded fields and short years are read too, but no lemma covers them in general |
| DateKeys.ParseIso | src/App.tsx:209 | `parse(d, 'yyyy-MM-dd')` followed by `isValid`: only dates that exist are produced; `KeyRoundTrip` states that every key is read back |
| DateKeys.FormatKey | src/App.tsx:211 | `format(parsed, 'yyyy-MM-dd')` gives ten characters; `KeyRoundTrip` and `KeyOrder` state that it is read back and sorts as the dates do |
| DateKeys.ParseDate | src/App.tsx:208-211 | `dd/MM/yyyy` is tried first; `yyyy-MM-dd` is used only when the first pattern fails |
| DateKeys.NormalizeDate | src/App.tsx:205-213 | null exactly for a missing or empty date or one that neither pattern reads; otherwise a canonical `yyyy-MM-dd` key that reads back as the date that was parsed |
| DateKeys.KeyRoundTrip | src/App.tsx:212 | `format(…, 'yyyy-MM-dd')` followed by parsing the key gives the date back |
| DateKeys.KeyIsNotDayFirst | src/App.tsx:208 | a canonical key is never read by the `dd/MM/yyyy` pattern, so a key normalises to itself |
| DateKeys.DayFirstMatchesIso | src/App.tsx:205-213 | a date written `dd/MM/yyyy` and the same date written `yyyy-MM-dd` normalise to the same key |
| DateKeys.NormalizedIsDayKey | src/App.tsx:205-213 | every key `normalizeDate` returns is the key of the date it names |
| DateKeys.DigitsOrder | src/App.tsx:247 | zero-padded numerals of one width compare as strings the way their numbers compare |
| DateKeys.KeyOrder | src/App.tsx:247 | comparing two keys as strings is comparing their dates in calendar order, in both directions |
| DateKeys.DayKeyOrder | src/App.tsx:247 | on normalised keys, string order is calendar order |
| DateKeys.NotADateHasNoKey | src/App.tsx:212 | `not-a-date` gets no key |
| DateKeys.TwoDigitYearIsReadLiterally | src/App.tsx:208 | `05/03/23` is read as year 23, giving key `0023-03-05` |
| DateKeys.DayFirstCalendar | src/App.tsx:207-211 | `dd/MM/yyyy` text of any two-digit day and month and four-digit year gets the key of its date exactly when `isValid` holds of that date, and no key otherwise: the ISO pattern does not rescue it |
| DateKeys.LeapDay | src/App.tsx:208-211 | the 29th of February gets a key exactly in years divisible by 4 and, for century years, by 400 |
| DateKeys.MonthEnd | src/App.tsx:208-211 | the 31st gets a key exactly in January, March, May, July, August, October and December |
| DateKeys.FieldRanges | src/App.tsx:208-211 | a day from 1 to 28 gets a key exactly in months 1 to 12; day `00` and year `0000` never do |
| DateKeys.LeapDayExample | src/App.tsx:205-211 | `29/02/2024` normalises to `2024-02-29` |
| DateKeys.CommonYearExample | src/App.tsx:205-211 | `29/02/2023` gets no key |
| LexOrder.LexIrreflexive | src/App.tsx:247 | no key sorts before itself |
| LexOrder.LexTransitive | src/App.tsx:247 | the key order is transitive |
| LexOrder.LexTotal | src/App.tsx:247 | of two different keys, one sorts before the other |
| DailyAggregation.AbsentDayIsZero | src/App.tsx:219 | a day that no amount is filed under has sum 0, which is the value the fresh row starts from |
| DailyAggregation.OpenKeeps | src/App.tsx:219 | inserting a zero row for a missing day keeps the key order listing each key once, adds just that key, and keeps every row equal to its running sums |
| DailyAggregation.NoteStep | src/App.tsx:216-221 | one more Note entry, filed or skipped, keeps the dictionary equal to the per-day running sums, its keys equal to the filed days, and its key order duplicate-free |
| DailyAggregation.SumUpStep | src/App.tsx:224-229 | the same for one more SumUp entry |
| DailyAggregation.BillyStep | src/App.tsx:232-239 | the same for one more Billy entry's three amounts |
| DailyAggregation.CreditNote | src/App.tsx:217-220 | the loop body: a keyless entry changes nothing; otherwise the day is opened at zero if new (appended to the key order) and its note total grows by the amount |
| DailyAggregation.CreditSumUp | src/App.tsx:225-228 | the same for the SumUp total |
| DailyAggregation.CreditBilly | src/App.tsx:233-238 | the same for the three Billy fields |
| DailyAggregation.Keyed | src/App.tsx:215-237 | what each loop reads from an entry: one pair per entry, in entry order, of the key `normalizeDate` gives its date and the amount the loop adds; the Note, SumUp and three Billy columns are its five instances |
| DailyAggregation.AddNotes | src/App.tsx:216-221 | after the Note loop, each day holds the sum of the Note amounts filed under it, and the keys are exactly the Note days |
| DailyAggregation.AddSumUps | src/App.tsx:224-229 | after the SumUp loop, the SumUp sums are added and the earlier sums kept |
| DailyAggregation.AddBillys | src/App.tsx:232-239 | after the Billy loop, the three Billy sums are added and the earlier sums kept |
| DailyAggregation.BillyDaysAgree | src/App.tsx:232-239 | the three Billy fields are filed under the same days |
| DailyAggregation.InsertByDate | src/App.tsx:247 | inserting into rows ordered by key keeps them ordered |
| DailyAggregation.SortByDate | src/App.tsx:247 | the sort returns a permutation of its rows ordered by key |
| DailyAggregation.Values | src/App.tsx:242 | `Object.values(days)`: one row per key, in key insertion order; `RowsOfTally` states what the rows hold |
| DailyAggregation.WithDifferences | src/App.tsx:243-246 | the `.map` that sets `difference`, one row for each row, each row being `WithDifference` of the row in its place; `RowsOfTally` states `difference = noteTotal - billyTotal` on each |
| DailyAggregation.RowsOfTally | src/App.tsx:242-246 | `Object.values` with the differences gives distinct rows, one per filed day, each carrying its day's sums and `difference = noteTotal - billyTotal` |
| DailyAggregation.SortedSummary | src/App.tsx:242-247 | those rows, once sorted, are strictly ascending by key |
| DailyAggregation.AggregateDays | src/App.tsx:201-248 | `aggregatedData` has one row per day that some entry's date normalises to, strictly ascending by key. Each field is the sum of that source's amounts for the day, and `difference == noteTotal - billyTotal` |
| DailySummary.SummaryUnique | src/App.tsx:242-247 | two tables that both meet the daily-summary definition are equal, so the definition fixes the result |
| DailySummary.ChronologicalDays | src/App.tsx:247 | the rows' dates are canonical day keys in strictly increasing calendar order |
| DailySummary.DatedEntryHasRow | src/App.tsx:216-239 | every entry whose date normalises to a key has a row with that key |
| DailySummary.MissingSourceIsZero | src/App.tsx:219-235 | a day that no entry of a source normalises to shows 0 in all of that source's fields |
| DailySummary.UndatedNoteIgnored | src/App.tsx:217-218 | a Note entry whose date is missing, empty or unreadable leaves the summary unchanged |
| DailySummary.UndatedSumUpIgnored | src/App.tsx:225-226 | the same for a SumUp entry |
| DailySummary.UndatedBillyIgnored | src/App.tsx:233-234 | the same for a Billy entry |
| PeriodTotals.PeriodTotals | src/App.tsx:250-257 | the `reduce` from zero totals, one row at a time; `TotalsDifference` and `TotalsConservation` state what it adds up to |
| PeriodTotals.TotalsDifference | src/App.tsx:250-257 | when each row's difference is its note total less its ledger total, `totals.diff == totals.note - totals.billy` |
| PeriodTotals.SumDaysIsValidSum | src/App.tsx:250-257 | adding up the per-day sums over distinct days that cover all filed days gives the sum of all filed amounts |
| PeriodTotals.TotalsConservation | src/App.tsx:250-257 | over the daily summary, `totals.note`, `totals.billy` and `totals.pos` are the sums of all Note, Billy-total and SumUp amounts whose date has a key; `totals.diff == totals.note - totals.billy` |
| Confronto.ByMethod | app.py:20-21 | `numbers_df[numbers_df["Metodo"] == metodo]`: the rows whose method is exactly the given one, in order; `ByMethodInsert` and `MethodRowCounted` state that a row of that method is kept in place with its date and amount, `ByMethodAppend` that the order of the rows is kept, and `OtherMethodIgnored` that other methods drop out |
| Confronto.GroupSum | app.py:20-21 | `groupby("Data")[col].sum()`; `GroupSumSpec` states that it has each date once, in order, with its sum |
| Confronto.OuterJoin | app.py:23-26 | the alignment of two date-indexed tables with `fillna(0)`, used for the two series and for the merge; `OuterJoinSpec` states what it holds |
| Confronto.NumbersGrouped | app.py:23-26 | `numbers_grouped`: the exact-`Contanti` and exact-`POS` sums side by side with `fillna(0)`; `NumbersGroupedSpec` states one row per date of either method, ascending, with both sums |
| Confronto.BillyGrouped | app.py:32-36 | `billy_grouped`: the ledger's `Contanti` and `POS` columns summed per date, renamed `Contanti_Billy` and `POS_Billy`; `BillyGroupedSpec` states one row per dated ledger date, ascending, with both sums |
| Confronto.Merged | app.py:39 | `pd.merge(..., on="Data", how="outer").fillna(0)`; `MergedSpec` states every date of either side once, ascending, with the four sums, 0 where a side has nothing |
| Confronto.WithDiffs | app.py:42-44 | one merged row with its `Diff_Contanti`, `Diff_POS` and `Diff_Totale`: the four sums are kept, each difference is own minus ledger, and `Diff_Totale` is own total minus ledger total |
| Confronto.Differences | app.py:42-44 | the three `Diff_*` columns added to every merged row, one output row per input row; `ConfrontoSpec` states them per row and `DifferencesTotal` states the `Diff_Totale` column total |
| Confronto.Confronto | app.py:20-44 | the comparison table; `ConfrontoSpec` and `Conservation` state what it holds |
| Confronto.AddToSpec | app.py:20-21 | adding a value to a date-indexed sum keeps the index strictly ordered, adds the date if new, and changes only that date's value |
| Confronto.GroupSumSpec | app.py:20-21 | `groupby("Data").sum()` has each non-NaT date once, in date order, with the sum of that date's non-NaN values; its column total is the total of all dated values |
| Confronto.GroupSumRows | app.py:20-21 | every grouped row holds the sum of the values of its date |
| Confronto.OuterJoinSpec | app.py:39 | the outer join of two strictly ordered tables is strictly ordered, has every date of either table once, and pairs each side's value with the other side's value or 0 |
| Confronto.NumbersGroupedSpec | app.py:20-26 | `numbers_grouped` has one row per date with a `Contanti` or `POS` row, ascending, holding the exact-`Contanti` and exact-`POS` sums, 0 for a method without rows |
| Confronto.LedgerColumnsAgree | app.py:32 | the ledger's two summed columns share their dates |
| Confronto.BillyGroupedSpec | app.py:32-36 | `billy_grouped` has one row per ledger date, ascending, holding `Contanti_Billy` and `POS_Billy` as the per-date sums of the ledger's columns |
| Confronto.MergedSpec | app.py:39 | the merge has every date of either side exactly once, ascending, with the four per-date sums, each 0 where its side has nothing |
| Confronto.ConfrontoSpec | app.py:39-44 | every row of the comparison has `Diff_Contanti == Contanti_Reale - Contanti_Billy`, `Diff_POS == POS_Reale - POS_Billy` and `Diff_Totale == Diff_Contanti + Diff_POS`, which equals own total minus ledger total. The dates are those of either file, once each, ascending |
| Confronto.TotalAbsent | app.py:26 | a date without values sums to 0 |
| Confronto.MissingFieldsAreZero | app.py:23-39 | a row's field from a side, or from a method, that has nothing for its date is 0 |
| Confronto.OtherMethodIgnored | app.py:20-21 | an own-log row, inserted at any position, whose method is neither exactly `Contanti` nor exactly `POS` leaves the table unchanged |
| Confronto.ByMethodAppend | app.py:20-21 | the filter of two logs, one after the other, is the two filters one after the other |
| Confronto.TotalAppend | app.py:20-21 | a date's sum over two lists of values, one after the other, is the sum of the two lists' sums |
| Confronto.TotalInsert | app.py:20-21 | a date's sum with one value inserted anywhere is the sum without it, plus that value when it carries the date |
| Confronto.ByMethodInsert | app.py:20-21 | inserting a row anywhere in the own log inserts, at the matching place of the filter, that row's date and amount when its method is the one filtered for, and nothing otherwise |
| Confronto.MethodRowCounted | app.py:20-21 | an inserted row of one method adds its amount to that method's sum for its date, leaves the other dates' sums alone, and leaves every other method's filter unchanged |
| Confronto.CashRowCounted | app.py:20-26 | an own-log `Contanti` row dated `d`, inserted at any position, adds its amount to `Contanti_Reale` for `d` and leaves every date's `POS_Reale` unchanged |
| Confronto.CardRowCounted | app.py:20-26 | an own-log `POS` row dated `d`, inserted at any position, adds its amount to `POS_Reale` for `d` and leaves every date's `Contanti_Reale` unchanged |
| Confronto.CashObs | app.py:32 | the ledger's `Contanti` column as dated values: one per ledger row, in order, with that row's date and cash amount |
| Confronto.CardObs | app.py:32 | the ledger's `POS` column as dated values: one per ledger row, in order, with that row's date and card amount |
| Confronto.AlignedColumns | app.py:23-26 | aligning the two series keeps both column totals |
| Confronto.MergedColumns | app.py:39 | the outer merge with zero fill keeps the own and ledger totals |
| Confronto.DifferencesTotal | app.py:42-44 | the `Diff_Totale` column adds up to the own totals less the ledger totals of the merged rows |
| Confronto.Conservation | app.py:20-44 | the `Diff_Totale` column adds up to all dated own-log `Contanti` and `POS` amounts, less all dated ledger `Contanti` and `POS` amounts |

## Left out

- The user interface (React components, state hooks, Streamlit widgets) is not modelled.
- PDF generation with jsPDF and reportlab is not modelled.
- Currency and date formatting for display is not modelled.
- File reading is not modelled: `Papa.parse` (header mode, `skipEmptyLines`), `pd.read_csv` and `pd.read_excel`. The model takes rows that are already split: a map from column name to cell text for the React page, and typed rows for the Streamlit page.
- `pd.to_datetime(..., dayfirst=True)` is not modelled. The model's `Data` column holds what it returns, a calendar date or NaT (a blank cell), not the text it reads. Raising on unparseable text is pandas behaviour. A timestamp carrying a time of day would form its own pandas group, separate from midnight of the same day; `Date` has no time of day, so the model cannot express that.
- Floating-point rounding in JavaScript and pandas is not modelled. Amounts are exact reals.
- `Amounts.ParseFloat` leaves out the `Infinity` literal. Text starting with it is read as NaN, so the amount is 0.
- `DateKeys.ParseDate` follows date-fns `parse` only for the two patterns used. Fields are read greedily (one or two digits for day and month, up to four for the year). The separators are literal. A year must be positive. Other date-fns leniencies are not modelled.
- `DailyAggregation.SortByDate` is an insertion sort rather than the engine's sort. Since the keys are distinct, `DailySummary.SummaryUnique` shows that the result does not depend on the algorithm.
- `Object.values` order is the key insertion order. Canonical keys are never integer-like, so no JavaScript reordering applies.
- DailySummary.UndatedNoteIgnored: states the property for an entry appended after the others. Entries at other positions are not covered, though the sums do not depend on order. The same holds for `UndatedSumUpIgnored` and `UndatedBillyIgnored`.
- The Note entry's `method` field is carried but not used by the aggregation, as in the source.
