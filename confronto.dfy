/**
 * The comparison table of the Streamlit page: the own log's rows split by
 * payment method and summed per date, the ledger's rows summed per date, the
 * two sides outer-joined on the date with missing values read as 0, and
 * three difference columns. A date is a calendar date (`None` for a blank
 * cell, pandas's NaT) and a numeric cell may be NaN (`None`), which sums skip.
 */
module Confronto {
  import opened Wrappers
  import opened Calendar

  /** A numeric cell; `None` is NaN. */
  type Cell = Option<real>

  /** A row of the own log: `Data`, `Metodo`, `Importo`. */
  datatype NumbersRow = NumbersRow(data: Option<Date>, metodo: Option<string>, importo: Cell)

  /** A row of the ledger: `Data`, `Contanti`, `POS`. */
  datatype BillyRow = BillyRow(data: Option<Date>, contanti: Cell, pos: Cell)

  /** One value fed to a per-date sum, with its date. */
  datatype Obs = Obs(data: Option<Date>, value: Cell)

  /** A row of a table indexed by date (`reset_index` makes the index the `Data` column). */
  datatype Row<T> = Row(data: Date, value: T)

  /** A row of the comparison table. */
  datatype ConfrontoRow = ConfrontoRow(data: Date, contantiReale: real, posReale: real, contantiBilly: real, posBilly: real,
                                       diffContanti: real, diffPos: real, diffTotale: real)

  // ---------------------------------------------------------------------------
  // Reference sums over the input rows

  /** What a cell adds to a sum: NaN adds nothing. */
  function CellValue(c: Cell): real {
    if c.Some? then c.value else 0.0
  }

  /** The sum of the values filed under date `d`. */
  function Total(obs: seq<Obs>, d: Date): real {
    if obs == [] then 0.0
    else
      var last := obs[|obs| - 1];
      Total(obs[..|obs| - 1], d) + (if last.data == Some(d) then CellValue(last.value) else 0.0)
  }

  /** The sum of all the values that have a date. */
  function GrandTotal(obs: seq<Obs>): real {
    if obs == [] then 0.0
    else
      var last := obs[|obs| - 1];
      GrandTotal(obs[..|obs| - 1]) + (if last.data.Some? then CellValue(last.value) else 0.0)
  }

  /** The dates that values are filed under. */
  function KeysOf(obs: seq<Obs>): set<Date> {
    if obs == [] then {}
    else
      var last := obs[|obs| - 1];
      KeysOf(obs[..|obs| - 1]) + (if last.data.Some? then {last.data.value} else {})
  }

  // ---------------------------------------------------------------------------
  // Tables indexed by date

  /** The index is strictly increasing: each date once, in order. */
  predicate Strict<T>(s: seq<Row<T>>) {
    forall i, j :: 0 <= i < j < |s| ==> DateLess(s[i].data, s[j].data)
  }

  function Dates<T>(s: seq<Row<T>>): set<Date> {
    set i | 0 <= i < |s| :: s[i].data
  }

  /** The value at date `d`, `zero` when the index lacks it. */
  function Lookup<T>(s: seq<Row<T>>, d: Date, zero: T): T {
    if s == [] then zero
    else if s[0].data == d then s[0].value
    else Lookup(s[1..], d, zero)
  }

  lemma {:induction false} LookupAbsent<T>(s: seq<Row<T>>, d: Date, zero: T)
    requires d !in Dates(s)
    ensures Lookup(s, d, zero) == zero
  {
    if s != [] {
      assert s[0].data in Dates(s);
      assert Dates(s[1..]) <= Dates(s) by {
        forall k | k in Dates(s[1..]) ensures k in Dates(s) {
          var i :| 0 <= i < |s[1..]| && s[1..][i].data == k;
          assert s[i + 1].data == k;
        }
      }
      LookupAbsent(s[1..], d, zero);
    }
  }

  /** The dates after the first of a strict index all come after it. */
  lemma StrictTail<T>(s: seq<Row<T>>)
    requires Strict(s) && s != []
    ensures Strict(s[1..])
    ensures Dates(s) == {s[0].data} + Dates(s[1..])
    ensures forall k :: k in Dates(s[1..]) ==> DateLess(s[0].data, k)
  {
    forall k | k in Dates(s[1..]) ensures DateLess(s[0].data, k) && k in Dates(s) {
      var i :| 0 <= i < |s[1..]| && s[1..][i].data == k;
      assert s[i + 1].data == k;
    }
    forall k | k in Dates(s) && k != s[0].data ensures k in Dates(s[1..]) {
      var i :| 0 <= i < |s| && s[i].data == k;
      assert s[1..][i - 1].data == k;
    }
  }

  /** A date below the first of a strict index is not in it. */
  lemma LookupBelow<T>(s: seq<Row<T>>, d: Date, zero: T)
    requires Strict(s) && (s == [] || DateLess(d, s[0].data))
    ensures d !in Dates(s) && Lookup(s, d, zero) == zero
  {
    if s != [] {
      StrictTail(s);
    }
    LookupAbsent(s, d, zero);
  }

  /** In a strict index, each row holds the value looked up at its date. */
  lemma {:induction false} LookupAt<T>(s: seq<Row<T>>, i: int, zero: T)
    requires Strict(s) && 0 <= i < |s|
    ensures Lookup(s, s[i].data, zero) == s[i].value
  {
    if i > 0 {
      StrictTail(s);
      LookupAt(s[1..], i - 1, zero);
    }
  }

  /** A row whose date comes before all of a strict table's keeps it strict when put in front. */
  lemma ConsStrict<T>(x: Row<T>, s: seq<Row<T>>)
    requires Strict(s) && forall k :: k in Dates(s) ==> DateLess(x.data, k)
    ensures Strict([x] + s)
    ensures Dates([x] + s) == {x.data} + Dates(s)
  {
    var r := [x] + s;
    forall i, j | 0 <= i < j < |r| ensures DateLess(r[i].data, r[j].data) {
      if i == 0 {
        assert r[j].data == s[j - 1].data;
        assert s[j - 1].data in Dates(s);
      } else {
        assert r[i] == s[i - 1] && r[j] == s[j - 1];
      }
    }
    forall k | k in Dates(r) ensures k in {x.data} + Dates(s) {
      var i :| 0 <= i < |r| && r[i].data == k;
      if i > 0 {
        assert s[i - 1].data == k;
      }
    }
    forall k | k in Dates(s) ensures k in Dates(r) {
      var i :| 0 <= i < |s| && s[i].data == k;
      assert r[i + 1].data == k;
    }
    assert r[0].data in Dates(r);
  }

  // ---------------------------------------------------------------------------
  // groupby("Data").sum()

  /** The sum of a numeric column. */
  function Column(s: seq<Row<real>>): real {
    if s == [] then 0.0 else s[0].value + Column(s[1..])
  }

  /** The series with `v` added at date `d`, the date put in its place if it was missing. */
  function AddTo(s: seq<Row<real>>, d: Date, v: real): (r: seq<Row<real>>)
    ensures Column(r) == Column(s) + v
  {
    if s == [] then [Row(d, v)]
    else if s[0].data == d then [Row(d, s[0].value + v)] + s[1..]
    else if DateLess(d, s[0].data) then [Row(d, v)] + s
    else [s[0]] + AddTo(s[1..], d, v)
  }

  lemma {:induction false} AddToSpec(s: seq<Row<real>>, d: Date, v: real)
    requires Strict(s)
    ensures Strict(AddTo(s, d, v))
    ensures Dates(AddTo(s, d, v)) == Dates(s) + {d}
    ensures forall k :: Lookup(AddTo(s, d, v), k, 0.0) == Lookup(s, k, 0.0) + (if k == d then v else 0.0)
  {
    var r := AddTo(s, d, v);
    if s == [] {
      assert Dates(r) == {d} by {
        assert r[0].data in Dates(r);
      }
    } else {
      StrictTail(s);
      if s[0].data == d {
        ConsStrict(Row(d, s[0].value + v), s[1..]);
      } else if DateLess(d, s[0].data) {
        ConsStrict(Row(d, v), s);
        LookupBelow(s, d, 0.0);
      } else {
        var t := AddTo(s[1..], d, v);
        AddToSpec(s[1..], d, v);
        ConsStrict(s[0], t);
        assert r[1..] == t;
      }
    }
  }

  /** `groupby("Data")[col].sum()`: one row per date that has a value, in date order, NaT rows dropped, NaN skipped. */
  function GroupSum(obs: seq<Obs>): seq<Row<real>> {
    if obs == [] then []
    else
      var last := obs[|obs| - 1];
      var g := GroupSum(obs[..|obs| - 1]);
      if last.data.None? then g else AddTo(g, last.data.value, CellValue(last.value))
  }

  /** A per-date sum of the values: each date of the values once, in order, with the sum of the values filed under it. */
  ghost predicate IsGroupSum(s: seq<Row<real>>, obs: seq<Obs>) {
    && Strict(s)
    && Dates(s) == KeysOf(obs)
    && forall k :: Lookup(s, k, 0.0) == Total(obs, k)
  }

  lemma {:induction false} GroupSumSpec(obs: seq<Obs>)
    ensures IsGroupSum(GroupSum(obs), obs)
    ensures Column(GroupSum(obs)) == GrandTotal(obs)
  {
    if obs == [] {
      assert Dates<real>([]) == {};
    } else {
      var init := obs[..|obs| - 1];
      var last := obs[|obs| - 1];
      GroupSumSpec(init);
      if last.data.Some? {
        AddToSpec(GroupSum(init), last.data.value, CellValue(last.value));
      }
    }
  }

  /** Each row of a per-date sum holds the sum of the values filed under its date. */
  lemma GroupSumRows(s: seq<Row<real>>, obs: seq<Obs>)
    requires IsGroupSum(s, obs)
    ensures forall i :: 0 <= i < |s| ==> s[i].value == Total(obs, s[i].data)
  {
    forall i | 0 <= i < |s| ensures s[i].value == Total(obs, s[i].data) {
      LookupAt(s, i, 0.0);
    }
  }

  // ---------------------------------------------------------------------------
  // Outer join on the date

  /**
   * The outer join of two date-indexed tables on their dates, a side that
   * lacks a date filled with its zero (`fillna(0)`): both the alignment of
   * the two series of the own log and `pd.merge(..., on="Data", how="outer")`.
   */
  function OuterJoin<A, B>(a: seq<Row<A>>, b: seq<Row<B>>, za: A, zb: B): seq<Row<(A, B)>>
    decreases |a| + |b|
  {
    if a == [] && b == [] then []
    else if b == [] || (a != [] && DateLess(a[0].data, b[0].data)) then
      [Row(a[0].data, (a[0].value, zb))] + OuterJoin(a[1..], b, za, zb)
    else if a == [] || DateLess(b[0].data, a[0].data) then
      [Row(b[0].data, (za, b[0].value))] + OuterJoin(a, b[1..], za, zb)
    else
      [Row(a[0].data, (a[0].value, b[0].value))] + OuterJoin(a[1..], b[1..], za, zb)
  }

  /** The join of two strict tables is strict, has the dates of either, and pairs each side's value at each date (its zero where it has none). */
  lemma {:induction false} OuterJoinSpec<A, B>(a: seq<Row<A>>, b: seq<Row<B>>, za: A, zb: B)
    requires Strict(a) && Strict(b)
    ensures Strict(OuterJoin(a, b, za, zb))
    ensures Dates(OuterJoin(a, b, za, zb)) == Dates(a) + Dates(b)
    ensures forall k :: Lookup(OuterJoin(a, b, za, zb), k, (za, zb)) == (Lookup(a, k, za), Lookup(b, k, zb))
    decreases |a| + |b|
  {
    var r := OuterJoin(a, b, za, zb);
    if a == [] && b == [] {
    } else if b == [] || (a != [] && DateLess(a[0].data, b[0].data)) {
      StrictTail(a);
      OuterJoinSpec(a[1..], b, za, zb);
      LookupBelow(b, a[0].data, zb);
      if b != [] {
        StrictTail(b);
      }
      ConsStrict(Row(a[0].data, (a[0].value, zb)), OuterJoin(a[1..], b, za, zb));
    } else if a == [] || DateLess(b[0].data, a[0].data) {
      StrictTail(b);
      OuterJoinSpec(a, b[1..], za, zb);
      LookupBelow(a, b[0].data, za);
      if a != [] {
        StrictTail(a);
      }
      ConsStrict(Row(b[0].data, (za, b[0].value)), OuterJoin(a, b[1..], za, zb));
    } else {
      StrictTail(a);
      StrictTail(b);
      OuterJoinSpec(a[1..], b[1..], za, zb);
      ConsStrict(Row(a[0].data, (a[0].value, b[0].value)), OuterJoin(a[1..], b[1..], za, zb));
    }
  }

  // ---------------------------------------------------------------------------
  // The pipeline

  /** `numbers_df[numbers_df["Metodo"] == metodo]`, keeping `Data` and `Importo`: the rows whose method is exactly `metodo`. */
  function ByMethod(numbers: seq<NumbersRow>, metodo: string): seq<Obs> {
    if numbers == [] then []
    else
      var last := numbers[|numbers| - 1];
      ByMethod(numbers[..|numbers| - 1], metodo) + (if last.metodo == Some(metodo) then [Obs(last.data, last.importo)] else [])
  }

  /** The ledger's `Contanti` column with its dates. */
  function CashObs(billy: seq<BillyRow>): (obs: seq<Obs>)
    ensures |obs| == |billy|
    ensures forall i :: 0 <= i < |billy| ==> obs[i] == Obs(billy[i].data, billy[i].contanti)
  {
    if billy == [] then []
    else CashObs(billy[..|billy| - 1]) + [Obs(billy[|billy| - 1].data, billy[|billy| - 1].contanti)]
  }

  /** The ledger's `POS` column with its dates. */
  function CardObs(billy: seq<BillyRow>): (obs: seq<Obs>)
    ensures |obs| == |billy|
    ensures forall i :: 0 <= i < |billy| ==> obs[i] == Obs(billy[i].data, billy[i].pos)
  {
    if billy == [] then []
    else CardObs(billy[..|billy| - 1]) + [Obs(billy[|billy| - 1].data, billy[|billy| - 1].pos)]
  }

  /** `numbers_grouped`: per date, the cash total (`Contanti_Reale`) and the card total (`POS_Reale`) of the own log. */
  function NumbersGrouped(numbers: seq<NumbersRow>): seq<Row<(real, real)>> {
    OuterJoin(GroupSum(ByMethod(numbers, "Contanti")), GroupSum(ByMethod(numbers, "POS")), 0.0, 0.0)
  }

  /** `billy_grouped`: per date, the ledger's cash total (`Contanti_Billy`) and card total (`POS_Billy`). */
  function BillyGrouped(billy: seq<BillyRow>): seq<Row<(real, real)>> {
    OuterJoin(GroupSum(CashObs(billy)), GroupSum(CardObs(billy)), 0.0, 0.0)
  }

  /** `confronto` before the differences: the two grouped tables joined on the date, missing values 0. */
  function Merged(numbers: seq<NumbersRow>, billy: seq<BillyRow>): seq<Row<((real, real), (real, real))>> {
    OuterJoin(NumbersGrouped(numbers), BillyGrouped(billy), (0.0, 0.0), (0.0, 0.0))
  }

  /** A merged row with its three difference columns. */
  function WithDiffs(m: Row<((real, real), (real, real))>): (r: ConfrontoRow)
    ensures r.data == m.data
    ensures r.contantiReale == m.value.0.0 && r.posReale == m.value.0.1
    ensures r.contantiBilly == m.value.1.0 && r.posBilly == m.value.1.1
    ensures r.diffContanti + r.contantiBilly == r.contantiReale && r.diffPos + r.posBilly == r.posReale
    ensures r.diffTotale == (r.contantiReale + r.posReale) - (r.contantiBilly + r.posBilly)
  {
    var diffContanti := m.value.0.0 - m.value.1.0;
    var diffPos := m.value.0.1 - m.value.1.1;
    ConfrontoRow(m.data, m.value.0.0, m.value.0.1, m.value.1.0, m.value.1.1, diffContanti, diffPos, diffContanti + diffPos)
  }

  /** The three `Diff_*` columns added to every merged row, in order. */
  function Differences(ms: seq<Row<((real, real), (real, real))>>): (rows: seq<ConfrontoRow>)
    ensures |rows| == |ms|
  {
    if ms == [] then [] else [WithDiffs(ms[0])] + Differences(ms[1..])
  }

  /** The comparison table. */
  function Confronto(numbers: seq<NumbersRow>, billy: seq<BillyRow>): seq<ConfrontoRow> {
    Differences(Merged(numbers, billy))
  }

  // ---------------------------------------------------------------------------
  // What the table guarantees

  /** The dates the own log has a cash or a card row for. */
  function OwnDates(numbers: seq<NumbersRow>): set<Date> {
    KeysOf(ByMethod(numbers, "Contanti")) + KeysOf(ByMethod(numbers, "POS"))
  }

  /** The dates of the ledger's rows. */
  function LedgerDates(billy: seq<BillyRow>): set<Date> {
    KeysOf(CashObs(billy))
  }

  lemma {:induction false} TotalAbsent(obs: seq<Obs>, d: Date)
    requires d !in KeysOf(obs)
    ensures Total(obs, d) == 0.0
  {
    if obs != [] {
      TotalAbsent(obs[..|obs| - 1], d);
    }
  }

  /** The ledger's two columns share their dates. */
  lemma {:induction false} LedgerColumnsAgree(billy: seq<BillyRow>)
    ensures KeysOf(CardObs(billy)) == KeysOf(CashObs(billy))
  {
    if billy != [] {
      LedgerColumnsAgree(billy[..|billy| - 1]);
    }
  }

  /**
   * `numbers_grouped` has one row per date with a cash or a card row, in date
   * order; its two columns are the per-date sums of the exact-`Contanti` and
   * exact-`POS` amounts, 0 where that method has no row.
   */
  lemma NumbersGroupedSpec(numbers: seq<NumbersRow>)
    ensures Strict(NumbersGrouped(numbers))
    ensures Dates(NumbersGrouped(numbers)) == OwnDates(numbers)
    ensures forall k :: Lookup(NumbersGrouped(numbers), k, (0.0, 0.0)) ==
                        (Total(ByMethod(numbers, "Contanti"), k), Total(ByMethod(numbers, "POS"), k))
  {
    var c, p := ByMethod(numbers, "Contanti"), ByMethod(numbers, "POS");
    GroupSumSpec(c);
    GroupSumSpec(p);
    OuterJoinSpec(GroupSum(c), GroupSum(p), 0.0, 0.0);
  }

  /** `billy_grouped` has one row per ledger date, in date order, holding the per-date sums of the ledger's two columns. */
  lemma BillyGroupedSpec(billy: seq<BillyRow>)
    ensures Strict(BillyGrouped(billy))
    ensures Dates(BillyGrouped(billy)) == LedgerDates(billy)
    ensures forall k :: Lookup(BillyGrouped(billy), k, (0.0, 0.0)) == (Total(CashObs(billy), k), Total(CardObs(billy), k))
  {
    GroupSumSpec(CashObs(billy));
    GroupSumSpec(CardObs(billy));
    LedgerColumnsAgree(billy);
    OuterJoinSpec(GroupSum(CashObs(billy)), GroupSum(CardObs(billy)), 0.0, 0.0);
  }

  /** The values of the merge at each date: the own log's two sums and the ledger's two sums, each 0 where that side has nothing. */
  predicate MergedAt(numbers: seq<NumbersRow>, billy: seq<BillyRow>, k: Date, v: ((real, real), (real, real))) {
    v == ((Total(ByMethod(numbers, "Contanti"), k), Total(ByMethod(numbers, "POS"), k)),
          (Total(CashObs(billy), k), Total(CardObs(billy), k)))
  }

  lemma MergedSpec(numbers: seq<NumbersRow>, billy: seq<BillyRow>)
    ensures Strict(Merged(numbers, billy))
    ensures Dates(Merged(numbers, billy)) == OwnDates(numbers) + LedgerDates(billy)
    ensures forall i :: 0 <= i < |Merged(numbers, billy)| ==>
              MergedAt(numbers, billy, Merged(numbers, billy)[i].data, Merged(numbers, billy)[i].value)
  {
    var m := Merged(numbers, billy);
    NumbersGroupedSpec(numbers);
    BillyGroupedSpec(billy);
    OuterJoinSpec(NumbersGrouped(numbers), BillyGrouped(billy), (0.0, 0.0), (0.0, 0.0));
    forall i | 0 <= i < |m| ensures MergedAt(numbers, billy, m[i].data, m[i].value) {
      LookupAt(m, i, ((0.0, 0.0), (0.0, 0.0)));
    }
  }

  lemma {:induction false} DifferencesAt(ms: seq<Row<((real, real), (real, real))>>, i: int)
    requires 0 <= i < |ms|
    ensures Differences(ms)[i] == WithDiffs(ms[i])
  {
    if i > 0 {
      DifferencesAt(ms[1..], i - 1);
    }
  }

  /** What the row of the comparison table for its date holds, as the two files determine it. */
  predicate RowFor(numbers: seq<NumbersRow>, billy: seq<BillyRow>, r: ConfrontoRow) {
    && r.contantiReale == Total(ByMethod(numbers, "Contanti"), r.data)
    && r.posReale == Total(ByMethod(numbers, "POS"), r.data)
    && r.contantiBilly == Total(CashObs(billy), r.data)
    && r.posBilly == Total(CardObs(billy), r.data)
    && r.diffContanti == r.contantiReale - r.contantiBilly
    && r.diffPos == r.posReale - r.posBilly
    && r.diffTotale == r.diffContanti + r.diffPos
    && r.diffTotale == (r.contantiReale + r.posReale) - (r.contantiBilly + r.posBilly)
  }

  /**
   * The comparison table has every date of either file exactly once, in date
   * order, and each row holds the four per-date sums and their differences.
   */
  lemma ConfrontoSpec(numbers: seq<NumbersRow>, billy: seq<BillyRow>)
    ensures var t := Confronto(numbers, billy);
      && (forall i, j :: 0 <= i < j < |t| ==> DateLess(t[i].data, t[j].data))
      && (set i | 0 <= i < |t| :: t[i].data) == OwnDates(numbers) + LedgerDates(billy)
      && forall i :: 0 <= i < |t| ==> RowFor(numbers, billy, t[i])
  {
    var m := Merged(numbers, billy);
    var t := Confronto(numbers, billy);
    MergedSpec(numbers, billy);
    forall i | 0 <= i < |t| ensures t[i] == WithDiffs(m[i]) {
      DifferencesAt(m, i);
    }
    assert (set i | 0 <= i < |t| :: t[i].data) == Dates(m);
  }

  /** A field of a side that has no row for a date is 0 there; so is a method the own log lacks for that date. */
  lemma MissingFieldsAreZero(numbers: seq<NumbersRow>, billy: seq<BillyRow>, r: ConfrontoRow)
    requires RowFor(numbers, billy, r)
    ensures r.data !in KeysOf(ByMethod(numbers, "Contanti")) ==> r.contantiReale == 0.0
    ensures r.data !in KeysOf(ByMethod(numbers, "POS")) ==> r.posReale == 0.0
    ensures r.data !in LedgerDates(billy) ==> r.contantiBilly == 0.0 && r.posBilly == 0.0
  {
    LedgerColumnsAgree(billy);
    if r.data !in KeysOf(ByMethod(numbers, "Contanti")) {
      TotalAbsent(ByMethod(numbers, "Contanti"), r.data);
    }
    if r.data !in KeysOf(ByMethod(numbers, "POS")) {
      TotalAbsent(ByMethod(numbers, "POS"), r.data);
    }
    if r.data !in LedgerDates(billy) {
      TotalAbsent(CashObs(billy), r.data);
      TotalAbsent(CardObs(billy), r.data);
    }
  }

  /** Filtering by method keeps the order of the rows: the filter of two logs one after the other is the two filters one after the other. */
  lemma {:induction false} ByMethodAppend(a: seq<NumbersRow>, b: seq<NumbersRow>, metodo: string)
    ensures ByMethod(a + b, metodo) == ByMethod(a, metodo) + ByMethod(b, metodo)
  {
    if b == [] {
      assert a + b == a;
    } else {
      var init, last := b[..|b| - 1], b[|b| - 1];
      assert (a + b)[..|a + b| - 1] == a + init;
      ByMethodAppend(a, init, metodo);
    }
  }

  /** A row of the own log, at any position, whose method is neither exactly `Contanti` nor exactly `POS` changes nothing in the table. */
  lemma OtherMethodIgnored(numbers: seq<NumbersRow>, billy: seq<BillyRow>, row: NumbersRow, i: nat)
    requires i <= |numbers|
    requires row.metodo != Some("Contanti") && row.metodo != Some("POS")
    ensures Confronto(numbers[..i] + [row] + numbers[i..], billy) == Confronto(numbers, billy)
  {
    ByMethodInsert(numbers, row, i, "Contanti");
    ByMethodInsert(numbers, row, i, "POS");
    var grown := numbers[..i] + [row] + numbers[i..];
    assert ByMethod(grown, "Contanti") == ByMethod(numbers[..i], "Contanti") + [] + ByMethod(numbers[i..], "Contanti");
    assert ByMethod(grown, "POS") == ByMethod(numbers[..i], "POS") + [] + ByMethod(numbers[i..], "POS");
    assert ByMethod(grown, "Contanti") == ByMethod(numbers, "Contanti");
    assert ByMethod(grown, "POS") == ByMethod(numbers, "POS");
    assert NumbersGrouped(numbers[..i] + [row] + numbers[i..]) == NumbersGrouped(numbers);
  }

  /** The per-date sum of two runs of values, one after the other, is the sum of their per-date sums. */
  lemma {:induction false} TotalAppend(a: seq<Obs>, b: seq<Obs>, d: Date)
    ensures Total(a + b, d) == Total(a, d) + Total(b, d)
  {
    if b == [] {
      assert a + b == a;
    } else {
      var init := b[..|b| - 1];
      assert (a + b)[..|a + b| - 1] == a + init;
      TotalAppend(a, init, d);
    }
  }

  /** The filter of a log with one row inserted is the filter of the rows before it, of the row, and of the rows after it. */
  lemma ByMethodInsert(numbers: seq<NumbersRow>, row: NumbersRow, i: nat, metodo: string)
    requires i <= |numbers|
    ensures ByMethod(numbers[..i] + [row] + numbers[i..], metodo)
            == ByMethod(numbers[..i], metodo) + ByMethod([row], metodo) + ByMethod(numbers[i..], metodo)
    ensures ByMethod(numbers, metodo) == ByMethod(numbers[..i], metodo) + ByMethod(numbers[i..], metodo)
    ensures ByMethod([row], metodo) == if row.metodo == Some(metodo) then [Obs(row.data, row.importo)] else []
  {
    var before, after := numbers[..i], numbers[i..];
    assert numbers == before + after;
    assert [row][..0] == [];
    assert ByMethod([row], metodo) == ByMethod([], metodo) + (if row.metodo == Some(metodo) then [Obs(row.data, row.importo)] else []);
    ByMethodAppend(before + [row], after, metodo);
    ByMethodAppend(before, [row], metodo);
    ByMethodAppend(before, after, metodo);
  }

  /**
   * A row of the own log whose method is exactly `metodo`, inserted at any
   * position, adds its amount to that method's sum at its own date and to no
   * other date's, and leaves the rows of every other method as they were.
   */
  lemma MethodRowCounted(numbers: seq<NumbersRow>, row: NumbersRow, i: nat, metodo: string, other: string, k: Date)
    requires i <= |numbers|
    requires row.metodo == Some(metodo) && other != metodo
    ensures Total(ByMethod(numbers[..i] + [row] + numbers[i..], metodo), k)
            == Total(ByMethod(numbers, metodo), k) + (if row.data == Some(k) then CellValue(row.importo) else 0.0)
    ensures ByMethod(numbers[..i] + [row] + numbers[i..], other) == ByMethod(numbers, other)
  {
    ByMethodInsert(numbers, row, i, metodo);
    ByMethodInsert(numbers, row, i, other);
    TotalInsert(ByMethod(numbers[..i], metodo), Obs(row.data, row.importo), ByMethod(numbers[i..], metodo), k);
  }

  /** A date's sum with one value inserted is the sum without it plus that value when it carries the date. */
  lemma TotalInsert(before: seq<Obs>, o: Obs, after: seq<Obs>, k: Date)
    ensures Total(before + [o] + after, k) == Total(before + after, k) + (if o.data == Some(k) then CellValue(o.value) else 0.0)
  {
    TotalAppend(before + [o], after, k);
    TotalAppend(before, [o], k);
    TotalAppend(before, after, k);
    assert [o][..0] == [];
  }

  /** A `Contanti` row, inserted anywhere, adds its amount to `Contanti_Reale` at its date and changes no `POS_Reale`. */
  lemma CashRowCounted(numbers: seq<NumbersRow>, row: NumbersRow, i: nat, d: Date)
    requires i <= |numbers|
    requires row.metodo == Some("Contanti") && row.data == Some(d)
    ensures Lookup(NumbersGrouped(numbers[..i] + [row] + numbers[i..]), d, (0.0, 0.0))
            == (Lookup(NumbersGrouped(numbers), d, (0.0, 0.0)).0 + CellValue(row.importo), Lookup(NumbersGrouped(numbers), d, (0.0, 0.0)).1)
    ensures forall k :: Lookup(NumbersGrouped(numbers[..i] + [row] + numbers[i..]), k, (0.0, 0.0)).1 == Lookup(NumbersGrouped(numbers), k, (0.0, 0.0)).1
  {
    var grown := numbers[..i] + [row] + numbers[i..];
    NumbersGroupedSpec(grown);
    NumbersGroupedSpec(numbers);
    MethodRowCounted(numbers, row, i, "Contanti", "POS", d);
  }

  /** A `POS` row, inserted anywhere, adds its amount to `POS_Reale` at its date and changes no `Contanti_Reale`. */
  lemma CardRowCounted(numbers: seq<NumbersRow>, row: NumbersRow, i: nat, d: Date)
    requires i <= |numbers|
    requires row.metodo == Some("POS") && row.data == Some(d)
    ensures Lookup(NumbersGrouped(numbers[..i] + [row] + numbers[i..]), d, (0.0, 0.0))
            == (Lookup(NumbersGrouped(numbers), d, (0.0, 0.0)).0, Lookup(NumbersGrouped(numbers), d, (0.0, 0.0)).1 + CellValue(row.importo))
    ensures forall k :: Lookup(NumbersGrouped(numbers[..i] + [row] + numbers[i..]), k, (0.0, 0.0)).0 == Lookup(NumbersGrouped(numbers), k, (0.0, 0.0)).0
  {
    var grown := numbers[..i] + [row] + numbers[i..];
    NumbersGroupedSpec(grown);
    NumbersGroupedSpec(numbers);
    MethodRowCounted(numbers, row, i, "POS", "Contanti", d);
  }

  // ---------------------------------------------------------------------------
  // Conservation

  /** The sum of both columns of a paired table. */
  function PairColumns(s: seq<Row<(real, real)>>): real {
    if s == [] then 0.0 else s[0].value.0 + s[0].value.1 + PairColumns(s[1..])
  }

  /** The own side's total less the ledger's total, over a merged table. */
  function NetColumns(s: seq<Row<((real, real), (real, real))>>): real {
    if s == [] then 0.0
    else (s[0].value.0.0 + s[0].value.0.1) - (s[0].value.1.0 + s[0].value.1.1) + NetColumns(s[1..])
  }

  /** The sum of the `Diff_Totale` column. */
  function DiffTotal(rows: seq<ConfrontoRow>): real {
    if rows == [] then 0.0 else rows[0].diffTotale + DiffTotal(rows[1..])
  }

  lemma {:induction false} AlignedColumns(a: seq<Row<real>>, b: seq<Row<real>>)
    ensures PairColumns(OuterJoin(a, b, 0.0, 0.0)) == Column(a) + Column(b)
    decreases |a| + |b|
  {
    if a == [] && b == [] {
    } else if b == [] || (a != [] && DateLess(a[0].data, b[0].data)) {
      AlignedColumns(a[1..], b);
    } else if a == [] || DateLess(b[0].data, a[0].data) {
      AlignedColumns(a, b[1..]);
    } else {
      AlignedColumns(a[1..], b[1..]);
    }
  }

  lemma {:induction false} MergedColumns(a: seq<Row<(real, real)>>, b: seq<Row<(real, real)>>)
    ensures NetColumns(OuterJoin(a, b, (0.0, 0.0), (0.0, 0.0))) == PairColumns(a) - PairColumns(b)
    decreases |a| + |b|
  {
    if a == [] && b == [] {
    } else if b == [] || (a != [] && DateLess(a[0].data, b[0].data)) {
      MergedColumns(a[1..], b);
    } else if a == [] || DateLess(b[0].data, a[0].data) {
      MergedColumns(a, b[1..]);
    } else {
      MergedColumns(a[1..], b[1..]);
    }
  }

  lemma {:induction false} DifferencesTotal(ms: seq<Row<((real, real), (real, real))>>)
    ensures DiffTotal(Differences(ms)) == NetColumns(ms)
  {
    if ms != [] {
      DifferencesTotal(ms[1..]);
    }
  }

  /**
   * Conservation: the `Diff_Totale` column adds up to the own log's cash and
   * card amounts less the ledger's cash and card amounts, counting every
   * dated, non-NaN amount once.
   */
  lemma Conservation(numbers: seq<NumbersRow>, billy: seq<BillyRow>)
    ensures DiffTotal(Confronto(numbers, billy)) ==
              (GrandTotal(ByMethod(numbers, "Contanti")) + GrandTotal(ByMethod(numbers, "POS")))
              - (GrandTotal(CashObs(billy)) + GrandTotal(CardObs(billy)))
  {
    GroupSumSpec(ByMethod(numbers, "Contanti"));
    GroupSumSpec(ByMethod(numbers, "POS"));
    GroupSumSpec(CashObs(billy));
    GroupSumSpec(CardObs(billy));
    AlignedColumns(GroupSum(ByMethod(numbers, "Contanti")), GroupSum(ByMethod(numbers, "POS")));
    AlignedColumns(GroupSum(CashObs(billy)), GroupSum(CardObs(billy)));
    MergedColumns(NumbersGrouped(numbers), BillyGrouped(billy));
    DifferencesTotal(Merged(numbers, billy));
  }
}
