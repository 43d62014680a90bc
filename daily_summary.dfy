/**
 * What the daily summary guarantees: it is the only table meeting its
 * definition, its days run in calendar order, entries without a usable date
 * leave it unchanged, a day missing from a source shows 0 for that source,
 * and every dated entry has its row.
 */
module DailySummary {
  import opened Wrappers
  import opened LexOrder
  import opened Calendar
  import opened DateKeys
  import opened Entries
  import opened DailyAggregation

  /** A day is filed by some amount exactly when one of the amounts carries it. */
  lemma {:induction false} DaysOfIndex(ps: seq<Dated>, k: string)
    ensures k in DaysOf(ps) <==> exists i :: 0 <= i < |ps| && ps[i].day == Some(k)
  {
    if ps != [] {
      var init := ps[..|ps| - 1];
      DaysOfIndex(init, k);
      if k in DaysOf(init) {
        var i :| 0 <= i < |init| && init[i].day == Some(k);
        assert ps[i] == init[i];
      }
      if exists i :: 0 <= i < |ps| && ps[i].day == Some(k) {
        var i :| 0 <= i < |ps| && ps[i].day == Some(k);
        if i < |init| {
          assert init[i] == ps[i];
        }
      }
    }
  }

  /** Every day amounts are filed under is a canonical day key. */
  lemma FiledDaysAreKeys(ps: seq<Dated>, k: string)
    requires forall i :: 0 <= i < |ps| && ps[i].day.Some? ==> IsDayKey(ps[i].day.value)
    requires k in DaysOf(ps)
    ensures IsDayKey(k)
  {
    DaysOfIndex(ps, k);
  }

  lemma SummaryDaysAreKeys(notes: seq<NoteEntry>, sumUps: seq<SumUpEntry>, billys: seq<BillyEntry>, k: string)
    requires k in AllDays(notes, sumUps, billys)
    ensures IsDayKey(k)
  {
    var np, sp, bt := NoteAmounts(notes), SumUpAmounts(sumUps), BillyTotals(billys);
    forall i | 0 <= i < |np| ensures np[i].day.Some? ==> IsDayKey(np[i].day.value) {
      NormalizedIsDayKey(notes[i].date);
    }
    forall i | 0 <= i < |sp| ensures sp[i].day.Some? ==> IsDayKey(sp[i].day.value) {
      NormalizedIsDayKey(sumUps[i].date);
    }
    forall i | 0 <= i < |bt| ensures bt[i].day.Some? ==> IsDayKey(bt[i].day.value) {
      NormalizedIsDayKey(billys[i].date);
    }
    if k in DaysOf(np) {
      FiledDaysAreKeys(np, k);
    } else if k in DaysOf(sp) {
      FiledDaysAreKeys(sp, k);
    } else {
      FiledDaysAreKeys(bt, k);
    }
  }

  /** The rows of a daily summary are canonical day keys in strictly increasing calendar order. */
  lemma ChronologicalDays(rows: seq<AggregatedDay>, notes: seq<NoteEntry>, sumUps: seq<SumUpEntry>, billys: seq<BillyEntry>)
    requires IsDailySummary(rows, notes, sumUps, billys)
    ensures forall i :: 0 <= i < |rows| ==> IsDayKey(rows[i].date)
    ensures forall i, j :: 0 <= i < j < |rows| ==> KeyBefore(rows[i].date, rows[j].date)
  {
    forall i | 0 <= i < |rows| ensures IsDayKey(rows[i].date) {
      assert rows[i].date in DatesOf(rows);
      SummaryDaysAreKeys(notes, sumUps, billys, rows[i].date);
    }
    forall i, j | 0 <= i < j < |rows|
      ensures KeyBefore(rows[i].date, rows[j].date)
    {
      DayKeyOrder(rows[i].date, rows[j].date);
    }
  }

  /** The first key of two ascending tables with the same keys is the same. */
  lemma FirstDate(a: seq<AggregatedDay>, b: seq<AggregatedDay>)
    requires a != [] && b != [] && Ascending(a) && Ascending(b) && DatesOf(a) == DatesOf(b)
    ensures a[0].date == b[0].date
  {
    assert a[0].date in DatesOf(b);
    var j :| 0 <= j < |b| && b[j].date == a[0].date;
    assert b[0].date in DatesOf(a);
    var k :| 0 <= k < |a| && a[k].date == b[0].date;
    if j > 0 {
      if k == 0 {
        LexIrreflexive(a[0].date);
      } else {
        LexTransitive(a[0].date, b[0].date, a[0].date);
        LexIrreflexive(a[0].date);
      }
    }
  }

  lemma TailDates(a: seq<AggregatedDay>)
    requires a != [] && Ascending(a)
    ensures DatesOf(a[1..]) == DatesOf(a) - {a[0].date}
  {
    forall k | k in DatesOf(a[1..]) ensures k != a[0].date {
      var i :| 0 <= i < |a[1..]| && a[1..][i].date == k;
      assert LexLess(a[0].date, a[i + 1].date);
      LexIrreflexive(a[0].date);
    }
    forall k | k in DatesOf(a) && k != a[0].date ensures k in DatesOf(a[1..]) {
      var i :| 0 <= i < |a| && a[i].date == k;
      assert a[1..][i - 1] == a[i];
    }
  }

  lemma NoRowsNoDates(a: seq<AggregatedDay>)
    ensures a == [] <==> DatesOf(a) == {}
  {
    if a != [] {
      assert a[0].date in DatesOf(a);
    }
  }

  /** Two ascending tables with the same keys, agreeing on the row of every key, are equal. */
  lemma {:induction false} AscendingUnique(a: seq<AggregatedDay>, b: seq<AggregatedDay>)
    requires Ascending(a) && Ascending(b) && DatesOf(a) == DatesOf(b)
    requires forall i, j :: 0 <= i < |a| && 0 <= j < |b| && a[i].date == b[j].date ==> a[i] == b[j]
    ensures a == b
  {
    NoRowsNoDates(a);
    NoRowsNoDates(b);
    if a != [] {
      FirstDate(a, b);
      TailDates(a);
      TailDates(b);
      forall i, j | 0 <= i < |a[1..]| && 0 <= j < |b[1..]| && a[1..][i].date == b[1..][j].date
        ensures a[1..][i] == b[1..][j]
      {
        assert a[i + 1].date == b[j + 1].date;
      }
      AscendingUnique(a[1..], b[1..]);
      assert a == [a[0]] + a[1..];
      assert b == [b[0]] + b[1..];
    }
  }

  /** The daily summary of three sources is unique: the sort leaves no choice. */
  lemma SummaryUnique(a: seq<AggregatedDay>, b: seq<AggregatedDay>, notes: seq<NoteEntry>, sumUps: seq<SumUpEntry>, billys: seq<BillyEntry>)
    requires IsDailySummary(a, notes, sumUps, billys) && IsDailySummary(b, notes, sumUps, billys)
    ensures a == b
  {
    AscendingUnique(a, b);
  }

  /** Every entry whose date normalises to a day has a row for that day. */
  lemma DatedEntryHasRow(rows: seq<AggregatedDay>, notes: seq<NoteEntry>, sumUps: seq<SumUpEntry>, billys: seq<BillyEntry>)
    requires IsDailySummary(rows, notes, sumUps, billys)
    ensures forall i :: 0 <= i < |notes| && NormalizeDate(notes[i].date).Some? ==> NormalizeDate(notes[i].date).value in DatesOf(rows)
    ensures forall i :: 0 <= i < |sumUps| && NormalizeDate(sumUps[i].date).Some? ==> NormalizeDate(sumUps[i].date).value in DatesOf(rows)
    ensures forall i :: 0 <= i < |billys| && NormalizeDate(billys[i].date).Some? ==> NormalizeDate(billys[i].date).value in DatesOf(rows)
  {
    forall i | 0 <= i < |notes| && NormalizeDate(notes[i].date).Some? ensures NormalizeDate(notes[i].date).value in DatesOf(rows) {
      DaysOfIndex(NoteAmounts(notes), NormalizeDate(notes[i].date).value);
    }
    forall i | 0 <= i < |sumUps| && NormalizeDate(sumUps[i].date).Some? ensures NormalizeDate(sumUps[i].date).value in DatesOf(rows) {
      DaysOfIndex(SumUpAmounts(sumUps), NormalizeDate(sumUps[i].date).value);
    }
    forall i | 0 <= i < |billys| && NormalizeDate(billys[i].date).Some? ensures NormalizeDate(billys[i].date).value in DatesOf(rows) {
      DaysOfIndex(BillyTotals(billys), NormalizeDate(billys[i].date).value);
    }
  }

  /** A row whose day no entry of a source normalises to shows 0 for every field of that source. */
  lemma MissingSourceIsZero(rows: seq<AggregatedDay>, notes: seq<NoteEntry>, sumUps: seq<SumUpEntry>, billys: seq<BillyEntry>, i: int)
    requires IsDailySummary(rows, notes, sumUps, billys) && 0 <= i < |rows|
    ensures (forall e :: e in notes ==> NormalizeDate(e.date) != Some(rows[i].date)) ==> rows[i].noteTotal == 0.0
    ensures (forall e :: e in sumUps ==> NormalizeDate(e.date) != Some(rows[i].date)) ==> rows[i].sumUpTotal == 0.0
    ensures (forall e :: e in billys ==> NormalizeDate(e.date) != Some(rows[i].date)) ==>
              rows[i].billyTotal == 0.0 && rows[i].billyPos == 0.0 && rows[i].billyCash == 0.0
  {
    var day := rows[i].date;
    DaysOfIndex(NoteAmounts(notes), day);
    DaysOfIndex(SumUpAmounts(sumUps), day);
    DaysOfIndex(BillyTotals(billys), day);
    BillyDaysAgree(billys);
    if day !in DaysOf(NoteAmounts(notes)) {
      AbsentDayIsZero(NoteAmounts(notes), day);
    } else {
      var j :| 0 <= j < |notes| && NoteAmounts(notes)[j].day == Some(day);
      assert notes[j] in notes;
    }
    if day !in DaysOf(SumUpAmounts(sumUps)) {
      AbsentDayIsZero(SumUpAmounts(sumUps), day);
    } else {
      var j :| 0 <= j < |sumUps| && SumUpAmounts(sumUps)[j].day == Some(day);
      assert sumUps[j] in sumUps;
    }
    if day !in DaysOf(BillyTotals(billys)) {
      AbsentDayIsZero(BillyTotals(billys), day);
      AbsentDayIsZero(BillyPos(billys), day);
      AbsentDayIsZero(BillyCash(billys), day);
    } else {
      var j :| 0 <= j < |billys| && BillyTotals(billys)[j].day == Some(day);
      assert billys[j] in billys;
    }
  }

  /** Appending an amount without a day changes no day's sum and no set of days. */
  lemma UnfiledChangesNothing(ps: seq<Dated>, amount: real)
    ensures DaysOf(ps + [Dated(None, amount)]) == DaysOf(ps)
    ensures forall k :: DaySum(ps + [Dated(None, amount)], k) == DaySum(ps, k)
  {
    DaysOfSnoc(ps, Dated(None, amount));
    UnfiledSums(ps, amount);
  }

  /** A Note entry whose date is missing, empty or not a date leaves the summary as it is. */
  lemma UndatedNoteIgnored(rows: seq<AggregatedDay>, notes: seq<NoteEntry>, sumUps: seq<SumUpEntry>, billys: seq<BillyEntry>, n: NoteEntry)
    requires NormalizeDate(n.date).None?
    ensures IsDailySummary(rows, notes + [n], sumUps, billys) <==> IsDailySummary(rows, notes, sumUps, billys)
  {
    assert (notes + [n])[..|notes|] == notes;
    UnfiledChangesNothing(NoteAmounts(notes), n.amount);
    assert forall k :: DayRow(k, notes + [n], sumUps, billys) == DayRow(k, notes, sumUps, billys);
  }

  /** A SumUp entry whose date is missing, empty or not a date leaves the summary as it is. */
  lemma UndatedSumUpIgnored(rows: seq<AggregatedDay>, notes: seq<NoteEntry>, sumUps: seq<SumUpEntry>, billys: seq<BillyEntry>, s: SumUpEntry)
    requires NormalizeDate(s.date).None?
    ensures IsDailySummary(rows, notes, sumUps + [s], billys) <==> IsDailySummary(rows, notes, sumUps, billys)
  {
    assert (sumUps + [s])[..|sumUps|] == sumUps;
    UnfiledChangesNothing(SumUpAmounts(sumUps), s.amount);
    assert forall k :: DayRow(k, notes, sumUps + [s], billys) == DayRow(k, notes, sumUps, billys);
  }

  /** A Billy entry whose date is missing, empty or not a date leaves the summary as it is. */
  lemma UndatedBillyIgnored(rows: seq<AggregatedDay>, notes: seq<NoteEntry>, sumUps: seq<SumUpEntry>, billys: seq<BillyEntry>, b: BillyEntry)
    requires NormalizeDate(b.date).None?
    ensures IsDailySummary(rows, notes, sumUps, billys + [b]) <==> IsDailySummary(rows, notes, sumUps, billys)
  {
    assert (billys + [b])[..|billys|] == billys;
    UnfiledChangesNothing(BillyTotals(billys), b.total);
    UnfiledChangesNothing(BillyPos(billys), b.pos);
    UnfiledChangesNothing(BillyCash(billys), b.cash);
    assert forall k :: DayRow(k, notes, sumUps, billys + [b]) == DayRow(k, notes, sumUps, billys);
  }
}
