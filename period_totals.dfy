/**
 * The period totals: a left fold over the daily rows adding up the own-log
 * totals, the ledger totals, the SumUp totals (shown as `pos`) and the
 * differences.
 */
module PeriodTotals {
  import opened Wrappers
  import opened Entries
  import opened DailyAggregation

  datatype Totals = Totals(note: real, billy: real, pos: real, diff: real)

  /** `rows.reduce(...)` from all zeros, one row at a time from the first. */
  function PeriodTotals(rows: seq<AggregatedDay>): Totals {
    if rows == [] then Totals(0.0, 0.0, 0.0, 0.0)
    else
      var acc := PeriodTotals(rows[..|rows| - 1]);
      var curr := rows[|rows| - 1];
      Totals(acc.note + curr.noteTotal, acc.billy + curr.billyTotal, acc.pos + curr.sumUpTotal, acc.diff + curr.difference)
  }

  /** When every row's difference is its own-log total less its ledger total, so is the period's. */
  lemma {:induction false} TotalsDifference(rows: seq<AggregatedDay>)
    requires forall i :: 0 <= i < |rows| ==> rows[i].difference == rows[i].noteTotal - rows[i].billyTotal
    ensures PeriodTotals(rows).diff == PeriodTotals(rows).note - PeriodTotals(rows).billy
  {
    if rows != [] {
      TotalsDifference(rows[..|rows| - 1]);
    }
  }

  /** The sum, over the days of the rows, of the amounts filed under each. */
  function SumDays(ps: seq<Dated>, rows: seq<AggregatedDay>): real {
    if rows == [] then 0.0
    else SumDays(ps, rows[..|rows| - 1]) + DaySum(ps, rows[|rows| - 1].date)
  }

  predicate DistinctDates(rows: seq<AggregatedDay>) {
    forall i, j :: 0 <= i < j < |rows| ==> rows[i].date != rows[j].date
  }

  /** One more amount adds itself to the sum over the days once if its day is among them, and not at all otherwise. */
  lemma {:induction false} SumDaysSnoc(ps: seq<Dated>, p: Dated, rows: seq<AggregatedDay>)
    requires DistinctDates(rows)
    ensures SumDays(ps + [p], rows) == SumDays(ps, rows) + (if p.day.Some? && p.day.value in DatesOf(rows) then p.amount else 0.0)
  {
    if rows != [] {
      var init := rows[..|rows| - 1];
      var last := rows[|rows| - 1];
      SumDaysSnoc(ps, p, init);
      DaySumSnoc(ps, p, last.date);
      assert DatesOf(rows) == DatesOf(init) + {last.date} by {
        forall k | k in DatesOf(rows) ensures k in DatesOf(init) + {last.date} {
          var i :| 0 <= i < |rows| && rows[i].date == k;
          if i < |init| {
            assert init[i] == rows[i];
          }
        }
        forall k | k in DatesOf(init) ensures k in DatesOf(rows) {
          var i :| 0 <= i < |init| && init[i].date == k;
          assert rows[i] == init[i];
        }
      }
      if p.day.Some? && p.day.value in DatesOf(init) {
        var i :| 0 <= i < |init| && init[i].date == p.day.value;
        assert rows[i] == init[i];
      }
    }
  }

  /** Over distinct days covering every filed day, the per-day sums add up to all the filed amounts. */
  lemma {:induction false} SumDaysIsValidSum(ps: seq<Dated>, rows: seq<AggregatedDay>)
    requires DistinctDates(rows) && DaysOf(ps) <= DatesOf(rows)
    ensures SumDays(ps, rows) == ValidSum(ps)
  {
    if ps == [] {
      NothingFiled(rows);
    } else {
      var init := ps[..|ps| - 1];
      var last := ps[|ps| - 1];
      assert ps == init + [last];
      DaysOfSnoc(init, last);
      SumDaysIsValidSum(init, rows);
      SumDaysSnoc(init, last, rows);
    }
  }

  lemma {:induction false} NothingFiled(rows: seq<AggregatedDay>)
    ensures SumDays([], rows) == 0.0
  {
    if rows != [] {
      NothingFiled(rows[..|rows| - 1]);
    }
  }

  /** The totals of rows that each carry the sums of their day are the per-day sums over their days. */
  lemma {:induction false} TotalsByDay(rows: seq<AggregatedDay>, notes: seq<NoteEntry>, sumUps: seq<SumUpEntry>, billys: seq<BillyEntry>)
    requires forall i :: 0 <= i < |rows| ==> rows[i] == DayRow(rows[i].date, notes, sumUps, billys)
    ensures PeriodTotals(rows).note == SumDays(NoteAmounts(notes), rows)
    ensures PeriodTotals(rows).billy == SumDays(BillyTotals(billys), rows)
    ensures PeriodTotals(rows).pos == SumDays(SumUpAmounts(sumUps), rows)
  {
    if rows != [] {
      TotalsByDay(rows[..|rows| - 1], notes, sumUps, billys);
    }
  }

  /**
   * Conservation: over a daily summary, the own-log total is the sum of every
   * Note amount whose date has a key, and likewise for the ledger and SumUp;
   * the period difference is the own-log total less the ledger total.
   */
  lemma TotalsConservation(rows: seq<AggregatedDay>, notes: seq<NoteEntry>, sumUps: seq<SumUpEntry>, billys: seq<BillyEntry>)
    requires IsDailySummary(rows, notes, sumUps, billys)
    ensures PeriodTotals(rows).note == ValidSum(NoteAmounts(notes))
    ensures PeriodTotals(rows).billy == ValidSum(BillyTotals(billys))
    ensures PeriodTotals(rows).pos == ValidSum(SumUpAmounts(sumUps))
    ensures PeriodTotals(rows).diff == PeriodTotals(rows).note - PeriodTotals(rows).billy
  {
    forall i, j | 0 <= i < j < |rows| ensures rows[i].date != rows[j].date {
      if rows[i].date == rows[j].date {
        LexOrder.LexIrreflexive(rows[i].date);
      }
    }
    TotalsByDay(rows, notes, sumUps, billys);
    SumDaysIsValidSum(NoteAmounts(notes), rows);
    SumDaysIsValidSum(BillyTotals(billys), rows);
    SumDaysIsValidSum(SumUpAmounts(sumUps), rows);
    TotalsDifference(rows);
  }
}
