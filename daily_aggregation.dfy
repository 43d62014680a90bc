/**
 * The daily reconciliation: every entry of the three sources is filed under
 * the day key its date normalises to, amounts are added up per day in a
 * dictionary, each day gets the difference between the merchant's own log and
 * the fiscal ledger, the days are sorted by key, and a fold adds up the
 * period totals.
 */
module DailyAggregation {
  import opened Wrappers
  import opened LexOrder
  import opened Calendar
  import opened DateKeys
  import opened Entries

  datatype AggregatedDay = AggregatedDay(
    date: string,
    noteTotal: real,
    sumUpTotal: real,
    billyTotal: real,
    billyPos: real,
    billyCash: real,
    difference: real)

  /** An amount together with the day key of its entry's date (`None` when the date has none). */
  datatype Dated = Dated(day: Option<string>, amount: real)

  /** Each entry's amount, as `amount` reads it, with the day key its date (as `date` reads it) normalises to, in entry order. */
  function Keyed<E>(es: seq<E>, date: E -> Option<string>, amount: E -> real): (ps: seq<Dated>)
    ensures |ps| == |es|
    ensures forall i :: 0 <= i < |es| ==> ps[i] == Dated(NormalizeDate(date(es[i])), amount(es[i]))
  {
    if es == [] then []
    else
      var last := es[|es| - 1];
      Keyed(es[..|es| - 1], date, amount) + [Dated(NormalizeDate(date(last)), amount(last))]
  }

  /** The Note entries' amounts by day. */
  function NoteAmounts(notes: seq<NoteEntry>): seq<Dated> {
    Keyed(notes, (n: NoteEntry) => n.date, (n: NoteEntry) => n.amount)
  }

  /** The SumUp entries' gross amounts by day. */
  function SumUpAmounts(sumUps: seq<SumUpEntry>): seq<Dated> {
    Keyed(sumUps, (u: SumUpEntry) => u.date, (u: SumUpEntry) => u.amount)
  }

  /** The Billy entries' totals by day. */
  function BillyTotals(billys: seq<BillyEntry>): seq<Dated> {
    Keyed(billys, (b: BillyEntry) => b.date, (b: BillyEntry) => b.total)
  }

  /** The Billy entries' POS amounts by day. */
  function BillyPos(billys: seq<BillyEntry>): seq<Dated> {
    Keyed(billys, (b: BillyEntry) => b.date, (b: BillyEntry) => b.pos)
  }

  /** The Billy entries' cash amounts by day. */
  function BillyCash(billys: seq<BillyEntry>): seq<Dated> {
    Keyed(billys, (b: BillyEntry) => b.date, (b: BillyEntry) => b.cash)
  }

  /** The sum of the amounts filed under `day`. */
  function DaySum(ps: seq<Dated>, day: string): real {
    if ps == [] then 0.0
    else
      var last := ps[|ps| - 1];
      DaySum(ps[..|ps| - 1], day) + (if last.day == Some(day) then last.amount else 0.0)
  }

  /** The sum of the amounts that are filed under some day. */
  function ValidSum(ps: seq<Dated>): real {
    if ps == [] then 0.0
    else
      var last := ps[|ps| - 1];
      ValidSum(ps[..|ps| - 1]) + (if last.day.Some? then last.amount else 0.0)
  }

  /** The days that amounts are filed under. */
  function DaysOf(ps: seq<Dated>): set<string> {
    if ps == [] then {}
    else
      var last := ps[|ps| - 1];
      DaysOf(ps[..|ps| - 1]) + (if last.day.Some? then {last.day.value} else {})
  }

  /** Every day that some entry of some source is filed under. */
  function AllDays(notes: seq<NoteEntry>, sumUps: seq<SumUpEntry>, billys: seq<BillyEntry>): set<string> {
    DaysOf(NoteAmounts(notes)) + DaysOf(SumUpAmounts(sumUps)) + DaysOf(BillyTotals(billys))
  }

  /** The row a day should get: its per-source sums and the difference between the own log and the ledger. */
  function DayRow(day: string, notes: seq<NoteEntry>, sumUps: seq<SumUpEntry>, billys: seq<BillyEntry>): AggregatedDay {
    var note := DaySum(NoteAmounts(notes), day);
    var billy := DaySum(BillyTotals(billys), day);
    AggregatedDay(day, note, DaySum(SumUpAmounts(sumUps), day), billy,
                  DaySum(BillyPos(billys), day), DaySum(BillyCash(billys), day), note - billy)
  }

  /** The rows are in strictly ascending order of their keys. */
  predicate Ascending(rows: seq<AggregatedDay>) {
    forall i, j :: 0 <= i < j < |rows| ==> LexLess(rows[i].date, rows[j].date)
  }

  function DatesOf(rows: seq<AggregatedDay>): set<string> {
    set i | 0 <= i < |rows| :: rows[i].date
  }

  /** What the reconciliation table is: one row per day of any source, ascending, each with the sums of that day. */
  predicate IsDailySummary(rows: seq<AggregatedDay>, notes: seq<NoteEntry>, sumUps: seq<SumUpEntry>, billys: seq<BillyEntry>) {
    && Ascending(rows)
    && DatesOf(rows) == AllDays(notes, sumUps, billys)
    && forall i :: 0 <= i < |rows| ==> rows[i] == DayRow(rows[i].date, notes, sumUps, billys)
  }

  /** A day's row while the sources are still being added up: the sums so far, the difference not yet computed. */
  function Running(day: string, np: seq<Dated>, sp: seq<Dated>, bt: seq<Dated>, bp: seq<Dated>, bc: seq<Dated>): AggregatedDay {
    AggregatedDay(day, DaySum(np, day), DaySum(sp, day), DaySum(bt, day), DaySum(bp, day), DaySum(bc, day), 0.0)
  }

  /** The insertion order lists each key of the dictionary once. */
  ghost predicate Listed(days: map<string, AggregatedDay>, order: seq<string>) {
    && (forall i, j :: 0 <= i < j < |order| ==> order[i] != order[j])
    && (forall k :: k in days <==> k in order)
  }

  /** Every day of the dictionary holds the running sums of its amounts. */
  ghost predicate Sums(days: map<string, AggregatedDay>, np: seq<Dated>, sp: seq<Dated>, bt: seq<Dated>, bp: seq<Dated>, bc: seq<Dated>) {
    forall k :: k in days ==> days[k] == Running(k, np, sp, bt, bp, bc)
  }

  /** The days that at least one of the amounts is filed under. */
  function Filed(np: seq<Dated>, sp: seq<Dated>, bt: seq<Dated>, bp: seq<Dated>, bc: seq<Dated>): set<string> {
    DaysOf(np) + DaysOf(sp) + DaysOf(bt) + DaysOf(bp) + DaysOf(bc)
  }

  lemma NoteFiledDays(np: seq<Dated>, sp: seq<Dated>, bt: seq<Dated>, bp: seq<Dated>, bc: seq<Dated>, day: string, amount: real)
    ensures Filed(np + [Dated(Some(day), amount)], sp, bt, bp, bc) == Filed(np, sp, bt, bp, bc) + {day}
  {
    DaysOfSnoc(np, Dated(Some(day), amount));
  }

  lemma SumUpFiledDays(np: seq<Dated>, sp: seq<Dated>, bt: seq<Dated>, bp: seq<Dated>, bc: seq<Dated>, day: string, amount: real)
    ensures Filed(np, sp + [Dated(Some(day), amount)], bt, bp, bc) == Filed(np, sp, bt, bp, bc) + {day}
  {
    DaysOfSnoc(sp, Dated(Some(day), amount));
  }

  lemma BillyFiledDays(np: seq<Dated>, sp: seq<Dated>, bt: seq<Dated>, bp: seq<Dated>, bc: seq<Dated>, day: string, total: real, pos: real, cash: real)
    ensures Filed(np, sp, bt + [Dated(Some(day), total)], bp + [Dated(Some(day), pos)], bc + [Dated(Some(day), cash)]) == Filed(np, sp, bt, bp, bc) + {day}
  {
    DaysOfSnoc(bt, Dated(Some(day), total));
    DaysOfSnoc(bp, Dated(Some(day), pos));
    DaysOfSnoc(bc, Dated(Some(day), cash));
  }

  /** The dictionary and its insertion order once the amounts given have been added up. */
  ghost predicate Tally(days: map<string, AggregatedDay>, order: seq<string>,
                        np: seq<Dated>, sp: seq<Dated>, bt: seq<Dated>, bp: seq<Dated>, bc: seq<Dated>) {
    && Listed(days, order)
    && days.Keys == Filed(np, sp, bt, bp, bc)
    && Sums(days, np, sp, bt, bp, bc)
  }

  function Blank(day: string): AggregatedDay {
    AggregatedDay(day, 0.0, 0.0, 0.0, 0.0, 0.0, 0.0)
  }

  lemma DaySumSnoc(ps: seq<Dated>, p: Dated, day: string)
    ensures DaySum(ps + [p], day) == DaySum(ps, day) + (if p.day == Some(day) then p.amount else 0.0)
  {
    assert (ps + [p])[..|ps|] == ps;
  }

  lemma DaysOfSnoc(ps: seq<Dated>, p: Dated)
    ensures DaysOf(ps + [p]) == DaysOf(ps) + (if p.day.Some? then {p.day.value} else {})
  {
    assert (ps + [p])[..|ps|] == ps;
  }

  /** An amount without a day changes no day's sum. */
  lemma UnfiledSums(ps: seq<Dated>, amount: real)
    ensures forall k :: DaySum(ps + [Dated(None, amount)], k) == DaySum(ps, k)
  {
    forall k {
      DaySumSnoc(ps, Dated(None, amount), k);
    }
  }

  /** An amount filed under `day` adds to that day's sum only. */
  lemma FiledSums(ps: seq<Dated>, day: string, amount: real)
    ensures forall k :: DaySum(ps + [Dated(Some(day), amount)], k) == DaySum(ps, k) + (if k == day then amount else 0.0)
  {
    forall k {
      DaySumSnoc(ps, Dated(Some(day), amount), k);
    }
  }

  /** A day that no amount is filed under sums to 0. */
  lemma {:induction false} AbsentDayIsZero(ps: seq<Dated>, day: string)
    requires day !in DaysOf(ps)
    ensures DaySum(ps, day) == 0.0
  {
    if ps != [] {
      AbsentDayIsZero(ps[..|ps| - 1], day);
    }
  }

  /** The insertion order after `day` is filed: a day not yet in the dictionary goes at the end. */
  function Enlisted(days: map<string, AggregatedDay>, order: seq<string>, day: Option<string>): seq<string> {
    if day.Some? && day.value !in days then order + [day.value] else order
  }

  /** The dictionary with a zero row for `day` if it had none. */
  function Opened(days: map<string, AggregatedDay>, day: string): (t: map<string, AggregatedDay>)
    ensures day in t
  {
    if day in days then days else days[day := Blank(day)]
  }

  /*
   * The three `*Credited` functions are the value each loop body leaves in the dictionary.
   * `CreditNote`, `CreditSumUp` and `CreditBilly` below perform those bodies in place and
   * are proved equal to them; `NoteStep`, `SumUpStep` and `BillyStep` reason about the
   * functions, which is what the loops' invariants need.
   */
  /** One Note entry filed: the day is opened if new and its Note total grows by `amount`. */
  function NoteCredited(days: map<string, AggregatedDay>, day: Option<string>, amount: real): map<string, AggregatedDay> {
    if day.None? then days
    else
      var t := Opened(days, day.value);
      t[day.value := t[day.value].(noteTotal := t[day.value].noteTotal + amount)]
  }

  /** One SumUp entry filed: the day is opened if new and its SumUp total grows by `amount`. */
  function SumUpCredited(days: map<string, AggregatedDay>, day: Option<string>, amount: real): map<string, AggregatedDay> {
    if day.None? then days
    else
      var t := Opened(days, day.value);
      t[day.value := t[day.value].(sumUpTotal := t[day.value].sumUpTotal + amount)]
  }

  /** One Billy entry filed: the day is opened if new and its Billy total, POS and cash grow. */
  function BillyCredited(days: map<string, AggregatedDay>, day: Option<string>, total: real, pos: real, cash: real): map<string, AggregatedDay> {
    if day.None? then days
    else
      var t := Opened(days, day.value);
      t[day.value := t[day.value].(billyTotal := t[day.value].billyTotal + total,
                                   billyPos := t[day.value].billyPos + pos,
                                   billyCash := t[day.value].billyCash + cash)]
  }

  /** Opening a day keeps the order listing the keys and every day's running sums. */
  lemma OpenKeeps(days: map<string, AggregatedDay>, order: seq<string>,
                  np: seq<Dated>, sp: seq<Dated>, bt: seq<Dated>, bp: seq<Dated>, bc: seq<Dated>, day: string)
    requires Tally(days, order, np, sp, bt, bp, bc)
    ensures Listed(Opened(days, day), Enlisted(days, order, Some(day)))
    ensures Opened(days, day).Keys == days.Keys + {day}
    ensures Sums(Opened(days, day), np, sp, bt, bp, bc)
  {
    if day !in days {
      AbsentDayIsZero(np, day);
      AbsentDayIsZero(sp, day);
      AbsentDayIsZero(bt, day);
      AbsentDayIsZero(bp, day);
      AbsentDayIsZero(bc, day);
      assert Running(day, np, sp, bt, bp, bc) == Blank(day);
    }
  }

  /** The order still lists the keys when the dictionary changes values but not keys. */
  lemma ListedKeys(days: map<string, AggregatedDay>, days': map<string, AggregatedDay>, order: seq<string>)
    requires Listed(days, order) && days'.Keys == days.Keys
    ensures Listed(days', order)
  {
  }

  lemma NoteSums(t: map<string, AggregatedDay>, np: seq<Dated>, sp: seq<Dated>, bt: seq<Dated>, bp: seq<Dated>, bc: seq<Dated>, day: string, amount: real)
    requires Sums(t, np, sp, bt, bp, bc) && day in t
    ensures Sums(t[day := t[day].(noteTotal := t[day].noteTotal + amount)], np + [Dated(Some(day), amount)], sp, bt, bp, bc)
  {
    FiledSums(np, day, amount);
  }

  lemma SumUpSums(t: map<string, AggregatedDay>, np: seq<Dated>, sp: seq<Dated>, bt: seq<Dated>, bp: seq<Dated>, bc: seq<Dated>, day: string, amount: real)
    requires Sums(t, np, sp, bt, bp, bc) && day in t
    ensures Sums(t[day := t[day].(sumUpTotal := t[day].sumUpTotal + amount)], np, sp + [Dated(Some(day), amount)], bt, bp, bc)
  {
    FiledSums(sp, day, amount);
  }

  lemma BillySums(t: map<string, AggregatedDay>, np: seq<Dated>, sp: seq<Dated>, bt: seq<Dated>, bp: seq<Dated>, bc: seq<Dated>,
                  day: string, total: real, pos: real, cash: real)
    requires Sums(t, np, sp, bt, bp, bc) && day in t
    ensures Sums(t[day := t[day].(billyTotal := t[day].billyTotal + total, billyPos := t[day].billyPos + pos, billyCash := t[day].billyCash + cash)],
                 np, sp, bt + [Dated(Some(day), total)], bp + [Dated(Some(day), pos)], bc + [Dated(Some(day), cash)])
  {
    FiledSums(bt, day, total);
    FiledSums(bp, day, pos);
    FiledSums(bc, day, cash);
  }

  lemma NoteFiled(days: map<string, AggregatedDay>, order: seq<string>,
                  np: seq<Dated>, sp: seq<Dated>, bt: seq<Dated>, bp: seq<Dated>, bc: seq<Dated>, day: string, amount: real)
    requires Tally(days, order, np, sp, bt, bp, bc)
    ensures Tally(NoteCredited(days, Some(day), amount), Enlisted(days, order, Some(day)), np + [Dated(Some(day), amount)], sp, bt, bp, bc)
  {
    var t := Opened(days, day);
    OpenKeeps(days, order, np, sp, bt, bp, bc, day);
    NoteSums(t, np, sp, bt, bp, bc, day, amount);
    ListedKeys(t, NoteCredited(days, Some(day), amount), Enlisted(days, order, Some(day)));
    NoteFiledDays(np, sp, bt, bp, bc, day, amount);
  }

  lemma NoteUnfiled(days: map<string, AggregatedDay>, order: seq<string>,
                    np: seq<Dated>, sp: seq<Dated>, bt: seq<Dated>, bp: seq<Dated>, bc: seq<Dated>, amount: real)
    requires Tally(days, order, np, sp, bt, bp, bc)
    ensures Tally(days, order, np + [Dated(None, amount)], sp, bt, bp, bc)
  {
    DaysOfSnoc(np, Dated(None, amount));
    UnfiledSums(np, amount);
  }

  /** Filing one more Note amount keeps the dictionary equal to the running sums. */
  lemma NoteStep(days: map<string, AggregatedDay>, order: seq<string>,
                 np: seq<Dated>, sp: seq<Dated>, bt: seq<Dated>, bp: seq<Dated>, bc: seq<Dated>, day: Option<string>, amount: real)
    requires Tally(days, order, np, sp, bt, bp, bc)
    ensures Tally(NoteCredited(days, day, amount), Enlisted(days, order, day), np + [Dated(day, amount)], sp, bt, bp, bc)
  {
    if day.None? {
      NoteUnfiled(days, order, np, sp, bt, bp, bc, amount);
    } else {
      NoteFiled(days, order, np, sp, bt, bp, bc, day.value, amount);
    }
  }

  lemma SumUpFiled(days: map<string, AggregatedDay>, order: seq<string>,
                   np: seq<Dated>, sp: seq<Dated>, bt: seq<Dated>, bp: seq<Dated>, bc: seq<Dated>, day: string, amount: real)
    requires Tally(days, order, np, sp, bt, bp, bc)
    ensures Tally(SumUpCredited(days, Some(day), amount), Enlisted(days, order, Some(day)), np, sp + [Dated(Some(day), amount)], bt, bp, bc)
  {
    var t := Opened(days, day);
    OpenKeeps(days, order, np, sp, bt, bp, bc, day);
    SumUpSums(t, np, sp, bt, bp, bc, day, amount);
    ListedKeys(t, SumUpCredited(days, Some(day), amount), Enlisted(days, order, Some(day)));
    SumUpFiledDays(np, sp, bt, bp, bc, day, amount);
  }

  lemma SumUpUnfiled(days: map<string, AggregatedDay>, order: seq<string>,
                     np: seq<Dated>, sp: seq<Dated>, bt: seq<Dated>, bp: seq<Dated>, bc: seq<Dated>, amount: real)
    requires Tally(days, order, np, sp, bt, bp, bc)
    ensures Tally(days, order, np, sp + [Dated(None, amount)], bt, bp, bc)
  {
    DaysOfSnoc(sp, Dated(None, amount));
    UnfiledSums(sp, amount);
  }

  /** Filing one more SumUp amount keeps the dictionary equal to the running sums. */
  lemma SumUpStep(days: map<string, AggregatedDay>, order: seq<string>,
                  np: seq<Dated>, sp: seq<Dated>, bt: seq<Dated>, bp: seq<Dated>, bc: seq<Dated>, day: Option<string>, amount: real)
    requires Tally(days, order, np, sp, bt, bp, bc)
    ensures Tally(SumUpCredited(days, day, amount), Enlisted(days, order, day), np, sp + [Dated(day, amount)], bt, bp, bc)
  {
    if day.None? {
      SumUpUnfiled(days, order, np, sp, bt, bp, bc, amount);
    } else {
      SumUpFiled(days, order, np, sp, bt, bp, bc, day.value, amount);
    }
  }

  lemma BillyFiled(days: map<string, AggregatedDay>, order: seq<string>,
                   np: seq<Dated>, sp: seq<Dated>, bt: seq<Dated>, bp: seq<Dated>, bc: seq<Dated>,
                   day: string, total: real, pos: real, cash: real)
    requires Tally(days, order, np, sp, bt, bp, bc)
    ensures Tally(BillyCredited(days, Some(day), total, pos, cash), Enlisted(days, order, Some(day)),
                  np, sp, bt + [Dated(Some(day), total)], bp + [Dated(Some(day), pos)], bc + [Dated(Some(day), cash)])
  {
    var t := Opened(days, day);
    var t' := BillyCredited(days, Some(day), total, pos, cash);
    OpenKeeps(days, order, np, sp, bt, bp, bc, day);
    BillySums(t, np, sp, bt, bp, bc, day, total, pos, cash);
    ListedKeys(t, t', Enlisted(days, order, Some(day)));
    BillyFiledDays(np, sp, bt, bp, bc, day, total, pos, cash);
  }

  lemma BillyUnfiled(days: map<string, AggregatedDay>, order: seq<string>,
                     np: seq<Dated>, sp: seq<Dated>, bt: seq<Dated>, bp: seq<Dated>, bc: seq<Dated>,
                     total: real, pos: real, cash: real)
    requires Tally(days, order, np, sp, bt, bp, bc)
    ensures Tally(days, order, np, sp, bt + [Dated(None, total)], bp + [Dated(None, pos)], bc + [Dated(None, cash)])
  {
    DaysOfSnoc(bt, Dated(None, total));
    DaysOfSnoc(bp, Dated(None, pos));
    DaysOfSnoc(bc, Dated(None, cash));
    UnfiledSums(bt, total);
    UnfiledSums(bp, pos);
    UnfiledSums(bc, cash);
  }

  /** Filing one more Billy entry's three amounts keeps the dictionary equal to the running sums. */
  lemma BillyStep(days: map<string, AggregatedDay>, order: seq<string>,
                  np: seq<Dated>, sp: seq<Dated>, bt: seq<Dated>, bp: seq<Dated>, bc: seq<Dated>,
                  day: Option<string>, total: real, pos: real, cash: real)
    requires Tally(days, order, np, sp, bt, bp, bc)
    ensures Tally(BillyCredited(days, day, total, pos, cash), Enlisted(days, order, day),
                  np, sp, bt + [Dated(day, total)], bp + [Dated(day, pos)], bc + [Dated(day, cash)])
  {
    if day.None? {
      BillyUnfiled(days, order, np, sp, bt, bp, bc, total, pos, cash);
    } else {
      BillyFiled(days, order, np, sp, bt, bp, bc, day.value, total, pos, cash);
    }
  }

  /** The body of the Note loop for an entry whose date normalises to `day`; it is `NoteCredited` performed step by step. */
  method CreditNote(days: map<string, AggregatedDay>, order: seq<string>, day: Option<string>, amount: real)
    returns (days': map<string, AggregatedDay>, order': seq<string>)
    ensures days' == NoteCredited(days, day, amount) && order' == Enlisted(days, order, day)
  {
    days', order' := days, order;
    if day.None? {
      return;
    }
    var d := day.value;
    if d !in days' {
      days' := days'[d := Blank(d)];
      order' := order' + [d];
    }
    assert days' == Opened(days, d);
    days' := days'[d := days'[d].(noteTotal := days'[d].noteTotal + amount)];
  }

  /** The body of the SumUp loop for an entry whose date normalises to `day`; it is `SumUpCredited` performed step by step. */
  method CreditSumUp(days: map<string, AggregatedDay>, order: seq<string>, day: Option<string>, amount: real)
    returns (days': map<string, AggregatedDay>, order': seq<string>)
    ensures days' == SumUpCredited(days, day, amount) && order' == Enlisted(days, order, day)
  {
    days', order' := days, order;
    if day.None? {
      return;
    }
    var d := day.value;
    if d !in days' {
      days' := days'[d := Blank(d)];
      order' := order' + [d];
    }
    assert days' == Opened(days, d);
    days' := days'[d := days'[d].(sumUpTotal := days'[d].sumUpTotal + amount)];
  }

  /** The body of the Billy loop for an entry whose date normalises to `day`; it is `BillyCredited` performed step by step. */
  method CreditBilly(days: map<string, AggregatedDay>, order: seq<string>, day: Option<string>, total: real, pos: real, cash: real)
    returns (days': map<string, AggregatedDay>, order': seq<string>)
    ensures days' == BillyCredited(days, day, total, pos, cash) && order' == Enlisted(days, order, day)
  {
    days', order' := days, order;
    if day.None? {
      return;
    }
    var d := day.value;
    if d !in days' {
      days' := days'[d := Blank(d)];
      order' := order' + [d];
    }
    assert days' == Opened(days, d);
    days' := days'[d := days'[d].(billyTotal := days'[d].billyTotal + total)];
    days' := days'[d := days'[d].(billyPos := days'[d].billyPos + pos)];
    days' := days'[d := days'[d].(billyCash := days'[d].billyCash + cash)];
  }

  /** The Note loop: every Note entry's amount added to the day its date normalises to. */
  method AddNotes(notes: seq<NoteEntry>) returns (days: map<string, AggregatedDay>, order: seq<string>)
    ensures Tally(days, order, NoteAmounts(notes), [], [], [], [])
  {
    days, order := map[], [];
    var i := 0;
    while i < |notes|
      invariant i <= |notes|
      invariant Tally(days, order, NoteAmounts(notes[..i]), [], [], [], [])
    {
      assert notes[..i + 1][..i] == notes[..i];
      var d := NormalizeDate(notes[i].date);
      NoteStep(days, order, NoteAmounts(notes[..i]), [], [], [], [], d, notes[i].amount);
      days, order := CreditNote(days, order, d, notes[i].amount);
      i := i + 1;
    }
    assert notes[..i] == notes;
  }

  /** The SumUp loop, on the dictionary the Note loop left. */
  method AddSumUps(days: map<string, AggregatedDay>, order: seq<string>, sumUps: seq<SumUpEntry>, ghost np: seq<Dated>)
    returns (days': map<string, AggregatedDay>, order': seq<string>)
    requires Tally(days, order, np, [], [], [], [])
    ensures Tally(days', order', np, SumUpAmounts(sumUps), [], [], [])
  {
    days', order' := days, order;
    var i := 0;
    while i < |sumUps|
      invariant i <= |sumUps|
      invariant Tally(days', order', np, SumUpAmounts(sumUps[..i]), [], [], [])
    {
      assert sumUps[..i + 1][..i] == sumUps[..i];
      var d := NormalizeDate(sumUps[i].date);
      SumUpStep(days', order', np, SumUpAmounts(sumUps[..i]), [], [], [], d, sumUps[i].amount);
      days', order' := CreditSumUp(days', order', d, sumUps[i].amount);
      i := i + 1;
    }
    assert sumUps[..i] == sumUps;
  }

  /** The Billy loop, on the dictionary the SumUp loop left. */
  method AddBillys(days: map<string, AggregatedDay>, order: seq<string>, billys: seq<BillyEntry>, ghost np: seq<Dated>, ghost sp: seq<Dated>)
    returns (days': map<string, AggregatedDay>, order': seq<string>)
    requires Tally(days, order, np, sp, [], [], [])
    ensures Tally(days', order', np, sp, BillyTotals(billys), BillyPos(billys), BillyCash(billys))
  {
    days', order' := days, order;
    var i := 0;
    while i < |billys|
      invariant i <= |billys|
      invariant Tally(days', order', np, sp, BillyTotals(billys[..i]), BillyPos(billys[..i]), BillyCash(billys[..i]))
    {
      assert billys[..i + 1][..i] == billys[..i];
      var e := billys[i];
      var d := NormalizeDate(e.date);
      BillyStep(days', order', np, sp, BillyTotals(billys[..i]), BillyPos(billys[..i]), BillyCash(billys[..i]), d, e.total, e.pos, e.cash);
      days', order' := CreditBilly(days', order', d, e.total, e.pos, e.cash);
      i := i + 1;
    }
    assert billys[..i] == billys;
  }

  /** `Object.values(days)`: the rows in the order their keys were first inserted. */
  function Values(days: map<string, AggregatedDay>, order: seq<string>): (rows: seq<AggregatedDay>)
    requires forall k :: k in order ==> k in days
    ensures |rows| == |order|
  {
    seq(|order|, i requires 0 <= i < |order| => days[order[i]])
  }

  function WithDifference(day: AggregatedDay): AggregatedDay {
    day.(difference := day.noteTotal - day.billyTotal)
  }

  /** Every row with its difference filled in. */
  function WithDifferences(rows: seq<AggregatedDay>): (rows': seq<AggregatedDay>)
    ensures |rows'| == |rows|
  {
    seq(|rows|, i requires 0 <= i < |rows| => WithDifference(rows[i]))
  }

  /** No row's key comes before the key of an earlier row. */
  predicate ByDate(rows: seq<AggregatedDay>) {
    forall i, j :: 0 <= i < j < |rows| ==> !LexLess(rows[j].date, rows[i].date)
  }

  /** `x` put in front of the first row whose key does not come before its own. */
  function Insert(x: AggregatedDay, rows: seq<AggregatedDay>): (r: seq<AggregatedDay>)
    ensures multiset(r) == multiset(rows) + multiset{x}
  {
    if rows == [] || !LexLess(rows[0].date, x.date) then [x] + rows
    else
      assert rows == [rows[0]] + rows[1..];
      [rows[0]] + Insert(x, rows[1..])
  }

  /** Inserting into rows ordered by key keeps them ordered. */
  lemma {:induction false} InsertByDate(x: AggregatedDay, rows: seq<AggregatedDay>)
    requires ByDate(rows)
    ensures ByDate(Insert(x, rows))
  {
    if rows == [] || !LexLess(rows[0].date, x.date) {
      NotBeforeHead(x, rows);
    } else {
      InsertByDate(x, rows[1..]);
      HeadBefore(x, rows, Insert(x, rows[1..]));
    }
  }

  lemma NotLessTrans(a: string, b: string, c: string)
    requires !LexLess(a, b) && !LexLess(b, c)
    ensures !LexLess(a, c)
  {
    if LexLess(a, c) && b != c {
      LexTotal(b, c);
      LexTransitive(a, c, b);
    }
  }

  lemma NotBeforeHead(x: AggregatedDay, rows: seq<AggregatedDay>)
    requires ByDate(rows) && (rows == [] || !LexLess(rows[0].date, x.date))
    ensures ByDate([x] + rows)
  {
    forall j | 0 <= j < |rows|
      ensures !LexLess(rows[j].date, x.date)
    {
      if j > 0 {
        NotLessTrans(rows[j].date, rows[0].date, x.date);
      }
    }
  }

  lemma HeadBefore(x: AggregatedDay, rows: seq<AggregatedDay>, tail: seq<AggregatedDay>)
    requires rows != [] && LexLess(rows[0].date, x.date) && ByDate(rows) && ByDate(tail)
    requires multiset(tail) == multiset(rows[1..]) + multiset{x}
    ensures ByDate([rows[0]] + tail)
  {
    forall j | 0 <= j < |tail|
      ensures !LexLess(tail[j].date, rows[0].date)
    {
      assert tail[j] in multiset(tail);
      if tail[j] == x {
        if LexLess(x.date, rows[0].date) {
          LexTransitive(x.date, rows[0].date, x.date);
          LexIrreflexive(x.date);
        }
      } else {
        assert tail[j] in multiset(rows[1..]);
        var k :| 0 <= k < |rows[1..]| && rows[1..][k] == tail[j];
        assert rows[k + 1] == tail[j];
      }
    }
  }

  /** `.sort((a, b) => a.date.localeCompare(b.date))`: the rows reordered by key. */
  function SortByDate(rows: seq<AggregatedDay>): (r: seq<AggregatedDay>)
    ensures multiset(r) == multiset(rows)
    ensures ByDate(r)
  {
    if rows == [] then []
    else
      assert rows == [rows[0]] + rows[1..];
      var sorted := SortByDate(rows[1..]);
      InsertByDate(rows[0], sorted);
      Insert(rows[0], sorted)
  }

  /** The three Billy columns are filed under the same days. */
  lemma {:induction false} BillyDaysAgree(billys: seq<BillyEntry>)
    ensures DaysOf(BillyPos(billys)) == DaysOf(BillyTotals(billys))
    ensures DaysOf(BillyCash(billys)) == DaysOf(BillyTotals(billys))
  {
    if billys != [] {
      BillyDaysAgree(billys[..|billys| - 1]);
    }
  }

  /** Rows that differ pairwise occur once each. */
  lemma {:induction false} DistinctCount(s: seq<AggregatedDay>)
    requires forall i, j :: 0 <= i < j < |s| ==> s[i] != s[j]
    ensures forall x :: multiset(s)[x] <= 1
  {
    if s != [] {
      DistinctCount(s[1..]);
      assert s == [s[0]] + s[1..];
      assert s[0] !in s[1..];
    }
  }

  lemma CountPair(s: seq<AggregatedDay>, i: int, j: int)
    requires 0 <= i < j < |s| && s[i] == s[j]
    ensures multiset(s)[s[i]] >= 2
  {
    assert s == s[..j] + s[j..];
    assert s[..j][i] == s[i];
    assert s[j..][0] == s[i];
  }

  lemma SameDates(a: seq<AggregatedDay>, b: seq<AggregatedDay>)
    requires multiset(a) == multiset(b)
    ensures DatesOf(a) == DatesOf(b)
  {
    forall k | k in DatesOf(a) ensures k in DatesOf(b) {
      var i :| 0 <= i < |a| && a[i].date == k;
      assert a[i] in multiset(b);
      var j :| 0 <= j < |b| && b[j] == a[i];
    }
    forall k | k in DatesOf(b) ensures k in DatesOf(a) {
      var j :| 0 <= j < |b| && b[j].date == k;
      assert b[j] in multiset(a);
      var i :| 0 <= i < |a| && a[i] == b[j];
    }
  }

  /** The dictionary the three loops leave, read out with its differences: one distinct row per filed day, each the row that day should get. */
  lemma RowsOfTally(days: map<string, AggregatedDay>, order: seq<string>,
                    notes: seq<NoteEntry>, sumUps: seq<SumUpEntry>, billys: seq<BillyEntry>)
    requires Tally(days, order, NoteAmounts(notes), SumUpAmounts(sumUps), BillyTotals(billys), BillyPos(billys), BillyCash(billys))
    ensures forall k :: k in order ==> k in days
    ensures var rows := WithDifferences(Values(days, order));
      && (forall i :: 0 <= i < |rows| ==> rows[i] == DayRow(rows[i].date, notes, sumUps, billys))
      && (forall i, j :: 0 <= i < j < |rows| ==> rows[i] != rows[j])
      && DatesOf(rows) == AllDays(notes, sumUps, billys)
  {
    var rows := WithDifferences(Values(days, order));
    forall i | 0 <= i < |rows|
      ensures rows[i].date == order[i] && rows[i] == DayRow(order[i], notes, sumUps, billys)
    {
      assert order[i] in days;
    }
    BillyDaysAgree(billys);
    forall k | k in AllDays(notes, sumUps, billys) ensures k in DatesOf(rows) {
      assert k in order;
      var i :| 0 <= i < |order| && order[i] == k;
      assert rows[i].date == k;
    }
  }

  /** Rows that each carry the sums of their day, pairwise distinct, once sorted form the daily summary. */
  lemma SortedSummary(rows: seq<AggregatedDay>, notes: seq<NoteEntry>, sumUps: seq<SumUpEntry>, billys: seq<BillyEntry>)
    requires forall i :: 0 <= i < |rows| ==> rows[i] == DayRow(rows[i].date, notes, sumUps, billys)
    requires forall i, j :: 0 <= i < j < |rows| ==> rows[i] != rows[j]
    requires DatesOf(rows) == AllDays(notes, sumUps, billys)
    ensures IsDailySummary(SortByDate(rows), notes, sumUps, billys)
  {
    var r := SortByDate(rows);
    DistinctCount(rows);
    forall i | 0 <= i < |r|
      ensures r[i] == DayRow(r[i].date, notes, sumUps, billys)
    {
      assert r[i] in multiset(rows);
      var j :| 0 <= j < |rows| && rows[j] == r[i];
    }
    forall i, j | 0 <= i < j < |r|
      ensures LexLess(r[i].date, r[j].date)
    {
      if r[i].date == r[j].date {
        CountPair(r, i, j);
        assert false;
      }
      LexTotal(r[i].date, r[j].date);
    }
    SameDates(r, rows);
  }

  /**
   * The whole of the aggregation: the three loops, `Object.values`, the
   * differences and the sort. The result is the daily summary of the three
   * sources.
   */
  method AggregateDays(notes: seq<NoteEntry>, sumUps: seq<SumUpEntry>, billys: seq<BillyEntry>) returns (result: seq<AggregatedDay>)
    ensures IsDailySummary(result, notes, sumUps, billys)
    ensures forall i :: 0 <= i < |result| ==> result[i].difference == result[i].noteTotal - result[i].billyTotal
  {
    var days, order := AddNotes(notes);
    days, order := AddSumUps(days, order, sumUps, NoteAmounts(notes));
    days, order := AddBillys(days, order, billys, NoteAmounts(notes), SumUpAmounts(sumUps));
    RowsOfTally(days, order, notes, sumUps, billys);
    var rows := WithDifferences(Values(days, order));
    SortedSummary(rows, notes, sumUps, billys);
    result := SortByDate(rows);
  }
}
