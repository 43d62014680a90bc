/**
 * The mapping of CSV rows to typed entries: each of the three exports (the
 * merchant's own log "Note", the POS export "SumUp", the fiscal ledger
 * "Billy") has its own columns, each looked up under a capitalised and a
 * lower-case header, and every amount cell goes through the comma fix and
 * `parseFloat`, a non-number counting as 0.
 */
module Entries {
  import opened Wrappers
  import opened Amounts

  /** A CSV row as the header-mode reader gives it: column name to cell text. */
  type Row = map<string, string>

  /** `row[upper] || row[lower]`: the first column when it is there and not empty, otherwise the second one, which may be missing too. */
  function Either(row: Row, upper: string, lower: string): Option<string> {
    if upper in row && row[upper] != "" then Some(row[upper])
    else if lower in row then Some(row[lower])
    else None
  }

  /** `String(cell)`: a missing cell is written `undefined`. */
  function CellText(cell: Option<string>): string {
    match cell
    case None => "undefined"
    case Some(text) => text
  }

  /** The number an amount cell stands for: `parseFloat(String(cell).replace(',', '.'))`, NaN taken as 0. */
  function CellAmount(cell: Option<string>): real {
    ParseAmount(CellText(cell))
  }

  datatype NoteEntry = NoteEntry(date: Option<string>, payment: Option<string>, amount: real)
  datatype SumUpEntry = SumUpEntry(date: Option<string>, amount: real)
  datatype BillyEntry = BillyEntry(date: Option<string>, total: real, pos: real, cash: real)

  function ToNoteEntry(row: Row): NoteEntry {
    NoteEntry(Either(row, "Data", "data"), Either(row, "Metodo", "metodo"), CellAmount(Either(row, "Importo", "importo")))
  }

  function ToSumUpEntry(row: Row): SumUpEntry {
    SumUpEntry(Either(row, "Date", "date"), CellAmount(Either(row, "Gross amount", "gross amount")))
  }

  function ToBillyEntry(row: Row): BillyEntry {
    BillyEntry(Either(row, "Data", "data"),
               CellAmount(Either(row, "Totale", "totale")),
               CellAmount(Either(row, "POS", "pos")),
               CellAmount(Either(row, "Contanti", "contanti")))
  }

  /** One Note entry per row, in the order of the rows. */
  function NoteEntries(rows: seq<Row>): (entries: seq<NoteEntry>)
    ensures |entries| == |rows|
    ensures forall i :: 0 <= i < |rows| ==> entries[i] == ToNoteEntry(rows[i])
  {
    seq(|rows|, i requires 0 <= i < |rows| => ToNoteEntry(rows[i]))
  }

  /** One SumUp entry per row, in the order of the rows. */
  function SumUpEntries(rows: seq<Row>): (entries: seq<SumUpEntry>)
    ensures |entries| == |rows|
    ensures forall i :: 0 <= i < |rows| ==> entries[i] == ToSumUpEntry(rows[i])
  {
    seq(|rows|, i requires 0 <= i < |rows| => ToSumUpEntry(rows[i]))
  }

  /** One Billy entry per row, in the order of the rows. */
  function BillyEntries(rows: seq<Row>): (entries: seq<BillyEntry>)
    ensures |entries| == |rows|
    ensures forall i :: 0 <= i < |rows| ==> entries[i] == ToBillyEntry(rows[i])
  {
    seq(|rows|, i requires 0 <= i < |rows| => ToBillyEntry(rows[i]))
  }

  /** The amount `cents` hundredths is written, with either separator, in the column or, when that one is missing or empty, in its lower-case twin. */
  predicate Written(row: Row, upper: string, lower: string, cents: int, sep: char) {
    (sep == ',' || sep == '.') &&
    if upper in row && row[upper] != "" then row[upper] == AmountText(cents, sep)
    else lower in row && row[lower] == AmountText(cents, sep)
  }

  /** Neither the column nor its lower-case twin holds any text. */
  predicate Blank(row: Row, upper: string, lower: string) {
    (upper !in row || row[upper] == "") && (lower !in row || row[lower] == "")
  }

  /** A written amount is read back as itself from whichever of the two columns holds it. */
  lemma ColumnRoundTrip(row: Row, upper: string, lower: string, cents: int, sep: char)
    requires Written(row, upper, lower, cents, sep)
    ensures CellAmount(Either(row, upper, lower)) == cents as real / 100.0
  {
    assert CellText(Either(row, upper, lower)) + "" == AmountText(cents, sep);
    AmountRoundTrip(cents, sep, "");
  }

  /** A column that is missing or empty under both names counts as 0. */
  lemma BlankColumnIsZero(row: Row, upper: string, lower: string)
    requires Blank(row, upper, lower)
    ensures CellAmount(Either(row, upper, lower)) == 0.0
  {
    var text := CellText(Either(row, upper, lower));
    assert text == "" || text == "undefined";
    NoDigitsIsZero(text);
  }

  /** A Note row's amount is the amount written in its `Importo` column; a row without one has amount 0. */
  lemma NoteEntryAmount(row: Row, cents: int, sep: char)
    ensures Written(row, "Importo", "importo", cents, sep) ==> ToNoteEntry(row).amount == cents as real / 100.0
    ensures Blank(row, "Importo", "importo") ==> ToNoteEntry(row).amount == 0.0
  {
    if Written(row, "Importo", "importo", cents, sep) {
      ColumnRoundTrip(row, "Importo", "importo", cents, sep);
    }
    if Blank(row, "Importo", "importo") {
      BlankColumnIsZero(row, "Importo", "importo");
    }
  }

  /** A SumUp row's amount is the amount written in its `Gross amount` column; a row without one has amount 0. */
  lemma SumUpEntryAmount(row: Row, cents: int, sep: char)
    ensures Written(row, "Gross amount", "gross amount", cents, sep) ==> ToSumUpEntry(row).amount == cents as real / 100.0
    ensures Blank(row, "Gross amount", "gross amount") ==> ToSumUpEntry(row).amount == 0.0
  {
    if Written(row, "Gross amount", "gross amount", cents, sep) {
      ColumnRoundTrip(row, "Gross amount", "gross amount", cents, sep);
    }
    if Blank(row, "Gross amount", "gross amount") {
      BlankColumnIsZero(row, "Gross amount", "gross amount");
    }
  }

  /** A Billy row's total, POS and cash amounts are the ones written in its three columns, each 0 when its column is blank. */
  lemma BillyEntryAmounts(row: Row, total: int, pos: int, cash: int, sep: char)
    ensures Written(row, "Totale", "totale", total, sep) ==> ToBillyEntry(row).total == total as real / 100.0
    ensures Written(row, "POS", "pos", pos, sep) ==> ToBillyEntry(row).pos == pos as real / 100.0
    ensures Written(row, "Contanti", "contanti", cash, sep) ==> ToBillyEntry(row).cash == cash as real / 100.0
    ensures Blank(row, "Totale", "totale") ==> ToBillyEntry(row).total == 0.0
    ensures Blank(row, "POS", "pos") ==> ToBillyEntry(row).pos == 0.0
    ensures Blank(row, "Contanti", "contanti") ==> ToBillyEntry(row).cash == 0.0
  {
    if Written(row, "Totale", "totale", total, sep) {
      ColumnRoundTrip(row, "Totale", "totale", total, sep);
    }
    if Written(row, "POS", "pos", pos, sep) {
      ColumnRoundTrip(row, "POS", "pos", pos, sep);
    }
    if Written(row, "Contanti", "contanti", cash, sep) {
      ColumnRoundTrip(row, "Contanti", "contanti", cash, sep);
    }
    if Blank(row, "Totale", "totale") {
      BlankColumnIsZero(row, "Totale", "totale");
    }
    if Blank(row, "POS", "pos") {
      BlankColumnIsZero(row, "POS", "pos");
    }
    if Blank(row, "Contanti", "contanti") {
      BlankColumnIsZero(row, "Contanti", "contanti");
    }
  }

  /**
   * The capitalised column's text when it is there and not empty; otherwise
   * the lower-case column's text, which may itself be missing.
   */
  predicate PicksColumn(row: Row, upper: string, lower: string, cell: Option<string>) {
    && (upper in row && row[upper] != "" ==> cell == Some(row[upper]))
    && ((upper !in row || row[upper] == "") && lower in row ==> cell == Some(row[lower]))
    && ((upper !in row || row[upper] == "") && lower !in row ==> cell == None)
  }

  /** The dates and the payment method (`Metodo`) are the cell texts themselves, read as `PicksColumn` says. */
  lemma EntryTexts(row: Row)
    ensures PicksColumn(row, "Data", "data", ToNoteEntry(row).date)
    ensures PicksColumn(row, "Metodo", "metodo", ToNoteEntry(row).payment)
    ensures PicksColumn(row, "Date", "date", ToSumUpEntry(row).date)
    ensures PicksColumn(row, "Data", "data", ToBillyEntry(row).date)
  {
  }
}
