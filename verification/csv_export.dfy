/**
 * The CSV branch of `handleExport` in src/components/Dashboard.tsx: a
 * header line of column names, then one line per transaction of its
 * values, fields joined by `,` and lines by a newline, with no quoting
 * or escaping of any kind.
 *
 * The date column holds `formatDate(t.date)` and the amount column
 * `String(t.amount)`; both renderings are supplied by the caller.
 */
module CsvExport {
  import opened FinanceTypes
  import opened JsText

  /** The keys of an export row, in insertion order. */
  const HEADER: seq<string> := ["Data", "Tipo", "Categoria", "Descrição", "Valor"]

  function TypeLabel(kind: TransactionType): string {
    if kind == Income then "Receita" else "Despesa"
  }

  /** The values of one export row, in the order of `HEADER`. */
  function ExportRow(t: Transaction, date: int -> string, amount: real -> string): (row: seq<string>)
    ensures |row| == |HEADER|
  {
    [date(t.date), TypeLabel(t.kind), t.category, t.description, amount(t.amount)]
  }

  /** One line per transaction, in list order. */
  function RowLines(ts: seq<Transaction>, date: int -> string, amount: real -> string): (lines: seq<string>)
    ensures |lines| == |ts|
    ensures forall i :: 0 <= i < |ts| ==> lines[i] == Join(ExportRow(ts[i], date, amount), ',')
  {
    if ts == [] then [] else [Join(ExportRow(ts[0], date, amount), ',')] + RowLines(ts[1..], date, amount)
  }

  /**
   * The exported text. The header comes from the keys of the first row, so
   * an empty list yields an empty header line and thus an empty file.
   */
  function TransactionsCsv(ts: seq<Transaction>, date: int -> string, amount: real -> string): string {
    var header := if ts == [] then [] else HEADER;
    Join([Join(header, ',')] + RowLines(ts, date, amount), '\n')
  }

  /** No field holds a comma or a line break. */
  predicate CleanRow(row: seq<string>) {
    NoneContains(row, ',') && NoneContains(row, '\n')
  }

  /** Nothing to export gives the empty text. */
  lemma EmptyExport(date: int -> string, amount: real -> string)
    ensures TransactionsCsv([], date, amount) == ""
  {
  }

  /** The header line has no line break and splits back into the column names. */
  lemma HeaderLine()
    ensures '\n' !in Join(HEADER, ',')
    ensures Split(Join(HEADER, ','), ',') == HEADER
  {
    assert NoneContains(HEADER, '\n') && NoneContains(HEADER, ',');
    JoinAvoids(HEADER, ',', '\n');
    SplitJoin(HEADER, ',');
  }

  /** With clean rows, no transaction line has a line break, and each splits back into its row. */
  lemma CleanRowLines(ts: seq<Transaction>, date: int -> string, amount: real -> string)
    requires forall i :: 0 <= i < |ts| ==> CleanRow(ExportRow(ts[i], date, amount))
    ensures NoneContains(RowLines(ts, date, amount), '\n')
    ensures forall i :: 0 <= i < |ts| ==> Split(RowLines(ts, date, amount)[i], ',') == ExportRow(ts[i], date, amount)
  {
    var rows := RowLines(ts, date, amount);
    forall i | 0 <= i < |ts|
      ensures '\n' !in rows[i]
      ensures Split(rows[i], ',') == ExportRow(ts[i], date, amount)
    {
      JoinAvoids(ExportRow(ts[i], date, amount), ',', '\n');
      SplitJoin(ExportRow(ts[i], date, amount), ',');
    }
  }

  /**
   * When no field holds a comma or a line break, the text splits back into
   * the header and one line per transaction, and each line splits back into
   * exactly that transaction's values.
   */
  lemma CsvRoundTrip(ts: seq<Transaction>, date: int -> string, amount: real -> string)
    requires ts != []
    requires forall i :: 0 <= i < |ts| ==> CleanRow(ExportRow(ts[i], date, amount))
    ensures var lines := Split(TransactionsCsv(ts, date, amount), '\n');
      && |lines| == |ts| + 1
      && Split(lines[0], ',') == HEADER
      && forall i :: 0 <= i < |ts| ==> Split(lines[i + 1], ',') == ExportRow(ts[i], date, amount)
  {
    var rows := RowLines(ts, date, amount);
    var all := [Join(HEADER, ',')] + rows;
    HeaderLine();
    CleanRowLines(ts, date, amount);
    assert NoneContains(all, '\n') by {
      forall i | 0 <= i < |all|
        ensures '\n' !in all[i]
      {
        if i > 0 {
          assert all[i] == rows[i - 1];
        }
      }
    }
    SplitJoin(all, '\n');
    assert forall i :: 0 <= i < |ts| ==> all[i + 1] == rows[i];
  }

  /**
   * Without quoting, a description holding one comma shifts the columns:
   * the line of such a transaction splits into six fields, not five.
   */
  lemma CommaInDescriptionAddsColumn(t: Transaction, date: int -> string, amount: real -> string,
                                     before: string, after: string)
    requires t.description == before + "," + after
    requires CleanRow([date(t.date), TypeLabel(t.kind), t.category, before, after, amount(t.amount)])
    ensures |Split(Join(ExportRow(t, date, amount), ','), ',')| == |HEADER| + 1
  {
    var pieces := [date(t.date), TypeLabel(t.kind), t.category, before, after, amount(t.amount)];
    var row := ExportRow(t, date, amount);
    assert Join(row[4..], ',') == Join(pieces[5..], ',') == amount(t.amount);
    assert Join(pieces[4..], ',') == after + [','] + amount(t.amount);
    assert Join(row[3..], ',') == row[3] + [','] + Join(row[4..], ',');
    assert Join(row[3..], ',') == before + [','] + (after + [','] + amount(t.amount));
    assert Join(row[3..], ',') == Join(pieces[3..], ',');
    assert row[3..][1..] == row[4..] && pieces[3..][1..] == pieces[4..];
    assert row[2..][1..] == row[3..] && pieces[2..][1..] == pieces[3..];
    assert row[1..][1..] == row[2..] && pieces[1..][1..] == pieces[2..];
    assert Join(row[2..], ',') == Join(pieces[2..], ',');
    assert Join(row[1..], ',') == Join(pieces[1..], ',');
    assert Join(row, ',') == Join(pieces, ',');
    SplitJoin(pieces, ',');
  }
}
