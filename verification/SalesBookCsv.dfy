/**
 * The sales book as CSV (section 2 of RFC 4180, with `;` for the comma) and its way back: splitting a
 * printed row with the importer's splitter undoes the printing.
 */
module SalesBookCsv {
  import opened Common
  import opened Text
  import opened SalesBook
  import opened VoucherTypes
  import MisComprobantesCsv

  const COLUMN_SEPARATOR := ';'
  const LINE_SEPARATOR := "\r\n"
  const UTF8_BYTE_ORDER_MARK := "\U{FEFF}"

  predicate NeedsQuoting(value: string) {
    exists i :: 0 <= i < |value| && value[i] in {'"', ';', '\r', '\n'}
  }

  function Doubled(value: string): string {
    if value == "" then "" else (if value[0] == '"' then "\"\"" else [value[0]]) + Doubled(value[1..])
  }

  function Quote(value: string): string {
    if NeedsQuoting(value) then "\"" + Doubled(value) + "\"" else value
  }

  /** `map(quote).join(";")`. */
  function JoinQuoted(fields: seq<string>): string {
    if fields == [] then ""
    else if |fields| == 1 then Quote(fields[0])
    else Quote(fields[0]) + [COLUMN_SEPARATOR] + JoinQuoted(fields[1..])
  }

  // Splitting undoes quoting --------------------------------------------------------------------------

  ghost predicate FieldEnds(rest: string) {
    rest == "" || rest[0] == COLUMN_SEPARATOR
  }

  lemma {:induction false} ReadsPlain(field: string, rest: string, current: string)
    requires !NeedsQuoting(field)
    ensures MisComprobantesCsv.SplitRest(field + rest, ';', current, false)
         == MisComprobantesCsv.SplitRest(rest, ';', current + field, false)
  {
    if field == "" {
      assert field + rest == rest && current + field == current;
    } else {
      assert field[0] !in {'"', ';', '\r', '\n'};
      assert forall i | 0 <= i < |field[1..]| :: field[1..][i] == field[i + 1];
      ReadsPlain(field[1..], rest, current + [field[0]]);
      assert (field + rest)[1..] == field[1..] + rest;
      assert current + [field[0]] + field[1..] == current + field;
    }
  }

  lemma {:induction false} ReadsDoubled(field: string, rest: string, current: string)
    requires FieldEnds(rest)
    ensures MisComprobantesCsv.SplitRest(Doubled(field) + "\"" + rest, ';', current, true)
         == MisComprobantesCsv.SplitRest(rest, ';', current + field, false)
  {
    var text := Doubled(field) + "\"" + rest;
    if field == "" {
      assert text == "\"" + rest && text[1..] == rest && current + field == current;
    } else {
      ReadsDoubled(field[1..], rest, current + [field[0]]);
      assert current + [field[0]] + field[1..] == current + field;
      var tail := Doubled(field[1..]) + "\"" + rest;
      if field[0] == '"' {
        assert text == "\"\"" + tail && text[2..] == tail;
        assert current + "\"" == current + [field[0]];
      } else {
        assert text == [field[0]] + tail && text[1..] == tail;
      }
    }
  }

  lemma ReadsQuoted(field: string, rest: string)
    requires FieldEnds(rest)
    ensures MisComprobantesCsv.SplitRest(Quote(field) + rest, ';', "", false)
         == MisComprobantesCsv.SplitRest(rest, ';', field, false)
  {
    hide NeedsQuoting, Doubled;
    assert "" + field == field;
    if NeedsQuoting(field) {
      var text := "\"" + (Doubled(field) + "\"" + rest);
      assert Quote(field) + rest == text;
      assert text[1..] == Doubled(field) + "\"" + rest;
      OpensQuote(text);
      ReadsDoubled(field, rest, "");
    } else {
      ReadsPlain(field, rest, "");
    }
  }

  lemma OpensQuote(text: string)
    requires text != "" && text[0] == '"'
    ensures MisComprobantesCsv.SplitRest(text, ';', "", false) == MisComprobantesCsv.SplitRest(text[1..], ';', "", true)
  {}

  function Trimmed(fields: seq<string>): (trimmed: seq<string>)
    ensures |trimmed| == |fields|
  {
    seq(|fields|, i requires 0 <= i < |fields| => Trim(fields[i]))
  }

  lemma EndsField(field: string, rest: string)
    ensures MisComprobantesCsv.SplitRest("", ';', field, false) == [Trim(field)]
    ensures MisComprobantesCsv.SplitRest([COLUMN_SEPARATOR] + rest, ';', field, false)
         == [Trim(field)] + MisComprobantesCsv.SplitRest(rest, ';', "", false)
  {}

  /** Printing a row and splitting it again gives its fields back, trimmed, whatever they contain. */
  lemma {:induction false} SplitUndoesPrinting(fields: seq<string>)
    requires fields != []
    ensures MisComprobantesCsv.SplitFields(JoinQuoted(fields), ';') == Trimmed(fields)
    decreases |fields|
  {
    hide Quote, MisComprobantesCsv.SplitRest, Trim;
    if |fields| == 1 {
      ReadsQuoted(fields[0], "");
      assert Quote(fields[0]) + "" == Quote(fields[0]);
      EndsField(fields[0], "");
    } else {
      var rest := JoinQuoted(fields[1..]);
      ReadsQuoted(fields[0], [COLUMN_SEPARATOR] + rest);
      EndsField(fields[0], rest);
      assert JoinQuoted(fields) == Quote(fields[0]) + ([COLUMN_SEPARATOR] + rest);
      SplitUndoesPrinting(fields[1..]);
      assert Trimmed(fields) == [Trim(fields[0])] + Trimmed(fields[1..]);
    }
  }

  // Amounts -------------------------------------------------------------------------------------------

  /** `toFixed(2)` with a decimal comma, for a whole number of cents. */
  function FormatAmount(cents: int): string {
    var magnitude := if cents < 0 then -cents else cents;
    (if cents < 0 then "-" else "") + Digits(magnitude / 100) + ","
    + [DigitChar(magnitude % 100 / 10), DigitChar(magnitude % 10)]
  }

  lemma TwoDigits(tens: nat, ones: nat)
    requires tens < 10 && ones < 10
    ensures Value([DigitChar(tens), DigitChar(ones)]) == 10 * tens + ones
  {
    var text := [DigitChar(tens), DigitChar(ones)];
    assert text[..1] == [DigitChar(tens)];
    assert [DigitChar(tens)][..0] == "";
    assert Value([DigitChar(tens)]) == tens;
  }

  lemma DotAfter(whole: string, fraction: string)
    requires AllDigits(whole)
    ensures MisComprobantesCsv.IndexOf(whole + "." + fraction, '.') == |whole|
  {
    var text := whole + "." + fraction;
    assert text[|whole|] == '.';
    forall i | 0 <= i < |whole| ensures text[i] != '.' { assert IsDigit(whole[i]); }
  }

  lemma HundredParts()
    ensures MisComprobantesCsv.Pow10(2) == 100
  {}

  lemma UnsignedReadsBack(units: nat, tens: nat, ones: nat)
    requires tens < 10 && ones < 10
    ensures MisComprobantesCsv.ParseUnsigned(Digits(units) + "." + [DigitChar(tens), DigitChar(ones)])
         == Some(units as real + (10 * tens + ones) as real / 100.0)
  {
    hide Digits, Value, MisComprobantesCsv.IndexOf, MisComprobantesCsv.Pow10, AreDigits;
    var whole, fraction := Digits(units), [DigitChar(tens), DigitChar(ones)];
    var text := whole + "." + fraction;
    DotAfter(whole, fraction);
    ValueOfDigits(units);
    TwoDigits(tens, ones);
    HundredParts();
    assert text[..|whole|] == whole && text[|whole| + 1..] == fraction;
  }

  lemma FormatParts(magnitude: nat)
    ensures magnitude as real / 100.0
         == (magnitude / 100) as real + (10 * (magnitude % 100 / 10) + magnitude % 10) as real / 100.0
  {}

  /** A comma before the last two digits, read as a decimal point. */
  lemma CommaBecomesPoint(sign: string, whole: string, tens: char, ones: char)
    requires (sign == "" || sign == "-") && AllDigits(whole) && whole != "" && IsDigit(tens) && IsDigit(ones)
    ensures var text := sign + whole + "," + [tens, ones];
            && WithoutBlanks(text) == text && text != "" && Without(text, '.') == text
            && MisComprobantesCsv.UsesCommaDecimals(text)
            && ReplaceFirst(text, ',', '.') == sign + (whole + "." + [tens, ones])
  {
    var text := sign + whole + "," + [tens, ones];
    var k := |sign| + |whole|;
    forall i | 0 <= i < |text| ensures !IsBlank(text[i]) && text[i] != '.' && (i < k ==> text[i] != ',') {
      assert text[i] == '-' || text[i] == ',' || IsDigit(text[i]);
    }
    NoBlanks(text);
    NothingToRemove(text, '.');
    assert text[k] == ',';
    ReplaceAt(text, ',', '.', k);
    assert text[..k] == sign + whole && text[k + 1..] == [tens, ones];
    assert text[..k] + "." + text[k + 1..] == sign + (whole + "." + [tens, ones]);
  }

  /** The digits of an amount, with a point. */
  function PointText(magnitude: nat): string {
    Digits(magnitude / 100) + "." + [DigitChar(magnitude % 100 / 10), DigitChar(magnitude % 10)]
  }

  lemma PointTextReadsBack(magnitude: nat)
    ensures MisComprobantesCsv.ParseNumber(PointText(magnitude)) == Some(magnitude as real / 100.0)
    ensures MisComprobantesCsv.ParseNumber("-" + PointText(magnitude)) == Some(-(magnitude as real / 100.0))
  {
    var text := PointText(magnitude);
    assert IsDigit(text[0]);
    hide MisComprobantesCsv.ParseUnsigned, Digits;
    UnsignedReadsBack(magnitude / 100, magnitude % 100 / 10, magnitude % 10);
    FormatParts(magnitude);
    SignedNumbers(text);
  }

  lemma SignedNumbers(text: string)
    requires text != "" && IsDigit(text[0])
    ensures MisComprobantesCsv.ParseNumber(text) == MisComprobantesCsv.ParseUnsigned(text)
    ensures MisComprobantesCsv.ParseUnsigned(text).Some? ==>
              MisComprobantesCsv.ParseNumber("-" + text) == Some(-MisComprobantesCsv.ParseUnsigned(text).value)
  {
    hide MisComprobantesCsv.ParseUnsigned;
    assert ("-" + text)[1..] == text;
  }

  lemma FormatNormalizes(cents: int)
    ensures var magnitude := if cents < 0 then -cents else cents;
            var text := FormatAmount(cents);
            && WithoutBlanks(text) == text && text != "" && Without(text, '.') == text
            && MisComprobantesCsv.UsesCommaDecimals(text)
            && ReplaceFirst(text, ',', '.') == (if cents < 0 then "-" else "") + PointText(magnitude)
  {
    var magnitude := if cents < 0 then -cents else cents;
    hide WithoutBlanks, Without, ReplaceFirst, MisComprobantesCsv.UsesCommaDecimals, Digits;
    CommaBecomesPoint(if cents < 0 then "-" else "", Digits(magnitude / 100),
                      DigitChar(magnitude % 100 / 10), DigitChar(magnitude % 10));
  }

  /** Reading a printed amount gives it back, for every whole number of cents, negatives included. */
  lemma AmountsReadBack(cents: int)
    ensures MisComprobantesCsv.ParseArcaAmount(FormatAmount(cents)) == MisComprobantesCsv.Got(cents as real / 100.0)
  {
    hide FormatAmount, WithoutBlanks, Without, ReplaceFirst, MisComprobantesCsv.UsesCommaDecimals;
    hide MisComprobantesCsv.ParseNumber, PointText;
    FormatNormalizes(cents);
    var magnitude: nat := if cents < 0 then -cents else cents;
    PointTextReadsBack(magnitude);
    assert "" + PointText(magnitude) == PointText(magnitude);
  }

  // Rows ----------------------------------------------------------------------------------------------

  /** The rates with a column of their own, from the highest. */
  const TAXED_RATES: seq<nat> := [270, 210, 105, 50, 25]

  function RateName(rate: nat): string {
    if rate == 270 then "27" else if rate == 210 then "21" else if rate == 105 then "10,5"
    else if rate == 50 then "5" else "2,5"
  }

  function IvaForRate(rows: seq<RateRow>, rate: nat): int {
    if rows == [] then 0 else if rows[0].rate == rate then rows[0].amount else IvaForRate(rows[1..], rate)
  }

  function PadStart(s: string, width: nat): string
    decreases if |s| < width then width - |s| else 0
  {
    if |s| < width then PadStart("0" + s, width) else s
  }

  function FormatDate(iso: string): string {
    if |iso| >= 10 then iso[8..10] + "/" + iso[5..7] + "/" + iso[..4] else iso
  }

  function IntegerText(n: int): string {
    if n < 0 then "-" + Digits(-n) else Digits(n)
  }

  function TypeName(voucherType: int): string {
    var name := VoucherTypeName(voucherType);
    if name == "" then IntegerText(voucherType) else name
  }

  function DocumentTypeText(docType: int): string {
    if docType == 80 then "CUIT" else if docType == 86 then "CUIL" else if docType == 96 then "DNI"
    else if docType == 99 then "Consumidor Final"
    else IntegerText(docType)
  }

  const HEADER: seq<string> :=
    ["Fecha", "Tipo", "Punto de venta", "Número", "Tipo doc. receptor", "Nro. doc. receptor", "Receptor", "Moneda",
     "Cotización", "Neto gravado", "No gravado", "Exento"]
    + RateHeaders(TAXED_RATES) + ["IVA total", "Otros tributos", "Total", "CAE"]

  function RateHeaders(rates: seq<nat>): (texts: seq<string>)
    ensures |texts| == |rates|
  {
    seq(|rates|, i requires 0 <= i < |rates| => "IVA " + RateName(rates[i]) + "%")
  }

  function OrEmpty(text: Option<string>): string {
    if text.Some? then text.value else ""
  }

  function AmountCells(amounts: seq<int>): (cells: seq<string>)
    ensures |cells| == |amounts|
  {
    seq(|amounts|, i requires 0 <= i < |amounts| => FormatAmount(amounts[i]))
  }

  /** A row with its amounts between the leading cells and the last one. */
  function RowOf(leading: seq<string>, amounts: seq<int>, last: string): (row: seq<string>)
    ensures |row| == |leading| + |amounts| + 1
  {
    leading + AmountCells(amounts) + [last]
  }

  function RateAmounts(rows: seq<RateRow>): (amounts: seq<int>)
    ensures |amounts| == |TAXED_RATES|
  {
    seq(|TAXED_RATES|, i requires 0 <= i < |TAXED_RATES| => IvaForRate(rows, TAXED_RATES[i]))
  }

  /** An entry's amounts in the order of their columns. */
  function EntryAmounts(entry: BookEntry): seq<int> {
    [entry.net, entry.untaxed, entry.exempt] + RateAmounts(entry.ivaByRate) + [entry.iva, entry.tribute, entry.total]
  }

  /** The cells before the amounts; `rateText` is how an exchange rate is written. */
  function LeadingCells(entry: BookEntry, rateText: real -> string): seq<string> {
    [FormatDate(entry.date), TypeName(entry.voucherType), PadStart(Digits(entry.salesPoint), 4),
     PadStart(Digits(entry.number), 8),
     if entry.recipient.docType.None? then "" else DocumentTypeText(entry.recipient.docType.value),
     OrEmpty(entry.recipient.docNumber), OrEmpty(entry.recipient.name), entry.currency, rateText(entry.exchangeRate)]
  }

  function ToRow(entry: BookEntry, rateText: real -> string): seq<string> {
    RowOf(LeadingCells(entry, rateText), EntryAmounts(entry), OrEmpty(entry.cae))
  }

  function RateTotal(entries: seq<BookEntry>, rate: nat): int {
    if entries == [] then 0 else RateTotal(entries[..|entries| - 1], rate) + IvaForRate(entries[|entries| - 1].ivaByRate, rate)
  }

  function RateTotals(entries: seq<BookEntry>): (amounts: seq<int>)
    ensures |amounts| == |TAXED_RATES|
  {
    seq(|TAXED_RATES|, i requires 0 <= i < |TAXED_RATES| => RateTotal(entries, TAXED_RATES[i]))
  }

  function TotalAmounts(book: Book): seq<int> {
    [book.totals.net, book.totals.untaxed, book.totals.exempt] + RateTotals(book.entries)
    + [book.totals.iva, book.totals.tribute, book.totals.total]
  }

  function ToTotalsRow(book: Book): seq<string> {
    RowOf(["Totales", Digits(book.totals.voucherCount) + " comprobantes", "", "", "", "", "", "", ""],
          TotalAmounts(book), "")
  }

  function BookRows(book: Book, rateText: real -> string): seq<seq<string>> {
    [HEADER]
    + seq(|book.entries|, i requires 0 <= i < |book.entries| => ToRow(book.entries[i], rateText))
    + [ToTotalsRow(book)]
  }

  function RenderLines(rows: seq<seq<string>>): string {
    if rows == [] then "" else JoinQuoted(rows[0]) + LINE_SEPARATOR + RenderLines(rows[1..])
  }

  function RenderSalesBookCsv(book: Book, rateText: real -> string): string {
    UTF8_BYTE_ORDER_MARK + RenderLines(BookRows(book, rateText))
  }

  /** Every line of the rendered book splits into the columns of the header, holding its row's cells. */
  lemma EveryLineHasTheHeadersColumns(book: Book, rateText: real -> string, k: nat)
    requires k < |BookRows(book, rateText)|
    ensures var row := BookRows(book, rateText)[k];
            && |row| == |HEADER|
            && MisComprobantesCsv.SplitFields(JoinQuoted(row), ';') == Trimmed(row)
            && |MisComprobantesCsv.SplitFields(JoinQuoted(row), ';')| == |HEADER|
  {
    var rows := BookRows(book, rateText);
    hide FormatAmount, JoinQuoted, MisComprobantesCsv.SplitFields, Digits, PadStart, FormatDate, DocumentTypeText,
         TypeName, IvaForRate;
    assert |rows[k]| == |HEADER|;
    SplitUndoesPrinting(rows[k]);
  }

  // The lines of the text -----------------------------------------------------------------------------

  ghost predicate HoldsNoLineBreak(fields: seq<string>) {
    forall c | 0 <= c < |fields| :: '\n' !in fields[c]
  }

  function PrintedRows(rows: seq<seq<string>>): (lines: seq<string>)
    ensures |lines| == |rows|
  {
    seq(|rows|, k requires 0 <= k < |rows| => JoinQuoted(rows[k]))
  }

  function LineBreaks(text: string): nat {
    MisComprobantesCsv.CountOf(text, '\n')
  }

  /** A text has one line more than it has line breaks. */
  lemma {:induction false} LineCount(text: string, current: string)
    ensures |MisComprobantesCsv.SplitLines(text, current)| == 1 + LineBreaks(text)
    decreases |text|
  {
    if text != "" {
      if text[0] == '\r' && |text| > 1 && text[1] == '\n' {
        LineCount(text[2..], "");
        assert text[1..][1..] == text[2..];
        assert LineBreaks(text[1..]) == 1 + LineBreaks(text[2..]);
      } else if text[0] == '\n' {
        LineCount(text[1..], "");
      } else {
        LineCount(text[1..], current + [text[0]]);
      }
    }
  }

  lemma {:induction false} BreaksAddUp(s: string, t: string)
    ensures LineBreaks(s + t) == LineBreaks(s) + LineBreaks(t)
  {
    if s == "" {
      assert s + t == t;
    } else {
      BreaksAddUp(s[1..], t);
      assert (s + t)[1..] == s[1..] + t;
    }
  }

  lemma {:induction false} BreaksCount(s: string)
    ensures LineBreaks(s) == 0 <==> '\n' !in s
  {
    if s != "" { BreaksCount(s[1..]); }
  }

  lemma {:induction false} DoublingKeepsBreaks(value: string)
    ensures LineBreaks(Doubled(value)) == LineBreaks(value)
  {
    if value != "" {
      DoublingKeepsBreaks(value[1..]);
      BreaksAddUp(if value[0] == '"' then "\"\"" else [value[0]], Doubled(value[1..]));
      assert LineBreaks("\"\"") == 0;
    }
  }

  lemma QuotingKeepsBreaks(value: string)
    ensures LineBreaks(Quote(value)) == LineBreaks(value)
  {
    DoublingKeepsBreaks(value);
    BreaksAddUp("\"" + Doubled(value), "\"");
    BreaksAddUp("\"", Doubled(value));
    assert LineBreaks("\"") == 0;
  }

  /** A printed row holds a line break exactly when one of its cells does. */
  lemma {:induction false} PrintedRowBreaks(fields: seq<string>)
    ensures LineBreaks(JoinQuoted(fields)) == 0 <==> HoldsNoLineBreak(fields)
    decreases |fields|
  {
    hide Quote;
    if fields != [] {
      QuotingKeepsBreaks(fields[0]);
      BreaksCount(fields[0]);
      if |fields| > 1 {
        var rest := fields[1..];
        PrintedRowBreaks(rest);
        BreaksAddUp(Quote(fields[0]) + [COLUMN_SEPARATOR], JoinQuoted(rest));
        BreaksAddUp(Quote(fields[0]), [COLUMN_SEPARATOR]);
        BreaksCount([COLUMN_SEPARATOR]);
        assert HoldsNoLineBreak(fields) <==> '\n' !in fields[0] && HoldsNoLineBreak(rest) by {
          assert forall c | 1 <= c < |fields| :: fields[c] == rest[c - 1];
        }
      }
    }
  }

  lemma {:induction false} ReadsLine(line: string, rest: string, current: string)
    requires '\n' !in line
    ensures MisComprobantesCsv.SplitLines(line + LINE_SEPARATOR + rest, current)
         == [current + line] + MisComprobantesCsv.SplitLines(rest, "")
  {
    var text := line + LINE_SEPARATOR + rest;
    if line == "" {
      assert text[2..] == rest && current + line == current;
    } else {
      ReadsLine(line[1..], rest, current + [line[0]]);
      assert text[1..] == line[1..] + LINE_SEPARATOR + rest;
      assert line[0] != '\n' && (|line| > 1 ==> line[1] != '\n');
      assert current + [line[0]] + line[1..] == current + line;
    }
  }

  /** A text has as many breaks as rows, and those inside cells besides. */
  lemma {:induction false} RenderedBreaks(rows: seq<seq<string>>)
    ensures LineBreaks(RenderLines(rows)) >= |rows|
    ensures LineBreaks(RenderLines(rows)) == |rows| ==> forall k | 0 <= k < |rows| :: HoldsNoLineBreak(rows[k])
  {
    hide JoinQuoted;
    if rows != [] {
      RenderedBreaks(rows[1..]);
      PrintedRowBreaks(rows[0]);
      BreaksAddUp(JoinQuoted(rows[0]) + LINE_SEPARATOR, RenderLines(rows[1..]));
      BreaksAddUp(JoinQuoted(rows[0]), LINE_SEPARATOR);
      assert LineBreaks(LINE_SEPARATOR) == 1;
      assert forall k | 1 <= k < |rows| :: rows[k] == rows[1..][k - 1];
    }
  }

  lemma {:induction false} RenderedLines(rows: seq<seq<string>>)
    requires forall k | 0 <= k < |rows| :: HoldsNoLineBreak(rows[k])
    ensures MisComprobantesCsv.SplitLines(RenderLines(rows), "") == PrintedRows(rows) + [""]
  {
    hide JoinQuoted, HoldsNoLineBreak;
    if rows != [] {
      RenderedLines(rows[1..]);
      PrintedRowBreaks(rows[0]);
      BreaksCount(JoinQuoted(rows[0]));
      ReadsLine(JoinQuoted(rows[0]), RenderLines(rows[1..]), "");
      assert "" + JoinQuoted(rows[0]) == JoinQuoted(rows[0]);
      assert PrintedRows(rows) == [JoinQuoted(rows[0])] + PrintedRows(rows[1..]);
    }
  }

  /** The lines of the rendered text, its byte order mark removed, are the header, the entries and the totals
      (and the end) exactly when no cell holds a line break: quoting protects the columns, not the lines. */
  lemma TextHasTheBooksLinesIff(book: Book, rateText: real -> string)
    ensures var rows := BookRows(book, rateText);
            MisComprobantesCsv.SplitLines(
              MisComprobantesCsv.RemoveFirst(RenderSalesBookCsv(book, rateText), MisComprobantesCsv.BOM), "")
            == PrintedRows(rows) + [""]
            <==> forall k | 0 <= k < |rows| :: HoldsNoLineBreak(rows[k])
  {
    var rows := BookRows(book, rateText);
    hide BookRows, RenderLines, HoldsNoLineBreak, JoinQuoted, MisComprobantesCsv.SplitLines;
    var text := RenderLines(rows);
    assert (UTF8_BYTE_ORDER_MARK + text)[1..] == text;
    assert MisComprobantesCsv.RemoveFirst(UTF8_BYTE_ORDER_MARK + text, MisComprobantesCsv.BOM) == text;
    LineCount(text, "");
    RenderedBreaks(rows);
    if forall k | 0 <= k < |rows| :: HoldsNoLineBreak(rows[k]) { RenderedLines(rows); }
  }

  // Amounts in their columns --------------------------------------------------------------------------

  lemma TrimmedAmounts(leading: seq<string>, amounts: seq<int>, last: string, i: nat)
    requires i < |amounts|
    ensures Trimmed(RowOf(leading, amounts, last))[|leading| + i] == FormatAmount(amounts[i])
  {}

  lemma PrintedAmountsReadBack(leading: seq<string>, amounts: seq<int>, last: string, i: nat)
    requires i < |amounts|
    ensures var fields := MisComprobantesCsv.SplitFields(JoinQuoted(RowOf(leading, amounts, last)), ';');
            && |fields| == |leading| + |amounts| + 1
            && MisComprobantesCsv.ParseArcaAmount(fields[|leading| + i]) == MisComprobantesCsv.Got(amounts[i] as real / 100.0)
  {
    hide FormatAmount, Trimmed, JoinQuoted, AmountCells, RowOf, MisComprobantesCsv.SplitFields,
         MisComprobantesCsv.ParseArcaAmount;
    SplitUndoesPrinting(RowOf(leading, amounts, last));
    TrimmedAmounts(leading, amounts, last, i);
    AmountsReadBack(amounts[i]);
  }

  const FIRST_AMOUNT_COLUMN: nat := 9

  lemma LeadingLength(entry: BookEntry, rateText: real -> string)
    ensures |LeadingCells(entry, rateText)| == FIRST_AMOUNT_COLUMN
  {}
}
