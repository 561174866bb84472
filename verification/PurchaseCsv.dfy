/** What the reader of "Mis Comprobantes" makes of a line in ARCA's own notation: exactly its invoice. */
module PurchaseCsv {
  import opened Common
  import opened Text
  import opened MisComprobantesCsv
  import opened SalesBookCsv

  /** A purchase as ARCA prints it: digits for its identity and date, whole cents for its amounts. */
  datatype PrintedPurchase = PrintedPurchase(
    cuit: string, name: string, invoiceType: nat, salesPoint: nat, number: nat,
    year: string, month: string, day: string, netTaxed: int, untaxed: int, exempt: int, iva: int, total: int)

  ghost predicate Printable(p: PrintedPurchase) {
    && |p.cuit| == CUIT_LENGTH && AllDigits(p.cuit)
    && p.invoiceType > 0 && p.salesPoint > 0 && p.number > 0
    && |p.year| == 4 && AllDigits(p.year) && |p.month| == 2 && AllDigits(p.month) && |p.day| == 2 && AllDigits(p.day)
  }

  function CellText(p: PrintedPurchase, column: Column): string {
    match column
    case DATE => p.day + "/" + p.month + "/" + p.year
    case TYPE => Digits(p.invoiceType)
    case SALES_POINT => Digits(p.salesPoint)
    case NUMBER_FROM => Digits(p.number)
    case ISSUER_DOC_NUMBER => p.cuit
    case ISSUER_NAME => p.name
    case NET_TAXED => FormatAmount(p.netTaxed)
    case NET_UNTAXED => FormatAmount(p.untaxed)
    case EXEMPT => FormatAmount(p.exempt)
    case IVA => FormatAmount(p.iva)
    case TOTAL => FormatAmount(p.total)
  }

  function RowOf(p: PrintedPurchase, line: nat): ParsedRow {
    ParsedRow(line, p.cuit, p.name, p.invoiceType, p.salesPoint, p.number, p.year + "-" + p.month + "-" + p.day,
              p.netTaxed as real / 100.0, p.untaxed as real / 100.0, p.exempt as real / 100.0,
              p.iva as real / 100.0, p.total as real / 100.0)
  }

  lemma {:induction false} DigitsAreKept(s: string)
    requires AllDigits(s)
    ensures OnlyDigits(s) == s
  {
    if s != "" { DigitsAreKept(s[1..]); }
  }

  lemma IntegerReadsBack(n: nat, cell: string)
    ensures ParseInteger(Digits(n), cell) == if n > 0 then Got(n) else Failed(BadInteger(cell))
  {
    DigitsAreKept(Digits(n));
    ValueOfDigits(n);
  }

  lemma DateReadsBack(year: string, month: string, day: string)
    requires |year| == 4 && AllDigits(year) && |month| == 2 && AllDigits(month) && |day| == 2 && AllDigits(day)
    ensures ParseArcaDate(day + "/" + month + "/" + year) == Got(year + "-" + month + "-" + day)
  {
    var raw := day + "/" + month + "/" + year;
    assert raw[..2] == day && raw[3..5] == month && raw[6..10] == year;
    assert raw[..4][2] == '/' && !IsDigit(raw[..4][2]);
  }

  lemma AmountsReadBackTogether(headers: seq<string>, fields: seq<string>, p: PrintedPurchase, row: ParsedRow)
    requires forall column: Column :: Cell(headers, fields, column) == CellText(p, column)
    ensures ParseAmounts(headers, fields, row) == Got(row.(
              netTaxed := p.netTaxed as real / 100.0, untaxed := p.untaxed as real / 100.0,
              exempt := p.exempt as real / 100.0, ivaAmount := p.iva as real / 100.0, total := p.total as real / 100.0))
  {
    hide FormatAmount, ParseArcaAmount, Cell;
    AmountsReadBack(p.netTaxed);
    AmountsReadBack(p.untaxed);
    AmountsReadBack(p.exempt);
    AmountsReadBack(p.iva);
    AmountsReadBack(p.total);
  }

  /** A line whose cells, under whatever arrangement of the headers, are those of a printed purchase is
      read as exactly that purchase: every field from its own column, every amount to the cent. */
  lemma PrintedPurchaseReadsBack(headers: seq<string>, fields: seq<string>, p: PrintedPurchase, line: nat)
    requires Printable(p) && forall column: Column :: Cell(headers, fields, column) == CellText(p, column)
    ensures ParseRow(headers, fields, line) == Got(RowOf(p, line))
  {
    hide FormatAmount, Cell, ParseInteger, ParseArcaDate, ParseAmounts, Digits;
    DigitsAreKept(p.cuit);
    IntegerReadsBack(p.invoiceType, "Tipo de comprobante");
    IntegerReadsBack(p.salesPoint, "Punto de venta");
    IntegerReadsBack(p.number, "Número");
    DateReadsBack(p.year, p.month, p.day);
    AmountsReadBackTogether(headers, fields, p, ParsedRow(
      line, p.cuit, p.name, p.invoiceType, p.salesPoint, p.number, p.year + "-" + p.month + "-" + p.day,
      0.0, 0.0, 0.0, 0.0, 0.0));
  }

  /** The cell of a column is the field under the first header with its name. */
  lemma {:induction false} CellIsUnderItsHeader(headers: seq<string>, fields: seq<string>, column: Column, k: nat)
    requires k < |headers| && k < |fields| && headers[k] == ColumnName(column)
    requires forall i | 0 <= i < k :: headers[i] != ColumnName(column)
    ensures Cell(headers, fields, column) == fields[k]
  {
    FirstIndex(headers, ColumnName(column), k);
  }

  lemma {:induction false} FirstIndex(headers: seq<string>, name: string, k: nat)
    requires k < |headers| && headers[k] == name && forall i | 0 <= i < k :: headers[i] != name
    ensures HeaderIndex(headers, name) == k
  {
    if k > 0 {
      FirstIndex(headers[1..], name, k - 1);
    }
  }

  // Cells in other notations --------------------------------------------------------------------------

  lemma {:induction false} DigitsOfBoth(s: string, t: string)
    ensures OnlyDigits(s + t) == OnlyDigits(s) + OnlyDigits(t)
  {
    hide IsDigit, AllDigits;
    if s == "" {
      assert s + t == t;
    } else {
      var first := if IsDigit(s[0]) then [s[0]] else "";
      DigitsOfBoth(s[1..], t);
      assert (s + t)[0] == s[0] && (s + t)[1..] == s[1..] + t;
      assert OnlyDigits(s) == first + OnlyDigits(s[1..]);
    }
  }

  /** A CUIT may be written with dashes. */
  lemma DashedCuitReadsBack(kind: string, document: string, check: string)
    requires |kind| == 2 && |document| == 8 && |check| == 1 && AllDigits(kind) && AllDigits(document) && AllDigits(check)
    ensures ParseCuit(kind + "-" + document + "-" + check) == Got(kind + document + check)
  {
    DigitsAreKept(kind);
    DigitsAreKept(document);
    DigitsAreKept(check);
    DigitsOfBoth(kind + "-" + document + "-", check);
    DigitsOfBoth(kind + "-" + document, "-");
    DigitsOfBoth(kind + "-", document);
    DigitsOfBoth(kind, "-");
    assert OnlyDigits("-") == "" && kind + "" == kind && (kind + document) + "" == kind + document;
  }

  lemma IsoDateReadsBack(year: string, month: string, day: string)
    requires |year| == 4 && AllDigits(year) && |month| == 2 && AllDigits(month) && |day| == 2 && AllDigits(day)
    ensures ParseArcaDate(year + "-" + month + "-" + day) == Got(year + "-" + month + "-" + day)
  {
    var raw := year + "-" + month + "-" + day;
    assert raw[..4] == year && raw[5..7] == month && raw[8..10] == day && raw[..10] == raw;
  }

  /** An amount with a decimal comma reads as it would without blanks and without points, however these group
      its digits ... */
  lemma GroupedAmountsReadBack(raw: string, cents: int)
    requires UsesCommaDecimals(WithoutBlanks(raw)) && Without(WithoutBlanks(raw), '.') == FormatAmount(cents)
    ensures ParseArcaAmount(raw) == Got(cents as real / 100.0)
  {
    hide FormatAmount, WithoutBlanks, Without, ReplaceFirst, UsesCommaDecimals, ParseNumber, PointText;
    var magnitude: nat := if cents < 0 then -cents else cents;
    FormatNormalizes(cents);
    PointTextReadsBack(magnitude);
    NothingIsLeft(WithoutBlanks(raw));
    assert "" + PointText(magnitude) == PointText(magnitude);
  }

  lemma NothingIsLeft(s: string)
    ensures UsesCommaDecimals(s) ==> s != ""
  {}

  /** ... and one with a decimal point as it would without blanks and commas. */
  lemma PointAmountsReadBack(raw: string, cents: nat)
    requires !UsesCommaDecimals(WithoutBlanks(raw)) && Without(WithoutBlanks(raw), ',') == PointText(cents)
    ensures ParseArcaAmount(raw) == Got(cents as real / 100.0)
  {
    hide WithoutBlanks, UsesCommaDecimals, ParseNumber, PointText;
    PointTextReadsBack(cents);
    PointTextIsSome(cents);
  }

  lemma PointTextIsSome(cents: nat)
    ensures PointText(cents) != ""
  {}

  /** A line is read exactly when each of its cells is, each field from its own cell, and otherwise for the reason
      of an unreadable one. */
  lemma LineIsReadIff(headers: seq<string>, fields: seq<string>, line: nat)
    ensures var cuit, kind := ParseCuit(Cell(headers, fields, ISSUER_DOC_NUMBER)),
                              ParseInteger(Cell(headers, fields, TYPE), "Tipo de comprobante");
            var salesPoint, number := ParseInteger(Cell(headers, fields, SALES_POINT), "Punto de venta"),
                                      ParseInteger(Cell(headers, fields, NUMBER_FROM), "Número");
            var date := ParseArcaDate(Cell(headers, fields, DATE));
            var net, untaxed := ParseArcaAmount(Cell(headers, fields, NET_TAXED)),
                                ParseArcaAmount(Cell(headers, fields, NET_UNTAXED));
            var exempt, iva := ParseArcaAmount(Cell(headers, fields, EXEMPT)), ParseArcaAmount(Cell(headers, fields, IVA));
            var total := ParseArcaAmount(Cell(headers, fields, TOTAL));
            match ParseRow(headers, fields, line)
            case Got(row) =>
              && cuit == Got(row.supplierCuit) && kind == Got(row.invoiceType) && salesPoint == Got(row.salesPoint)
              && number == Got(row.number) && date == Got(row.issueDate) && net == Got(row.netTaxed)
              && untaxed == Got(row.untaxed) && exempt == Got(row.exempt) && iva == Got(row.ivaAmount)
              && total == Got(row.total) && row.supplierName == Cell(headers, fields, ISSUER_NAME) && row.line == line
            case Failed(reason) =>
              || (reason == BadCuit && cuit.Failed?) || (reason == BadDate && date.Failed?)
              || (reason == BadAmount && (net.Failed? || untaxed.Failed? || exempt.Failed? || iva.Failed? || total.Failed?))
              || (reason == BadInteger("Tipo de comprobante") && kind.Failed?)
              || (reason == BadInteger("Punto de venta") && salesPoint.Failed?)
              || (reason == BadInteger("Número") && number.Failed?)
  {
    hide ParseArcaAmount, Cell;
    hide Value, OnlyDigits;
    AmountsFailAs(Cell(headers, fields, NET_TAXED));
    AmountsFailAs(Cell(headers, fields, NET_UNTAXED));
    AmountsFailAs(Cell(headers, fields, EXEMPT));
    AmountsFailAs(Cell(headers, fields, IVA));
    AmountsFailAs(Cell(headers, fields, TOTAL));
  }

  lemma AmountsFailAs(raw: string)
    ensures ParseArcaAmount(raw).Failed? ==> ParseArcaAmount(raw).reason == BadAmount
  {}

  // The whole file ------------------------------------------------------------------------------------

  lemma {:induction false} CountsWhatIsThere(s: string, c: char)
    ensures CountOf(s, c) > 0 <==> c in s
  {
    if s != "" { CountsWhatIsThere(s[1..], c); }
  }

  /** The one separator that a header uses is found; a header with neither is taken to use the semicolon. */
  lemma TheSeparatorIsFound(header: string)
    ensures COMMA !in header ==> DetectDelimiter(header) == SEMICOLON
    ensures COMMA in header && SEMICOLON !in header ==> DetectDelimiter(header) == COMMA
  {
    CountsWhatIsThere(header, COMMA);
    CountsWhatIsThere(header, SEMICOLON);
  }

  lemma {:induction false} MissingAreThose(headers: seq<string>, columns: seq<Column>, column: Column)
    ensures column in MissingFrom(headers, columns) <==> column in columns && ColumnName(column) !in headers
  {
    if columns != [] { MissingAreThose(headers, columns[1..], column); }
  }

  /** Lines, each with its line end. */
  function WithEnds(lines: seq<string>, end: string): string {
    if lines == [] then "" else lines[0] + end + WithEnds(lines[1..], end)
  }

  /** A line that neither line end can split or run into. */
  ghost predicate IsOneLine(line: string) {
    '\n' !in line && (line != "" ==> line[|line| - 1] != '\r')
  }

  lemma {:induction false} ReadsOneLine(line: string, end: string, rest: string, current: string)
    requires IsOneLine(line) && (end == "\n" || end == "\r\n")
    ensures SplitLines(line + end + rest, current) == [current + line] + SplitLines(rest, "")
  {
    var text := line + end + rest;
    if line == "" {
      assert text[|end|..] == rest && current + line == current;
    } else {
      assert IsOneLine(line[1..]);
      ReadsOneLine(line[1..], end, rest, current + [line[0]]);
      assert text[1..] == line[1..] + end + rest;
      assert line[0] != '\n' && (|line| == 1 ==> line[0] != '\r') && (|line| > 1 ==> text[1] == line[1]);
      assert current + [line[0]] + line[1..] == current + line;
    }
  }

  lemma {:induction false} LinesAreSplit(lines: seq<string>, end: string)
    requires (forall k | 0 <= k < |lines| :: IsOneLine(lines[k])) && (end == "\n" || end == "\r\n")
    ensures SplitLines(WithEnds(lines, end), "") == lines + [""]
  {
    if lines != [] {
      LinesAreSplit(lines[1..], end);
      ReadsOneLine(lines[0], end, WithEnds(lines[1..], end), "");
      assert "" + lines[0] == lines[0];
    }
  }

  lemma {:induction false} BlanksAreSkipped(lines: seq<string>)
    ensures forall k | 0 <= k < |NonBlank(lines)| :: Trim(NonBlank(lines)[k]) != ""
    ensures (forall k | 0 <= k < |lines| :: Trim(lines[k]) != "") ==> NonBlank(lines + [""]) == lines
  {
    hide Trim;
    if lines == [] {
      assert Trim("") == "" by { EmptyIsBlank(); }
      assert [""][1..] == [] && [] + [""] == [""];
    } else {
      BlanksAreSkipped(lines[1..]);
      assert (lines + [""])[1..] == lines[1..] + [""];
    }
  }

  lemma EmptyIsBlank()
    ensures Trim("") == ""
  {}

  /** A file's lines, whichever its line ends, with a byte order mark or without any, are read as they are. */
  lemma FileHasItsLines(lines: seq<string>, end: string)
    requires (forall k | 0 <= k < |lines| :: IsOneLine(lines[k]) && Trim(lines[k]) != "" && BOM !in lines[k])
    requires end == "\n" || end == "\r\n"
    ensures LinesOf([BOM] + WithEnds(lines, end)) == lines && LinesOf(WithEnds(lines, end)) == lines
  {
    hide SplitLines, NonBlank, Trim, WithEnds;
    var text := WithEnds(lines, end);
    LinesAreSplit(lines, end);
    BlanksAreSkipped(lines);
    assert ([BOM] + text)[1..] == text;
    assert BOM !in text by { NoMarkInside(lines, end); }
    NothingIsRemoved(text);
  }

  lemma {:induction false} NoMarkInside(lines: seq<string>, end: string)
    requires (forall k | 0 <= k < |lines| :: BOM !in lines[k]) && (end == "\n" || end == "\r\n")
    ensures BOM !in WithEnds(lines, end)
  {
    if lines != [] { NoMarkInside(lines[1..], end); }
  }

  lemma {:induction false} NothingIsRemoved(text: string)
    requires BOM !in text
    ensures RemoveFirst(text, BOM) == text
  {
    if text != "" { NothingIsRemoved(text[1..]); }
  }

  /** Whatever satisfies the reader's contract on a file of printed purchases is their rows, all of them, in
      order, numbered from the file's second line; and no line is invalid. */
  lemma PrintedFileReadsBack(headers: seq<string>, delimiter: char, dataLines: seq<string>, printed: seq<PrintedPurchase>,
                             rows: seq<ParsedRow>, invalid: seq<InvalidRow>)
    requires |printed| == |dataLines|
    requires forall k | 0 <= k < |printed| :: Printable(printed[k])
    requires forall k, column: Column | 0 <= k < |printed| ::
               Cell(headers, SplitFields(dataLines[k], delimiter), column) == CellText(printed[k], column)
    requires Sorted(rows, invalid, headers, delimiter, dataLines, |dataLines|)
    ensures invalid == [] && |rows| == |printed|
    ensures forall k | 0 <= k < |rows| :: rows[k] == RowOf(printed[k], k + 2)
  {
    hide ParseRow, SplitFields, Cell, CellText, Printable, RowOf;
    forall k: nat | k < |dataLines| ensures ReadLine(headers, delimiter, dataLines, k) == Got(RowOf(printed[k], k + 2)) {
      PrintedPurchaseReadsBack(headers, SplitFields(dataLines[k], delimiter), printed[k], k + 2);
    }
    hide ReadLine;
    if invalid != [] {
      InvalidIsUnread(headers, delimiter, dataLines, rows, invalid);
      assert false;
    }
    forall i | 0 <= i < |rows| ensures rows[i].line == i + 2 { ConsecutiveLines(rows, i); }
  }

  lemma InvalidIsUnread(headers: seq<string>, delimiter: char, dataLines: seq<string>, rows: seq<ParsedRow>,
                        invalid: seq<InvalidRow>)
    requires Sorted(rows, invalid, headers, delimiter, dataLines, |dataLines|) && invalid != []
    ensures exists k: nat :: k < |dataLines| && ReadLine(headers, delimiter, dataLines, k).Failed?
  {
    assert ReadLine(headers, delimiter, dataLines, invalid[0].line - FIRST_DATA_LINE_NUMBER).Failed?;
    hide ReadLine;
  }

  /** As many increasing line numbers as there are lines are all of them. */
  lemma ConsecutiveLines(rows: seq<ParsedRow>, i: nat)
    requires i < |rows| && forall k | 0 <= k < |rows| :: 2 <= rows[k].line < |rows| + 2
    requires forall k, m | 0 <= k < m < |rows| :: rows[k].line < rows[m].line
    ensures rows[i].line == i + 2
  {
    AtLeastItsPlace(rows, i);
    AtMostItsPlace(rows, i);
  }

  lemma {:induction false} AtLeastItsPlace(rows: seq<ParsedRow>, i: nat)
    requires i < |rows| && forall k | 0 <= k < |rows| :: 2 <= rows[k].line
    requires forall k, m | 0 <= k < m < |rows| :: rows[k].line < rows[m].line
    ensures rows[i].line >= i + 2
  {
    if i > 0 { AtLeastItsPlace(rows, i - 1); }
  }

  lemma {:induction false} AtMostItsPlace(rows: seq<ParsedRow>, i: nat)
    requires i < |rows| && forall k | 0 <= k < |rows| :: rows[k].line < |rows| + 2
    requires forall k, m | 0 <= k < m < |rows| :: rows[k].line < rows[m].line
    ensures rows[i].line <= i + 2
    decreases |rows| - i
  {
    if i + 1 < |rows| { AtMostItsPlace(rows, i + 1); }
  }
}
