/** Reading the CSV that ARCA's "Mis Comprobantes" exports: one invoice per line, or the reason it is not. */
module MisComprobantesCsv {
  import opened Common
  import opened Text

  // One line ------------------------------------------------------------------------------------------

  /** The fields still to come, given what has been read of the current one. */
  function SplitRest(line: string, delimiter: char, current: string, quoted: bool): seq<string>
    decreases |line|
  {
    if line == "" then [Trim(current)]
    else if line[0] == '"' then
      if quoted && |line| > 1 && line[1] == '"' then SplitRest(line[2..], delimiter, current + "\"", quoted)
      else SplitRest(line[1..], delimiter, current, !quoted)
    else if line[0] == delimiter && !quoted then [Trim(current)] + SplitRest(line[1..], delimiter, "", quoted)
    else SplitRest(line[1..], delimiter, current + [line[0]], quoted)
  }

  function SplitFields(line: string, delimiter: char): seq<string> {
    SplitRest(line, delimiter, "", false)
  }

  /** `splitLine`. */
  method SplitLine(line: string, delimiter: char) returns (fields: seq<string>)
    ensures fields == SplitFields(line, delimiter)
  {
    fields := [];
    var current, quoted, i := "", false, 0;
    assert line[0..] == line;
    while i < |line|
      invariant 0 <= i <= |line|
      invariant fields + SplitRest(line[i..], delimiter, current, quoted) == SplitFields(line, delimiter)
    {
      var c := line[i];
      ghost var rest := line[i..];
      assert rest[0] == c && rest[1..] == line[i + 1..];
      if c == '"' {
        if quoted && i + 1 < |line| && line[i + 1] == '"' {
          assert rest[2..] == line[i + 2..];
          current := current + "\"";
          i := i + 1;
        } else {
          quoted := !quoted;
        }
      } else if c == delimiter && !quoted {
        assert fields + ([Trim(current)] + SplitRest(rest[1..], delimiter, "", quoted))
            == fields + [Trim(current)] + SplitRest(rest[1..], delimiter, "", quoted);
        fields := fields + [Trim(current)];
        current := "";
      } else {
        current := current + [c];
      }
      i := i + 1;
    }
    fields := fields + [Trim(current)];
  }

  // One cell ------------------------------------------------------------------------------------------

  datatype Unreadable = BadAmount | BadDate | BadInteger(cell: string) | BadCuit

  datatype Read<T> = Got(value: T) | Failed(reason: Unreadable)

  const CUIT_LENGTH := 11

  function Pow10(n: nat): (p: nat)
    ensures p >= 1
  {
    if n == 0 then 1 else 10 * Pow10(n - 1)
  }

  /** Where the first of a character is, or the length. */
  function IndexOf(s: string, c: char): (k: nat)
    ensures k <= |s| && (k < |s| ==> s[k] == c) && forall i | 0 <= i < k :: s[i] != c
  {
    if s == "" || s[0] == c then 0 else 1 + IndexOf(s[1..], c)
  }

  /** `Number(text)` for plain decimal notation, in units; `None` is not a number. */
  function ParseNumber(text: string): Option<real> {
    if text == "" then Some(0.0)
    else if text[0] == '-' then (match ParseUnsigned(text[1..]) case Some(x) => Some(-x) case None => None)
    else if text[0] == '+' then ParseUnsigned(text[1..])
    else ParseUnsigned(text)
  }

  function ParseUnsigned(text: string): Option<real> {
    var dot := IndexOf(text, '.');
    var whole := text[..dot];
    var fraction := if dot < |text| then text[dot + 1..] else "";
    if !AreDigits(whole) || !AreDigits(fraction) || (whole == "" && fraction == "") then None
    else Some(Value(whole) as real + Value(fraction) as real / Pow10(|fraction|) as real)
  }

  /** Whether the text ends in a comma and one or two digits. */
  predicate UsesCommaDecimals(s: string) {
    || (|s| >= 2 && s[|s| - 2] == ',' && IsDigit(s[|s| - 1]))
    || (|s| >= 3 && s[|s| - 3] == ',' && IsDigit(s[|s| - 2]) && IsDigit(s[|s| - 1]))
  }

  /** `parseArcaAmount`. */
  function ParseArcaAmount(raw: string): Read<real> {
    var cleaned := WithoutBlanks(raw);
    if cleaned == "" then Got(0.0)
    else
      var normalized := if UsesCommaDecimals(cleaned) then ReplaceFirst(Without(cleaned, '.'), ',', '.')
                        else Without(cleaned, ',');
      match ParseNumber(normalized)
      case Some(value) => Got(value)
      case None => Failed(BadAmount)
  }

  /** Dates are kept as text, year first. */
  function ParseArcaDate(raw: string): Read<string> {
    if |raw| >= 10 && AreDigits(raw[..4]) && raw[4] == '-' && AreDigits(raw[5..7]) && raw[7] == '-' && AreDigits(raw[8..10])
    then Got(raw[..10])
    else if |raw| >= 10 && AreDigits(raw[..2]) && raw[2] == '/' && AreDigits(raw[3..5]) && raw[5] == '/' && AreDigits(raw[6..10])
    then Got(raw[6..10] + "-" + raw[3..5] + "-" + raw[..2])
    else Failed(BadDate)
  }

  function ParseInteger(raw: string, cell: string): Read<nat> {
    var value := Value(OnlyDigits(raw));
    if value == 0 then Failed(BadInteger(cell)) else Got(value)
  }

  function ParseCuit(raw: string): Read<string> {
    var digits := OnlyDigits(raw);
    if |digits| != CUIT_LENGTH then Failed(BadCuit) else Got(digits)
  }

  // One row -------------------------------------------------------------------------------------------

  datatype Column =
    | DATE | TYPE | SALES_POINT | NUMBER_FROM | ISSUER_DOC_NUMBER | ISSUER_NAME
    | NET_TAXED | NET_UNTAXED | EXEMPT | IVA | TOTAL

  const REQUIRED_COLUMNS: seq<Column> :=
    [DATE, TYPE, SALES_POINT, NUMBER_FROM, ISSUER_DOC_NUMBER, ISSUER_NAME, NET_TAXED, NET_UNTAXED, EXEMPT, IVA, TOTAL]

  function ColumnName(column: Column): string {
    match column
    case DATE => "fecha"
    case TYPE => "tipo"
    case SALES_POINT => "puntodeventa"
    case NUMBER_FROM => "numerodesde"
    case ISSUER_DOC_NUMBER => "nrodocemisor"
    case ISSUER_NAME => "denominacionemisor"
    case NET_TAXED => "impnetogravado"
    case NET_UNTAXED => "impnetonogravado"
    case EXEMPT => "impopexentas"
    case IVA => "iva"
    case TOTAL => "imptotal"
  }

  /** Amounts in units of the currency, exactly as read. */
  datatype ParsedRow = ParsedRow(
    line: nat, supplierCuit: string, supplierName: string, invoiceType: nat, salesPoint: nat, number: nat,
    issueDate: string, netTaxed: real, untaxed: real, exempt: real, ivaAmount: real, total: real)

  datatype InvalidRow = InvalidRow(line: nat, reason: Unreadable)

  function HeaderIndex(headers: seq<string>, name: string): (k: nat)
    ensures k <= |headers|
  {
    if headers == [] || headers[0] == name then 0 else 1 + HeaderIndex(headers[1..], name)
  }

  /** The cell under a column, or nothing when the line is too short. */
  function Cell(headers: seq<string>, fields: seq<string>, column: Column): string {
    var k := HeaderIndex(headers, ColumnName(column));
    if k < |fields| then fields[k] else ""
  }

  /** The cells are read in this order, and the first unreadable one is the reason. */
  function ParseRow(headers: seq<string>, fields: seq<string>, line: nat): Read<ParsedRow> {
    match ParseCuit(Cell(headers, fields, ISSUER_DOC_NUMBER))
    case Failed(reason) => Failed(reason)
    case Got(cuit) =>
      match ParseInteger(Cell(headers, fields, TYPE), "Tipo de comprobante")
      case Failed(reason) => Failed(reason)
      case Got(invoiceType) =>
        match ParseInteger(Cell(headers, fields, SALES_POINT), "Punto de venta")
        case Failed(reason) => Failed(reason)
        case Got(salesPoint) =>
          match ParseInteger(Cell(headers, fields, NUMBER_FROM), "Número")
          case Failed(reason) => Failed(reason)
          case Got(number) =>
            match ParseArcaDate(Cell(headers, fields, DATE))
            case Failed(reason) => Failed(reason)
            case Got(date) =>
              ParseAmounts(headers, fields, ParsedRow(
                line, cuit, Cell(headers, fields, ISSUER_NAME), invoiceType, salesPoint, number, date,
                0.0, 0.0, 0.0, 0.0, 0.0))
  }

  function ParseAmounts(headers: seq<string>, fields: seq<string>, row: ParsedRow): Read<ParsedRow> {
    match ParseArcaAmount(Cell(headers, fields, NET_TAXED))
    case Failed(reason) => Failed(reason)
    case Got(netTaxed) =>
      match ParseArcaAmount(Cell(headers, fields, NET_UNTAXED))
      case Failed(reason) => Failed(reason)
      case Got(untaxed) =>
        match ParseArcaAmount(Cell(headers, fields, EXEMPT))
        case Failed(reason) => Failed(reason)
        case Got(exempt) =>
          match ParseArcaAmount(Cell(headers, fields, IVA))
          case Failed(reason) => Failed(reason)
          case Got(ivaAmount) =>
            match ParseArcaAmount(Cell(headers, fields, TOTAL))
            case Failed(reason) => Failed(reason)
            case Got(total) =>
              Got(row.(netTaxed := netTaxed, untaxed := untaxed, exempt := exempt, ivaAmount := ivaAmount, total := total))
  }

  lemma ParsedRowFacts(headers: seq<string>, fields: seq<string>, line: nat)
    ensures ParseRow(headers, fields, line).Got? ==>
              var row := ParseRow(headers, fields, line).value;
              row.line == line && |row.supplierCuit| == CUIT_LENGTH && AllDigits(row.supplierCuit)
              && row.invoiceType > 0 && row.salesPoint > 0 && row.number > 0
  {}

  // The whole file ------------------------------------------------------------------------------------

  const BOM := '\U{FEFF}'
  const FIRST_DATA_LINE_NUMBER := 2
  const SEMICOLON := ';'
  const COMMA := ','

  datatype ParsedCsv = ParsedCsv(rows: seq<ParsedRow>, invalid: seq<InvalidRow>)

  datatype FileResult = Parsed(csv: ParsedCsv) | EmptyFile | MissingColumns(columns: seq<Column>)

  /** `split(/\r?\n/)`. */
  function SplitLines(text: string, current: string): seq<string>
    decreases |text|
  {
    if text == "" then [current]
    else if text[0] == '\r' && |text| > 1 && text[1] == '\n' then [current] + SplitLines(text[2..], "")
    else if text[0] == '\n' then [current] + SplitLines(text[1..], "")
    else SplitLines(text[1..], current + [text[0]])
  }

  function NonBlank(lines: seq<string>): seq<string> {
    if lines == [] then [] else (if Trim(lines[0]) == "" then [] else [lines[0]]) + NonBlank(lines[1..])
  }

  function RemoveFirst(s: string, c: char): string {
    if s == "" then "" else if s[0] == c then s[1..] else [s[0]] + RemoveFirst(s[1..], c)
  }

  function LinesOf(csv: string): seq<string> {
    NonBlank(SplitLines(RemoveFirst(csv, BOM), ""))
  }

  function CountOf(s: string, c: char): nat {
    if s == "" then 0 else (if s[0] == c then 1 else 0) + CountOf(s[1..], c)
  }

  function DetectDelimiter(header: string): char {
    if CountOf(header, SEMICOLON) >= CountOf(header, COMMA) then SEMICOLON else COMMA
  }

  function MissingFrom(headers: seq<string>, columns: seq<Column>): seq<Column> {
    if columns == [] then []
    else (if ColumnName(columns[0]) in headers then [] else [columns[0]]) + MissingFrom(headers, columns[1..])
  }

  /** What a data line comes to, at its line number. */
  function ReadLine(headers: seq<string>, delimiter: char, dataLines: seq<string>, k: nat): Read<ParsedRow>
    requires k < |dataLines|
  {
    ParseRow(headers, SplitFields(dataLines[k], delimiter), k + FIRST_DATA_LINE_NUMBER)
  }

  /** Every data line is in exactly one of the two lists, with its own line number. */
  ghost predicate Sorted(rows: seq<ParsedRow>, invalid: seq<InvalidRow>, headers: seq<string>, delimiter: char,
                         dataLines: seq<string>, n: nat)
    requires n <= |dataLines|
  {
    && |rows| + |invalid| == n
    && (forall k: nat | k < n ::
          match ReadLine(headers, delimiter, dataLines, k)
          case Got(row) => row in rows && forall i | 0 <= i < |invalid| :: invalid[i].line != k + FIRST_DATA_LINE_NUMBER
          case Failed(reason) =>
            InvalidRow(k + FIRST_DATA_LINE_NUMBER, reason) in invalid
            && forall i | 0 <= i < |rows| :: rows[i].line != k + FIRST_DATA_LINE_NUMBER)
    && (forall i | 0 <= i < |rows| ::
          && FIRST_DATA_LINE_NUMBER <= rows[i].line < n + FIRST_DATA_LINE_NUMBER
          && ReadLine(headers, delimiter, dataLines, rows[i].line - FIRST_DATA_LINE_NUMBER) == Got(rows[i]))
    && (forall i | 0 <= i < |invalid| ::
          && FIRST_DATA_LINE_NUMBER <= invalid[i].line < n + FIRST_DATA_LINE_NUMBER
          && ReadLine(headers, delimiter, dataLines, invalid[i].line - FIRST_DATA_LINE_NUMBER) == Failed(invalid[i].reason))
    && (forall i, j | 0 <= i < j < |rows| :: rows[i].line < rows[j].line)
    && (forall i, j | 0 <= i < j < |invalid| :: invalid[i].line < invalid[j].line)
  }

  /** `parseMisComprobantesCsv`; `normalize` is how header names are reduced to plain lower-case letters
      and digits. */
  method ParseMisComprobantesCsv(csv: string, normalize: string -> string) returns (result: FileResult)
    ensures result.EmptyFile? <==> LinesOf(csv) == []
    ensures LinesOf(csv) != [] ==>
              var delimiter := DetectDelimiter(LinesOf(csv)[0]);
              var headers := NormalizedAll(SplitFields(LinesOf(csv)[0], delimiter), normalize);
              var missing := MissingFrom(headers, REQUIRED_COLUMNS);
              if missing != [] then result == MissingColumns(missing)
              else result.Parsed?
                   && Sorted(result.csv.rows, result.csv.invalid, headers, delimiter, LinesOf(csv)[1..], |LinesOf(csv)| - 1)
  {
    var lines := LinesOf(csv);
    if lines == [] { return EmptyFile; }
    var dataLines := lines[1..];
    var delimiter := DetectDelimiter(lines[0]);
    var headerFields := SplitLine(lines[0], delimiter);
    var headers := NormalizedAll(headerFields, normalize);
    var missing := MissingFrom(headers, REQUIRED_COLUMNS);
    if missing != [] { return MissingColumns(missing); }

    hide ParseRow, LinesOf, DetectDelimiter, NormalizedAll, MissingFrom, SplitFields;
    var rows: seq<ParsedRow>, invalid: seq<InvalidRow> := [], [];
    for n := 0 to |dataLines|
      invariant Sorted(rows, invalid, headers, delimiter, dataLines, n)
    {
      var fields := SplitLine(dataLines[n], delimiter);
      var row := ParseRow(headers, fields, n + FIRST_DATA_LINE_NUMBER);
      ParsedRowFacts(headers, fields, n + FIRST_DATA_LINE_NUMBER);
      match row
      case Got(value) =>
        RowJoins(rows, invalid, headers, delimiter, dataLines, n, value);
        rows := rows + [value];
      case Failed(reason) =>
        InvalidJoins(rows, invalid, headers, delimiter, dataLines, n, reason);
        invalid := invalid + [InvalidRow(n + FIRST_DATA_LINE_NUMBER, reason)];
    }
    return Parsed(ParsedCsv(rows, invalid));
  }

  function NormalizedAll(fields: seq<string>, normalize: string -> string): seq<string> {
    seq(|fields|, i requires 0 <= i < |fields| => normalize(fields[i]))
  }

  lemma RowJoins(rows: seq<ParsedRow>, invalid: seq<InvalidRow>, headers: seq<string>, delimiter: char,
                 dataLines: seq<string>, n: nat, row: ParsedRow)
    requires n < |dataLines| && Sorted(rows, invalid, headers, delimiter, dataLines, n)
    requires ReadLine(headers, delimiter, dataLines, n) == Got(row) && row.line == n + FIRST_DATA_LINE_NUMBER
    ensures Sorted(rows + [row], invalid, headers, delimiter, dataLines, n + 1)
  {
    hide ReadLine;
  }

  lemma InvalidJoins(rows: seq<ParsedRow>, invalid: seq<InvalidRow>, headers: seq<string>, delimiter: char,
                     dataLines: seq<string>, n: nat, reason: Unreadable)
    requires n < |dataLines| && Sorted(rows, invalid, headers, delimiter, dataLines, n)
    requires ReadLine(headers, delimiter, dataLines, n) == Failed(reason)
    ensures Sorted(rows, invalid + [InvalidRow(n + FIRST_DATA_LINE_NUMBER, reason)], headers, delimiter, dataLines, n + 1)
  {
    hide ReadLine;
  }
}
