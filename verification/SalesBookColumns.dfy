/** The rendered sales book as its reader sees it: what stands under each of the header's names. */
module SalesBookColumns {
  import opened Common
  import opened Money
  import opened Text
  import opened SalesBook
  import opened SalesBookCsv
  import Csv = MisComprobantesCsv
  import Dates
  import PurchaseCsv
  import VoucherTypes

  /** The field that reading a line back finds under a name of the header. */
  function Under(line: string, name: string): string {
    var k, fields := Csv.HeaderIndex(HEADER, name), Csv.SplitFields(line, COLUMN_SEPARATOR);
    if k < |fields| then fields[k] else ""
  }

  ghost predicate Shows(line: string, name: string, cents: int) {
    Csv.ParseArcaAmount(Under(line, name)) == Csv.Got(cents as real / 100.0)
  }

  lemma HeaderNames()
    ensures HEADER == ["Fecha", "Tipo", "Punto de venta", "Número", "Tipo doc. receptor", "Nro. doc. receptor",
                       "Receptor", "Moneda", "Cotización", "Neto gravado", "No gravado", "Exento", "IVA 27%",
                       "IVA 21%", "IVA 10,5%", "IVA 5%", "IVA 2,5%", "IVA total", "Otros tributos", "Total", "CAE"]
  {
    assert "IVA " + "27" + "%" == "IVA 27%" && "IVA " + "21" + "%" == "IVA 21%" && "IVA " + "10,5" + "%" == "IVA 10,5%";
    assert "IVA " + "5" + "%" == "IVA 5%" && "IVA " + "2,5" + "%" == "IVA 2,5%";
    assert RateHeaders(TAXED_RATES) == ["IVA 27%", "IVA 21%", "IVA 10,5%", "IVA 5%", "IVA 2,5%"];
  }

  /** What tells two names of the header apart. */
  function Mark(name: string): (nat, char, char) {
    (|name|, if |name| > 0 then name[0] else ' ', if |name| > 5 then name[5] else ' ')
  }

  lemma MarksDiffer(j: nat, k: nat)
    requires j < k < |HEADER|
    ensures Mark(HEADER[j]) != Mark(HEADER[k])
  {
    hide HEADER;
    HeaderNames();
  }

  lemma ColumnOf(name: string, k: nat)
    requires k < |HEADER| && HEADER[k] == name
    ensures Csv.HeaderIndex(HEADER, name) == k
  {
    HeaderNames();
    forall j | 0 <= j < k ensures HEADER[j] != name { MarksDiffer(j, k); }
    PurchaseCsv.FirstIndex(HEADER, name, k);
  }

  lemma AmountUnder(leading: seq<string>, amounts: seq<int>, last: string, i: nat)
    requires |leading| == FIRST_AMOUNT_COLUMN && i < |amounts| == 11
    ensures Shows(JoinQuoted(RowOf(leading, amounts, last)), HEADER[FIRST_AMOUNT_COLUMN + i], amounts[i])
  {
    hide RowOf, JoinQuoted, Csv.SplitFields, Csv.ParseArcaAmount, Csv.HeaderIndex, HEADER;
    HeaderNames();
    ColumnOf(HEADER[FIRST_AMOUNT_COLUMN + i], FIRST_AMOUNT_COLUMN + i);
    PrintedAmountsReadBack(leading, amounts, last, i);
  }

  lemma TextUnder(row: seq<string>, k: nat)
    requires k < |row| == |HEADER|
    ensures Under(JoinQuoted(row), HEADER[k]) == Trim(row[k])
  {
    hide JoinQuoted, Csv.SplitFields, Csv.HeaderIndex, Trim;
    ColumnOf(HEADER[k], k);
    SplitUndoesPrinting(row);
  }

  // Amounts -------------------------------------------------------------------------------------------

  /** The rate whose IVA stands under a name. */
  ghost predicate IsRateColumn(name: string, rate: nat) {
    || (name == "IVA 27%" && rate == 270) || (name == "IVA 21%" && rate == 210) || (name == "IVA 10,5%" && rate == 105)
    || (name == "IVA 5%" && rate == 50) || (name == "IVA 2,5%" && rate == 25)
  }

  lemma {:induction false} IvaForRateIsListed(rows: seq<RateRow>, rate: nat, amount: int)
    requires ListsAt(rows, rate, amount)
    ensures IvaForRate(rows, rate) == amount
  {
    if rows != [] && rows[0].rate != rate {
      assert ListsAt(rows[1..], rate, amount) by {
        if j :| 0 <= j < |rows| && rows[j] == RateRow(rate, amount) && forall i | 0 <= i < j :: rows[i].rate != rate {
          assert rows[1..][j - 1] == RateRow(rate, amount);
        }
      }
      IvaForRateIsListed(rows[1..], rate, amount);
    }
  }

  lemma PlainAmounts(leading: seq<string>, net: int, untaxed: int, exempt: int, byRate: seq<int>, iva: int,
                     tribute: int, total: int, last: string)
    requires |leading| == FIRST_AMOUNT_COLUMN && |byRate| == 5
    ensures var line := JoinQuoted(RowOf(leading, [net, untaxed, exempt] + byRate + [iva, tribute, total], last));
            && Shows(line, "Neto gravado", net) && Shows(line, "No gravado", untaxed) && Shows(line, "Exento", exempt)
            && Shows(line, "IVA total", iva) && Shows(line, "Otros tributos", tribute) && Shows(line, "Total", total)
  {
    hide Shows, RowOf, HEADER;
    HeaderNames();
    var amounts := [net, untaxed, exempt] + byRate + [iva, tribute, total];
    AmountUnder(leading, amounts, last, 0);
    AmountUnder(leading, amounts, last, 1);
    AmountUnder(leading, amounts, last, 2);
    AmountUnder(leading, amounts, last, 8);
    AmountUnder(leading, amounts, last, 9);
    AmountUnder(leading, amounts, last, 10);
  }

  /** Reading a rendered line back finds each of the entry's amounts, to the cent, under that amount's name. */
  lemma RenderedAmountsReadBack(entry: BookEntry, rateText: real -> string)
    ensures var line := JoinQuoted(ToRow(entry, rateText));
            && Shows(line, "Neto gravado", entry.net)
            && Shows(line, "No gravado", entry.untaxed)
            && Shows(line, "Exento", entry.exempt)
            && Shows(line, "IVA total", entry.iva)
            && Shows(line, "Otros tributos", entry.tribute)
            && Shows(line, "Total", entry.total)
  {
    var leading, last := LeadingCells(entry, rateText), OrEmpty(entry.cae);
    var amounts := [entry.net, entry.untaxed, entry.exempt] + RateAmounts(entry.ivaByRate)
                 + [entry.iva, entry.tribute, entry.total];
    assert EntryAmounts(entry) == amounts;
    LeadingLength(entry, rateText);
    PlainAmounts(leading, entry.net, entry.untaxed, entry.exempt, RateAmounts(entry.ivaByRate), entry.iva,
                 entry.tribute, entry.total, last);
  }

  lemma RateAmountUnder(leading: seq<string>, amounts: seq<int>, last: string, name: string, rate: nat)
    requires |leading| == FIRST_AMOUNT_COLUMN && |amounts| == 11 && IsRateColumn(name, rate)
    ensures exists i | 0 <= i < 5 ::
              TAXED_RATES[i] == rate && Shows(JoinQuoted(RowOf(leading, amounts, last)), name, amounts[3 + i])
  {
    hide Shows, RowOf, HEADER;
    HeaderNames();
    var i := if rate == 270 then 0 else if rate == 210 then 1 else if rate == 105 then 2
             else if rate == 50 then 3 else 4;
    AmountUnder(leading, amounts, last, 3 + i);
    assert TAXED_RATES[i] == rate;
  }

  /** ... and under each rate's name what it lists at that rate. */
  lemma EntryIvaUnderItsRate(entry: BookEntry, rateText: real -> string, name: string, rate: nat, amount: int)
    requires IsRateColumn(name, rate) && ListsAt(entry.ivaByRate, rate, amount)
    ensures Shows(JoinQuoted(ToRow(entry, rateText)), name, amount)
  {
    hide Shows, RowOf, IsRateColumn, ListsAt, IvaForRate, LeadingCells;
    LeadingLength(entry, rateText);
    IvaForRateIsListed(entry.ivaByRate, rate, amount);
    RateAmountUnder(LeadingCells(entry, rateText), EntryAmounts(entry), OrEmpty(entry.cae), name, rate);
  }

  /** The last line shows each of the book's totals under that total's name. */
  lemma TotalsUnderTheirNames(book: Book)
    ensures var line := JoinQuoted(ToTotalsRow(book));
            && Under(line, "Tipo") == Trim(Digits(book.totals.voucherCount) + " comprobantes")
            && Shows(line, "Neto gravado", book.totals.net)
            && Shows(line, "No gravado", book.totals.untaxed)
            && Shows(line, "Exento", book.totals.exempt)
            && Shows(line, "IVA total", book.totals.iva)
            && Shows(line, "Otros tributos", book.totals.tribute)
            && Shows(line, "Total", book.totals.total)
  {
    var leading := ["Totales", Digits(book.totals.voucherCount) + " comprobantes", "", "", "", "", "", "", ""];
    PlainAmounts(leading, book.totals.net, book.totals.untaxed, book.totals.exempt, RateTotals(book.entries),
                 book.totals.iva, book.totals.tribute, book.totals.total, "");
    HeaderNames();
    TextUnder(ToTotalsRow(book), 1);
  }

  lemma {:induction false} RateTotalIsSum(entries: seq<BookEntry>, rate: nat, amounts: seq<int>)
    requires |amounts| == |entries| && forall i | 0 <= i < |entries| :: ListsAt(entries[i].ivaByRate, rate, amounts[i])
    ensures RateTotal(entries, rate) == Total(amounts)
    decreases |entries|
  {
    if entries != [] {
      var n := |entries| - 1;
      IvaForRateIsListed(entries[n].ivaByRate, rate, amounts[n]);
      hide ListsAt, IvaForRate;
      assert forall i | 0 <= i < n :: ListsAt(entries[..n][i].ivaByRate, rate, amounts[..n][i]) by {
        forall i | 0 <= i < n ensures ListsAt(entries[..n][i].ivaByRate, rate, amounts[..n][i]) {
          assert ListsAt(entries[i].ivaByRate, rate, amounts[i]);
        }
      }
      RateTotalIsSum(entries[..n], rate, amounts[..n]);
    }
  }

  /** ... and under each rate's name the sum of what the entries list at that rate. */
  lemma RateTotalUnderItsName(book: Book, name: string, rate: nat, amounts: seq<int>)
    requires IsRateColumn(name, rate) && |amounts| == |book.entries|
    requires forall i | 0 <= i < |amounts| :: ListsAt(book.entries[i].ivaByRate, rate, amounts[i])
    ensures Shows(JoinQuoted(ToTotalsRow(book)), name, Total(amounts))
  {
    hide Shows, RowOf, IsRateColumn, ListsAt, RateTotal, Digits;
    RateTotalIsSum(book.entries, rate, amounts);
    var leading := ["Totales", Digits(book.totals.voucherCount) + " comprobantes", "", "", "", "", "", "", ""];
    RateAmountUnder(leading, TotalAmounts(book), "", name, rate);
  }

  // The other cells -----------------------------------------------------------------------------------

  lemma {:induction false} PaddedKeepsItsValue(s: string, width: nat)
    requires AllDigits(s)
    ensures AllDigits(PadStart(s, width)) && Value(PadStart(s, width)) == Value(s)
    ensures |PadStart(s, width)| == if |s| < width then width else |s|
    decreases width - |s|
  {
    if |s| < width {
      LeadingZero(s);
      PaddedKeepsItsValue("0" + s, width);
    }
  }

  lemma {:induction false} LeadingZero(s: string)
    requires AllDigits(s)
    ensures Value("0" + s) == Value(s)
  {
    if s != "" {
      LeadingZero(s[..|s| - 1]);
      assert ("0" + s)[..|s|] == "0" + s[..|s| - 1];
    } else {
      assert ("0" + s)[..0] == "";
    }
  }

  lemma NothingToTrim(s: string)
    requires s != "" ==> !IsBlank(s[0]) && !IsBlank(s[|s| - 1])
    ensures Trim(s) == s
  {}

  /** A padded number under its name reads back, and is as wide as asked. */
  lemma PaddedReadsBack(n: nat, width: nat)
    ensures var text := Trim(PadStart(Digits(n), width));
            |text| >= width && AllDigits(text) && Value(text) == n && (|text| > width ==> text == Digits(n))
  {
    var text := PadStart(Digits(n), width);
    PaddedKeepsItsValue(Digits(n), width);
    ValueOfDigits(n);
    assert IsDigit(text[0]) && IsDigit(text[|text| - 1]);
    NothingToTrim(text);
  }

  lemma DateReadsBack(iso: string)
    requires |iso| >= 10 && Dates.IsIsoDate(iso[..10])
    ensures Csv.ParseArcaDate(Trim(FormatDate(iso))) == Csv.Got(iso[..10])
  {
    var s, text := iso[..10], FormatDate(iso);
    assert iso[..4] == s[..4] && iso[5..7] == s[5..7] && iso[8..10] == s[8..];
    assert text[0] == s[8] && text[9] == s[3] && IsDigit(s[8..][0]) && IsDigit(s[..4][3]);
    NothingToTrim(text);
    PurchaseCsv.DateReadsBack(s[..4], s[5..7], s[8..]);
    assert s[..4] + "-" + s[5..7] + "-" + s[8..] == s;
  }

  lemma TextsUnder(row: seq<string>)
    requires |row| == |HEADER|
    ensures var line := JoinQuoted(row);
            && Under(line, "Fecha") == Trim(row[0]) && Under(line, "Tipo") == Trim(row[1])
            && Under(line, "Punto de venta") == Trim(row[2]) && Under(line, "Número") == Trim(row[3])
            && Under(line, "Tipo doc. receptor") == Trim(row[4]) && Under(line, "Nro. doc. receptor") == Trim(row[5])
            && Under(line, "Receptor") == Trim(row[6]) && Under(line, "Moneda") == Trim(row[7])
            && Under(line, "Cotización") == Trim(row[8]) && Under(line, "CAE") == Trim(row[20])
  {
    hide Under, Trim, HEADER, JoinQuoted;
    HeaderNames();
    TextUnder(row, 0);
    TextUnder(row, 1);
    TextUnder(row, 2);
    TextUnder(row, 3);
    TextUnder(row, 4);
    TextUnder(row, 5);
    TextUnder(row, 6);
    TextUnder(row, 7);
    TextUnder(row, 8);
    TextUnder(row, 20);
  }

  lemma RowTexts(entry: BookEntry, rateText: real -> string)
    ensures var row := ToRow(entry, rateText);
            && |row| == |HEADER| == 21 && row[..9] == LeadingCells(entry, rateText) && row[20] == OrEmpty(entry.cae)
  {
    hide LeadingCells, AmountCells, RateAmounts;
    LeadingLength(entry, rateText);
  }

  lemma DocumentUnder(docType: int)
    ensures docType == 80 ==> Trim(DocumentTypeText(docType)) == "CUIT"
    ensures docType == 86 ==> Trim(DocumentTypeText(docType)) == "CUIL"
    ensures docType == 96 ==> Trim(DocumentTypeText(docType)) == "DNI"
    ensures docType == 99 ==> Trim(DocumentTypeText(docType)) == "Consumidor Final"
    ensures docType !in {80, 86, 96, 99} ==> DocumentTypeText(docType) == IntegerText(docType)
  {
    NothingToTrim("CUIT");
    NothingToTrim("CUIL");
    NothingToTrim("DNI");
    NothingToTrim("Consumidor Final");
  }

  /** Under the names that are not of amounts a line shows the entry's own fields: the date reads back, so do
      both numbers, padded to their widths, and the texts are there without blanks around them. */
  lemma EntryTextsUnderTheirNames(entry: BookEntry, rateText: real -> string)
    ensures var line := JoinQuoted(ToRow(entry, rateText));
            var salesPoint, number := Under(line, "Punto de venta"), Under(line, "Número");
            && (|entry.date| >= 10 && Dates.IsIsoDate(entry.date[..10]) ==>
                  Csv.ParseArcaDate(Under(line, "Fecha")) == Csv.Got(entry.date[..10]))
            && (VoucherTypes.VoucherTypeName(entry.voucherType) != "" ==>
                  Under(line, "Tipo") == Trim(VoucherTypes.VoucherTypeName(entry.voucherType)))
            && |salesPoint| >= 4 && AllDigits(salesPoint) && Value(salesPoint) == entry.salesPoint
            && |number| >= 8 && AllDigits(number) && Value(number) == entry.number
            && (match entry.recipient.docType
                case None => Under(line, "Tipo doc. receptor") == ""
                case Some(docType) =>
                  && (docType == 80 ==> Under(line, "Tipo doc. receptor") == "CUIT")
                  && (docType == 86 ==> Under(line, "Tipo doc. receptor") == "CUIL")
                  && (docType == 96 ==> Under(line, "Tipo doc. receptor") == "DNI")
                  && (docType == 99 ==> Under(line, "Tipo doc. receptor") == "Consumidor Final")
                  && (docType !in {80, 86, 96, 99} ==> Under(line, "Tipo doc. receptor") == Trim(IntegerText(docType))))
            && Under(line, "Nro. doc. receptor") == Trim(OrEmpty(entry.recipient.docNumber))
            && Under(line, "Receptor") == Trim(OrEmpty(entry.recipient.name))
            && Under(line, "Moneda") == Trim(entry.currency)
            && Under(line, "Cotización") == Trim(rateText(entry.exchangeRate))
            && Under(line, "CAE") == Trim(OrEmpty(entry.cae))
  {
    hide Under, Trim, HEADER, ToRow, Digits, PadStart, FormatDate, OrEmpty, AllDigits, Value, DocumentTypeText,
         IntegerText, Dates.IsIsoDate, Csv.ParseArcaDate, VoucherTypes.VoucherTypeName;
    var row := ToRow(entry, rateText);
    RowTexts(entry, rateText);
    assert forall k: nat | k < 9 :: row[k] == row[..9][k];
    TextsUnder(row);
    if |entry.date| >= 10 && Dates.IsIsoDate(entry.date[..10]) { DateReadsBack(entry.date); }
    PaddedReadsBack(entry.salesPoint, 4);
    PaddedReadsBack(entry.number, 8);
    if entry.recipient.docType.Some? { DocumentUnder(entry.recipient.docType.value); } else { NothingToTrim(""); }
  }

  // The whole file ------------------------------------------------------------------------------------

  /** A rendered book without line breaks inside its cells is read back, its byte order mark removed, as the header,
      one line for each entry and the totals, each line with its own amounts under their names. */
  lemma FileShowsTheBook(book: Book, rateText: real -> string, i: nat)
    requires i < |book.entries|
    requires forall k | 0 <= k < |BookRows(book, rateText)| :: HoldsNoLineBreak(BookRows(book, rateText)[k])
    ensures var text := Csv.RemoveFirst(RenderSalesBookCsv(book, rateText), Csv.BOM);
            var lines, n := Csv.SplitLines(text, ""), |book.entries|;
            && |lines| == n + 3 && Csv.SplitFields(lines[0], COLUMN_SEPARATOR) == Trimmed(HEADER)
            && Shows(lines[i + 1], "Neto gravado", book.entries[i].net)
            && Shows(lines[i + 1], "IVA total", book.entries[i].iva)
            && Shows(lines[i + 1], "Total", book.entries[i].total)
            && Shows(lines[n + 1], "Neto gravado", book.totals.net)
            && Shows(lines[n + 1], "IVA total", book.totals.iva)
            && Shows(lines[n + 1], "Total", book.totals.total)
  {
    hide Shows, ToRow, ToTotalsRow, HEADER, HoldsNoLineBreak, JoinQuoted, RenderSalesBookCsv;
    hide Csv.SplitLines, Csv.SplitFields, Csv.RemoveFirst;
    TextHasTheBooksLinesIff(book, rateText);
    RenderedAmountsReadBack(book.entries[i], rateText);
    TotalsUnderTheirNames(book);
    HeaderNames();
    SplitUndoesPrinting(HEADER);
    var rows := BookRows(book, rateText);
    assert rows[0] == HEADER && rows[i + 1] == ToRow(book.entries[i], rateText);
    assert rows[|book.entries| + 1] == ToTotalsRow(book);
  }
}
