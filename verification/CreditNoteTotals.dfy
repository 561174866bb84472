/**
 * The tribute and total columns of a voucher and of its credit note: when the note cancels them, and how
 * far a total can be from the columns printed beside it.
 */
module CreditNoteTotals {
  import opened Common
  import opened CreditNote
  import opened Dates
  import opened Money
  import opened SalesBook
  import opened VoucherSchema
  import opened VoucherTypes
  import IvaCalculator
  import TaxBreakdown

  /** The book reads the stored voucher's columns. */
  predicate Books(b: BookVoucher, v: StoredVoucher) {
    b.taxed == TaxedOf(v) && b.tribute == v.tribute && b.total == v.total
  }

  /** How a voucher was issued: ARCA's answer, and what else is known of its recipient. */
  datatype Emitted = Emitted(outcome: Outcome, client: Option<Client>, qr: Option<QrRecipient>)

  function IssuedAs(input: IssueVoucher, issued: Emitted, issuerCuit: string): StoredVoucher
    requires FieldsOk(input)
  {
    BuildIssuedVoucher(input, issued.outcome, issuerCuit, issued.client, issued.qr)
  }

  /** A voucher, and the note emitted from its draft once the draft is accepted, as the book reads them. */
  ghost predicate Cancelled(
      input: IssueVoucher, issued: Emitted, issuerCuit: string, today: CalendarDate, noteIssued: Emitted,
      inBook: BookVoucher, noteInBook: BookVoucher)
  {
    && Accepts(input) && CreditNoteTypeFor(input.voucherType).Some?
    && var original := IssuedAs(input, issued, issuerCuit);
       var result := BuildCreditNoteDraft(original, today);
       && Books(inBook, original)
       && result.Drafted? && Accepts(result.draft)
       && Books(noteInBook, IssuedAs(result.draft, noteIssued, issuerCuit))
  }

  /** Cents of all lines together, and of all tributes. */
  function LinesTotal(input: IssueVoucher): int {
    Round(IvaCalculator.GrossIn(ItemsOf(input.items), IvaCalculator.Everything))
  }

  function TributeOf(input: IssueVoucher): int
    requires FieldsOk(input)
  {
    AmountsOfVoucher(input).tribute
  }

  /** What the columns come to: the voucher's lines and tributes, and the note's lines alone. */
  predicate Amounts(lines: int, tribute: int, rate: real, inBook: BookVoucher, noteInBook: BookVoucher) {
    && inBook.tribute == tribute && inBook.total == lines + tribute
    && noteInBook.tribute == 0 && noteInBook.total == lines
    && inBook.taxed.exchangeRate == noteInBook.taxed.exchangeRate == Some(rate)
    && TaxBreakdown.VoucherSign(inBook.taxed.voucherType) == 1
    && TaxBreakdown.VoucherSign(noteInBook.taxed.voucherType) == -1
  }

  lemma AmountsAre(input: IssueVoucher)
    requires FieldsOk(input)
    ensures AmountsOfVoucher(input).total == LinesTotal(input) + TributeOf(input)
    ensures input.tributes.None? ==> TributeOf(input) == 0
  {
    AcceptedAmountsExist(input);
    IvaCalculator.TotalOf(input.voucherType, ItemsOf(input.items), TributesOf(input));
    if input.tributes.None? { NoTributes(input.voucherType, ItemsOf(input.items)); }
    hide IvaCalculator.AmountsOf, IvaCalculator.GrossIn, FieldsOk, Round;
  }

  lemma NoTributes(voucherType: int, items: seq<IvaCalculator.Item>)
    ensures var a := IvaCalculator.AmountsOf(voucherType, items, []);
            a.Some? ==> a.value.tribute == 0
  {}

  lemma ColumnsAre(
      input: IssueVoucher, issued: Emitted, issuerCuit: string, today: CalendarDate, noteIssued: Emitted,
      inBook: BookVoucher, noteInBook: BookVoucher)
    requires Cancelled(input, issued, issuerCuit, today, noteIssued, inBook, noteInBook)
    ensures FieldsOk(input) && input.exchangeRate > 0.0 && TributeOf(input) >= 0
    ensures Amounts(LinesTotal(input), TributeOf(input), input.exchangeRate, inBook, noteInBook)
  {
    DraftFields(input, issued.outcome, issuerCuit, issued.client, issued.qr, today);
    KeptLines(input.items);
    CreditNoteMatchesItsVoucher(input.voucherType);
    var draft := BuildCreditNoteDraft(IssuedAs(input, issued, issuerCuit), today).draft;
    AmountsAre(input);
    AmountsAre(draft);
    TributeNotNegative(input);
    hide BuildCreditNoteDraft, FieldsOk, AmountsOfVoucher, TributeOf, IsCreditNote, CreditNoteTypeFor, Issues, ItemsData;
    hide ToLocalIsoDate, ToArcaDate, ParseIsoDate, StoredItems, LinesOf, ItemsOf, Round, EmittedStatus;
  }

  // Tributes ----------------------------------------------------------------------------------------

  lemma {:induction false} SumNotNegative(xs: seq<int>)
    requires forall i | 0 <= i < |xs| :: xs[i] >= 0
    ensures Total(xs) >= 0
  {
    if xs != [] { SumNotNegative(xs[..|xs| - 1]); }
  }

  lemma TributeNotNegative(input: IssueVoucher)
    requires FieldsOk(input)
    ensures TributeOf(input) >= 0
  {
    assert forall i | 0 <= i < |TributesOf(input)| ::
        TributesOf(input)[i].taxableBase >= 0.0 && TributesOf(input)[i].rate >= 0.0;
    AcceptedAmountsExist(input);
    hide FieldsOk, IvaCalculator.AmountsOf, IvaCalculator.TributeTotal, IvaCalculator.TributeEntries;
    AmountsTribute(input.voucherType, ItemsOf(input.items), TributesOf(input));
    EntriesNotNegative(TributesOf(input));
  }

  lemma EntriesNotNegative(tributes: seq<IvaCalculator.Tribute>)
    requires forall i | 0 <= i < |tributes| :: tributes[i].taxableBase >= 0.0 && tributes[i].rate >= 0.0
    ensures IvaCalculator.TributeTotal(IvaCalculator.TributeEntries(tributes)) >= 0
  {
    var entries := IvaCalculator.TributeEntries(tributes);
    hide IvaCalculator.TributeEntryOf;
    forall i | 0 <= i < |entries| ensures entries[i].amount >= 0 { EntryNotNegative(tributes[i]); }
    SumNotNegative(seq(|entries|, i requires 0 <= i < |entries| => entries[i].amount));
  }

  lemma EntryNotNegative(t: IvaCalculator.Tribute)
    requires t.taxableBase >= 0.0 && t.rate >= 0.0
    ensures IvaCalculator.TributeEntryOf(t).amount >= 0
  {
    assert t.taxableBase * t.rate >= 0.0;
  }

  lemma AmountsTribute(voucherType: int, items: seq<IvaCalculator.Item>, tributes: seq<IvaCalculator.Tribute>)
    ensures var a := IvaCalculator.AmountsOf(voucherType, items, tributes);
            a.Some? ==> a.value.tribute == IvaCalculator.TributeTotal(IvaCalculator.TributeEntries(tributes))
  {}

  /** Cents of a currency in cents of pesos, not yet rounded. */
  function Pesos(cents: int, rate: real): real {
    cents as real * rate
  }

  /** The note cancels the voucher's tribute column exactly when the tributes come to less than half a cent of
      pesos, for the note itself never has any. */
  lemma TributeIsCancelledIff(
      input: IssueVoucher, issued: Emitted, issuerCuit: string, today: CalendarDate, noteIssued: Emitted,
      inBook: BookVoucher, noteInBook: BookVoucher)
    requires Cancelled(input, issued, issuerCuit, today, noteIssued, inBook, noteInBook)
    ensures ToEntry(noteInBook).tribute == 0
    ensures ToEntry(noteInBook).tribute == -ToEntry(inBook).tribute <==> Pesos(TributeOf(input), input.exchangeRate) < 0.5
  {
    hide Cancelled, Amounts, ToEntry, FieldsOk, TributeOf, LinesTotal, Pesos;
    ColumnsAre(input, issued, issuerCuit, today, noteIssued, inBook, noteInBook);
    TributeColumnIff(LinesTotal(input), TributeOf(input), input.exchangeRate, inBook, noteInBook);
  }

  lemma TributeColumnIff(lines: int, tribute: int, rate: real, inBook: BookVoucher, noteInBook: BookVoucher)
    requires Amounts(lines, tribute, rate, inBook, noteInBook) && tribute >= 0 && rate > 0.0
    ensures ToEntry(noteInBook).tribute == 0
    ensures ToEntry(noteInBook).tribute == -ToEntry(inBook).tribute <==> Pesos(tribute, rate) < 0.5
  {
    hide ToEntry, Round;
    TotalsAre(inBook, noteInBook);
    NotNegative(tribute, rate);
    ZeroIff(Pesos(tribute, rate));
    RoundWhole(0);
  }

  lemma ZeroIff(x: real)
    requires x >= 0.0
    ensures Round(x) == 0 <==> x < 0.5
  {}

  lemma NotNegative(n: int, rate: real)
    requires n >= 0 && rate > 0.0
    ensures Pesos(n, rate) >= 0.0
  {}

  // Totals ------------------------------------------------------------------------------------------

  predicate HalfCentIn(m: int, x: real, y: real) {
    x <= m as real + 0.5 <= y
  }

  /** From x to y, both included, there is no half of a cent. */
  ghost predicate NoHalfCent(x: real, y: real) {
    forall m: int :: !HalfCentIn(m, x, y)
  }

  /** Halves go up on either side of zero, so signs commute with rounding only away from them. */
  lemma NegatesIff(x: real, y: real)
    requires x <= y
    ensures Round(-x) == -Round(y) <==> NoHalfCent(x, y)
  {
    var n := Round(y);
    if Round(-x) == -n {
      forall m: int ensures !HalfCentIn(m, x, y) {
        if m <= n - 1 { assert x > n as real - 0.5; }
      }
    } else {
      assert HalfCentIn(n - 1, x, y);
    }
  }

  /** The note cancels the voucher's total exactly when no half cent of pesos lies between the lines' pesos and
      those of lines and tributes. */
  lemma TotalIsCancelledIff(
      input: IssueVoucher, issued: Emitted, issuerCuit: string, today: CalendarDate, noteIssued: Emitted,
      inBook: BookVoucher, noteInBook: BookVoucher)
    requires Cancelled(input, issued, issuerCuit, today, noteIssued, inBook, noteInBook)
    ensures ToEntry(noteInBook).total == -ToEntry(inBook).total <==>
            NoHalfCent(Pesos(LinesTotal(input), input.exchangeRate),
                       Pesos(LinesTotal(input) + TributeOf(input), input.exchangeRate))
  {
    hide Cancelled, Amounts, ToEntry, FieldsOk, TributeOf, LinesTotal, Pesos, NoHalfCent;
    ColumnsAre(input, issued, issuerCuit, today, noteIssued, inBook, noteInBook);
    TotalColumnIff(LinesTotal(input), TributeOf(input), input.exchangeRate, inBook, noteInBook);
  }

  lemma TotalColumnIff(lines: int, tribute: int, rate: real, inBook: BookVoucher, noteInBook: BookVoucher)
    requires Amounts(lines, tribute, rate, inBook, noteInBook) && tribute >= 0 && rate > 0.0
    ensures ToEntry(noteInBook).total == -ToEntry(inBook).total <==>
            NoHalfCent(Pesos(lines, rate), Pesos(lines + tribute, rate))
  {
    hide ToEntry, Round, NoHalfCent;
    TotalsAre(inBook, noteInBook);
    NotNegative(tribute, rate);
    PesosAddUp(lines, tribute, rate);
    hide Pesos;
    NegatesIff(Pesos(lines, rate), Pesos(lines + tribute, rate));
  }

  lemma PesosAddUp(m: int, n: int, rate: real)
    ensures Pesos(m + n, rate) == Pesos(m, rate) + Pesos(n, rate)
  {}

  lemma TotalsAre(inBook: BookVoucher, noteInBook: BookVoucher)
    requires TaxBreakdown.VoucherSign(inBook.taxed.voucherType) == 1
    requires TaxBreakdown.VoucherSign(noteInBook.taxed.voucherType) == -1
    requires inBook.taxed.exchangeRate.Some? && noteInBook.taxed.exchangeRate.Some?
    ensures ToEntry(inBook).total == Round(Pesos(inBook.total, inBook.taxed.exchangeRate.value))
    ensures ToEntry(noteInBook).total == Round(-Pesos(noteInBook.total, noteInBook.taxed.exchangeRate.value))
    ensures ToEntry(inBook).tribute == Round(Pesos(inBook.tribute, inBook.taxed.exchangeRate.value))
    ensures ToEntry(noteInBook).tribute == Round(-Pesos(noteInBook.tribute, noteInBook.taxed.exchangeRate.value))
  {
    hide TaxBreakdown.BreakdownOf, RateRows, Round, TaxBreakdown.VoucherSign;
  }

  /** In pesos what stays in both columns is the tribute, to the cent: they are cancelled exactly when it is zero. */
  lemma InPesosTheTributeStays(
      input: IssueVoucher, issued: Emitted, issuerCuit: string, today: CalendarDate, noteIssued: Emitted,
      inBook: BookVoucher, noteInBook: BookVoucher)
    requires Cancelled(input, issued, issuerCuit, today, noteIssued, inBook, noteInBook)
    requires input.exchangeRate == 1.0
    ensures ToEntry(inBook).tribute + ToEntry(noteInBook).tribute == TributeOf(input)
    ensures ToEntry(inBook).total + ToEntry(noteInBook).total == TributeOf(input)
  {
    hide Cancelled, Amounts, ToEntry, FieldsOk, TributeOf, LinesTotal, Pesos;
    ColumnsAre(input, issued, issuerCuit, today, noteIssued, inBook, noteInBook);
    TributeStays(LinesTotal(input), TributeOf(input), inBook, noteInBook);
  }

  lemma TributeStays(lines: int, tribute: int, inBook: BookVoucher, noteInBook: BookVoucher)
    requires Amounts(lines, tribute, 1.0, inBook, noteInBook)
    ensures ToEntry(inBook).tribute + ToEntry(noteInBook).tribute == tribute
    ensures ToEntry(inBook).total + ToEntry(noteInBook).total == tribute
  {
    hide ToEntry, Round;
    TotalsAre(inBook, noteInBook);
    RoundWhole(lines + tribute);
    RoundWhole(-lines);
    RoundWhole(tribute);
    RoundWhole(0);
  }

  // Two vouchers that stay uncancelled --------------------------------------------------------------

  /** A sale in pesos with a 3% tribute on its 100 pesos of net. */
  const WITH_TRIBUTE := IssueVoucher(
    "issuer", 1, FACTURA_B, PRODUCTS, VoucherSchema.Recipient(99, "0", None, None),
    [Line("product", IvaCalculator.Item(1.0, 121.0, 210, IvaCalculator.TAXED))], "PES", 1.0, None, None, None, None,
    Some([IvaCalculator.Tribute(99, 100.0, 3.0)]))

  lemma ThreePesosOfTribute()
    ensures Accepts(WITH_TRIBUTE) && TributeOf(WITH_TRIBUTE) == 300
  {
    var t := IvaCalculator.Tribute(99, 100.0, 3.0);
    var entries := IvaCalculator.TributeEntries([t]);
    RoundIs(300.0, 300);
    assert entries == [IvaCalculator.TributeEntryOf(t)] && entries[0].amount == 300;
    var amounts := seq(|entries|, i requires 0 <= i < |entries| => entries[i].amount);
    assert amounts == [300] && amounts[..0] == [];
    assert Total(amounts) == 300;
    RoundWhole(300);
    AmountsTribute(WITH_TRIBUTE.voucherType, ItemsOf(WITH_TRIBUTE.items), TributesOf(WITH_TRIBUTE));
    hide IvaCalculator.AmountsOf;
  }

  lemma DraftWithoutPeriod(input: IssueVoucher, issued: Emitted, issuerCuit: string, today: CalendarDate)
    requires Accepts(input) && CreditNoteTypeFor(input.voucherType).Some? && Ordinary(issued.outcome, issuerCuit, today)
    requires input.servicePeriod.None?
    ensures var result := BuildCreditNoteDraft(IssuedAs(input, issued, issuerCuit), today);
            result.Drafted? && Accepts(result.draft)
  {
    hide FieldsOk, Issues, BuildIssuedVoucher, BuildCreditNoteDraft, Ordinary;
    DraftIsAcceptedIffThePeriodSurvives(input, issued.outcome, issuerCuit, issued.client, issued.qr, today);
  }

  /** Its credit note leaves three pesos in the tribute column and in the total. */
  lemma ATributeIsNotCancelled(
      issued: Emitted, issuerCuit: string, today: CalendarDate, noteIssued: Emitted,
      inBook: BookVoucher, noteInBook: BookVoucher)
    requires Ordinary(issued.outcome, issuerCuit, today)
    requires Books(inBook, IssuedAs(WITH_TRIBUTE, issued, issuerCuit))
    ensures var result := BuildCreditNoteDraft(IssuedAs(WITH_TRIBUTE, issued, issuerCuit), today);
            && Accepts(WITH_TRIBUTE) && result.Drafted? && Accepts(result.draft)
            && (Books(noteInBook, IssuedAs(result.draft, noteIssued, issuerCuit)) ==>
                  && ToEntry(inBook).tribute + ToEntry(noteInBook).tribute == 300
                  && ToEntry(inBook).total + ToEntry(noteInBook).total == 300)
  {
    ThreePesosOfTribute();
    hide FieldsOk, Issues, IssuedAs, BuildCreditNoteDraft, Ordinary, Books, ToEntry, TributeOf;
    DraftWithoutPeriod(WITH_TRIBUTE, issued, issuerCuit, today);
    var draft := BuildCreditNoteDraft(IssuedAs(WITH_TRIBUTE, issued, issuerCuit), today).draft;
    if Books(noteInBook, IssuedAs(draft, noteIssued, issuerCuit)) {
      InPesosTheTributeStays(WITH_TRIBUTE, issued, issuerCuit, today, noteIssued, inBook, noteInBook);
    }
  }

  /** One cent of a foreign currency worth half a peso, with no tribute. */
  const ONE_CENT := IssueVoucher(
    "issuer", 1, FACTURA_B, PRODUCTS, VoucherSchema.Recipient(99, "0", None, None),
    [Line("product", IvaCalculator.Item(1.0, 0.01, 210, IvaCalculator.TAXED))], "DOL", 0.5, None, None, None, None, None)

  lemma OneCentInAll()
    ensures Accepts(ONE_CENT) && LinesTotal(ONE_CENT) == 1 && TributeOf(ONE_CENT) == 0
  {
    var items := ItemsOf(ONE_CENT.items);
    assert items == [ONE_CENT.items[0].item] && items[..0] == [];
    assert IvaCalculator.Gross(items[0]) == 1.0;
    assert IvaCalculator.GrossIn(items, IvaCalculator.Everything) == 1.0;
    RoundIs(1.0, 1);
    AmountsAre(ONE_CENT);
    hide AmountsOfVoucher, TributeOf;
  }

  /** The voucher posts a cent, the note nothing: the total stays by rounding alone. */
  lemma AHalfCentIsNotCancelled(
      issued: Emitted, issuerCuit: string, today: CalendarDate, noteIssued: Emitted,
      inBook: BookVoucher, noteInBook: BookVoucher)
    requires Ordinary(issued.outcome, issuerCuit, today)
    requires Books(inBook, IssuedAs(ONE_CENT, issued, issuerCuit))
    ensures var result := BuildCreditNoteDraft(IssuedAs(ONE_CENT, issued, issuerCuit), today);
            && Accepts(ONE_CENT) && result.Drafted? && Accepts(result.draft)
            && (Books(noteInBook, IssuedAs(result.draft, noteIssued, issuerCuit)) ==>
                  ToEntry(inBook).total == 1 && ToEntry(noteInBook).total == 0)
  {
    OneCentInAll();
    hide FieldsOk, Issues, IssuedAs, BuildCreditNoteDraft, Ordinary, Books, ToEntry, TributeOf, LinesTotal;
    DraftWithoutPeriod(ONE_CENT, issued, issuerCuit, today);
    var draft := BuildCreditNoteDraft(IssuedAs(ONE_CENT, issued, issuerCuit), today).draft;
    if Books(noteInBook, IssuedAs(draft, noteIssued, issuerCuit)) {
      ColumnsAre(ONE_CENT, issued, issuerCuit, today, noteIssued, inBook, noteInBook);
      TotalsAre(inBook, noteInBook);
      RoundIs(0.5, 1);
      RoundIs(-0.5, 0);
    }
  }

  // A total and the columns beside it ---------------------------------------------------------------

  function PrintedColumns(e: BookEntry): int {
    e.net + e.exempt + e.untaxed + e.iva + e.tribute
  }

  function RateCount(b: BookVoucher): nat {
    |TaxBreakdown.BreakdownOf(b.taxed).ivaByRate.order|
  }

  /** The pesos by which the voucher's lines, as stored, miss its total without tributes. */
  function Missing(b: BookVoucher): real {
    TaxBreakdown.ToPesos(b.taxed.exchangeRate, (b.total - b.tribute) as real) - TaxBreakdown.PesosOf(b.taxed, b.taxed.items)
  }

  /** An entry's total is the sum of the columns printed beside it, but for what its lines miss, half a cent per
      rounded column and half a cent each for tribute and total. */
  lemma EntryAddsUp(b: BookVoucher)
    ensures var bound, sign := 0.5 * (5 + RateCount(b)) as real, TaxBreakdown.VoucherSign(b.taxed.voucherType) as real;
            -bound <= (ToEntry(b).total - PrintedColumns(ToEntry(b))) as real - sign * Missing(b) <= bound
  {
    var taxes := TaxBreakdown.BreakdownOf(b.taxed);
    var sign := TaxBreakdown.VoucherSign(b.taxed.voucherType);
    TaxBreakdown.BreakdownAddsUp(b.taxed);
    EntryIva(b);
    SignedIs(sign, taxes.net);
    SignedIs(sign, taxes.exempt);
    SignedIs(sign, taxes.untaxed);
    var reported := taxes.net + taxes.exempt + taxes.untaxed + TaxBreakdown.IvaTotal(taxes.ivaByRate);
    SignedSum(sign, taxes.net, taxes.exempt, taxes.untaxed, TaxBreakdown.IvaTotal(taxes.ivaByRate));
    PesosDiffer(b);
    hide TaxBreakdown.BreakdownOf, TaxBreakdown.IvaTotal, TaxBreakdown.PesosOf, TaxBreakdown.ToPesos, RateRows, Signed;
    assert ToEntry(b).net + ToEntry(b).exempt + ToEntry(b).untaxed + ToEntry(b).iva == sign * reported;
    RoundedApart(sign, b, reported);
  }

  lemma SignedSum(sign: int, net: int, exempt: int, untaxed: int, iva: int)
    ensures sign * net + sign * exempt + sign * untaxed + sign * iva == sign * (net + exempt + untaxed + iva)
  {}

  lemma PesosDiffer(b: BookVoucher)
    ensures TaxBreakdown.ToPesos(b.taxed.exchangeRate, b.total as real)
         == TaxBreakdown.ToPesos(b.taxed.exchangeRate, b.tribute as real)
            + TaxBreakdown.ToPesos(b.taxed.exchangeRate, (b.total - b.tribute) as real)
  {}

  /** Rounding the total and the tribute apart costs half a cent each. */
  lemma RoundedApart(sign: int, b: BookVoucher, reported: int)
    requires sign == TaxBreakdown.VoucherSign(b.taxed.voucherType)
    requires TaxBreakdown.ToPesos(b.taxed.exchangeRate, b.total as real)
          == TaxBreakdown.ToPesos(b.taxed.exchangeRate, b.tribute as real)
             + TaxBreakdown.ToPesos(b.taxed.exchangeRate, (b.total - b.tribute) as real)
    requires var width := 0.5 * (3 + RateCount(b)) as real;
             -width <= reported as real - TaxBreakdown.PesosOf(b.taxed, b.taxed.items) <= width
    ensures var bound := 0.5 * (5 + RateCount(b)) as real;
            -bound <= (SignedPesos(b, b.total) - SignedPesos(b, b.tribute) - sign * reported) as real
                      - sign as real * Missing(b) <= bound
  {
    hide RateCount, TaxBreakdown.PesosOf, TaxBreakdown.ToPesos, Round;
    var pesos := TaxBreakdown.PesosOf(b.taxed, b.taxed.items);
    var total := TaxBreakdown.ToPesos(b.taxed.exchangeRate, b.total as real);
    var tribute := TaxBreakdown.ToPesos(b.taxed.exchangeRate, b.tribute as real);
    ApartBySign(sign, total, tribute, pesos, reported, 0.5 * (3 + RateCount(b)) as real);
  }

  lemma ApartBySign(sign: int, total: real, tribute: real, pesos: real, reported: int, width: real)
    requires (sign == 1 || sign == -1) && -width <= reported as real - pesos <= width
    ensures var apart := Round(sign as real * total) - Round(sign as real * tribute) - sign * reported;
            -width - 1.0 <= apart as real - sign as real * (total - tribute - pesos) <= width + 1.0
  {
    var a, b := Round(sign as real * total), Round(sign as real * tribute);
    hide Round;
    if sign == 1 { assert sign * reported == reported; } else { assert sign * reported == -reported; }
  }

  // ... of an accepted voucher ----------------------------------------------------------------------

  function SubtotalsOf(items: seq<StoredLine>): int {
    if items == [] then 0 else SubtotalsOf(items[..|items| - 1]) + items[|items| - 1].subtotal
  }

  /** Rounding line by line moves the lines' total by at most half a cent each, and not at all whole cents. */
  lemma {:induction false} LinesDrift(lines: seq<Line>)
    ensures var drift := SubtotalsOf(ItemsData(lines)) as real
                         - IvaCalculator.GrossIn(ItemsOf(lines), IvaCalculator.Everything);
            && -0.5 * |lines| as real <= drift <= 0.5 * |lines| as real
            && ((forall i | 0 <= i < |lines| :: IvaCalculator.Whole(lines[i].item)) ==> drift == 0.0)
  {
    if lines != [] {
      var n := |lines| - 1;
      LinesDrift(lines[..n]);
      assert ItemsData(lines)[..n] == ItemsData(lines[..n]) && ItemsOf(lines)[..n] == ItemsOf(lines[..n]);
      LineDrift(lines[n]);
      hide IvaCalculator.Gross, Round, ItemData, IvaCalculator.Whole;
    }
  }

  lemma LineDrift(line: Line)
    ensures var drift := ItemData(line).subtotal as real - IvaCalculator.Gross(line.item);
            -0.5 <= drift <= 0.5 && (IvaCalculator.Whole(line.item) ==> drift == 0.0)
  {
    if IvaCalculator.Whole(line.item) { RoundWhole(IvaCalculator.Gross(line.item).Floor); }
  }

  lemma {:induction false} StoredPesos(v: TaxBreakdown.TaxedVoucher, items: seq<StoredLine>)
    ensures TaxBreakdown.PesosOf(v, StoredItems(items))
         == TaxBreakdown.ToPesos(v.exchangeRate, SubtotalsOf(items) as real)
  {
    if items != [] {
      var n := |items| - 1;
      StoredPesos(v, items[..n]);
      assert StoredItems(items)[..n] == StoredItems(items[..n]);
    }
  }

  /** The entry of an accepted voucher: its total and its columns differ by at most half a cent per rounded column
      and for tribute and total, and, unless every line is a whole number of cents, by half a cent of the
      voucher's currency per line and one half more. */
  lemma AcceptedEntryAddsUp(input: IssueVoucher, issued: Emitted, issuerCuit: string, b: BookVoucher)
    requires Accepts(input) && Books(b, IssuedAs(input, issued, issuerCuit))
    ensures var bound := 0.5 * (5 + RateCount(b)) as real;
            var apart := (ToEntry(b).total - PrintedColumns(ToEntry(b))) as real;
            var lines := 0.5 * (|input.items| + 1) as real * input.exchangeRate;
            && -bound - lines <= apart <= bound + lines
            && ((forall i | 0 <= i < |input.items| :: IvaCalculator.Whole(input.items[i].item)) ==>
                  -bound <= apart <= bound)
  {
    hide FieldsOk, Issues, IssuedAs, Books, RateCount, Missing, PrintedColumns, ToEntry, IvaCalculator.Whole;
    EntryAddsUp(b);
    MissingOf(input, issued, issuerCuit, b);
    var apart := (ToEntry(b).total - PrintedColumns(ToEntry(b))) as real;
    Widened(apart, TaxBreakdown.VoucherSign(b.taxed.voucherType), Missing(b), 0.5 * (5 + RateCount(b)) as real,
            0.5 * (|input.items| + 1) as real * input.exchangeRate);
  }

  lemma Widened(apart: real, sign: int, missing: real, bound: real, lines: real)
    requires (sign == 1 || sign == -1) && -bound <= apart - sign as real * missing <= bound
    requires -lines <= missing <= lines
    ensures -bound - lines <= apart <= bound + lines
    ensures missing == 0.0 ==> -bound <= apart <= bound
  {}

  lemma MissingOf(input: IssueVoucher, issued: Emitted, issuerCuit: string, b: BookVoucher)
    requires Accepts(input) && Books(b, IssuedAs(input, issued, issuerCuit))
    ensures var lines := 0.5 * (|input.items| + 1) as real * input.exchangeRate;
            -lines <= Missing(b) <= lines
    ensures (forall i | 0 <= i < |input.items| :: IvaCalculator.Whole(input.items[i].item)) ==> Missing(b) == 0.0
  {
    hide FieldsOk, Issues, IssuedAs, Books, IvaCalculator.Whole, TributeOf, LinesTotal, Missing, ItemsData, StoredItems;
    AmountsAre(input);
    RateIsPositive(input);
    BookedItems(input, issued, issuerCuit, b);
    StoredPesos(b.taxed, ItemsData(input.items));
    MissingIs(input, b);
    TotalDrift(input);
    Scaled((LinesTotal(input) - SubtotalsOf(ItemsData(input.items))) as real, 0.5 * (|input.items| + 1) as real,
           input.exchangeRate);
  }

  lemma RateIsPositive(input: IssueVoucher)
    requires FieldsOk(input)
    ensures input.exchangeRate > 0.0
  {}

  lemma MissingIs(input: IssueVoucher, b: BookVoucher)
    requires b.taxed.exchangeRate == Some(input.exchangeRate) && b.total - b.tribute == LinesTotal(input)
    requires TaxBreakdown.PesosOf(b.taxed, b.taxed.items)
          == TaxBreakdown.ToPesos(b.taxed.exchangeRate, SubtotalsOf(ItemsData(input.items)) as real)
    ensures Missing(b) == (LinesTotal(input) - SubtotalsOf(ItemsData(input.items))) as real * input.exchangeRate
  {
    hide LinesTotal, TaxBreakdown.PesosOf;
  }

  lemma TotalDrift(input: IssueVoucher)
    ensures var drift := (LinesTotal(input) - SubtotalsOf(ItemsData(input.items))) as real;
            && -0.5 * (|input.items| + 1) as real <= drift <= 0.5 * (|input.items| + 1) as real
            && ((forall i | 0 <= i < |input.items| :: IvaCalculator.Whole(input.items[i].item)) ==> drift == 0.0)
  {
    hide IvaCalculator.Whole, IvaCalculator.GrossIn, ItemsOf, ItemsData;
    LinesDrift(input.items);
    WholeLines(input.items);
  }

  lemma Scaled(x: real, bound: real, rate: real)
    requires -bound <= x <= bound && rate > 0.0
    ensures -(bound * rate) <= x * rate <= bound * rate
    ensures x == 0.0 ==> x * rate == 0.0
  {}

  lemma BookedItems(input: IssueVoucher, issued: Emitted, issuerCuit: string, b: BookVoucher)
    requires Accepts(input) && Books(b, IssuedAs(input, issued, issuerCuit))
    ensures b.taxed.items == StoredItems(ItemsData(input.items)) && b.taxed.exchangeRate == Some(input.exchangeRate)
    ensures b.tribute == TributeOf(input) && b.total == AmountsOfVoucher(input).total
  {
    hide FieldsOk, Issues, AmountsOfVoucher, ItemsData, StoredItems;
  }

  /** Lines of whole cents add up to whole cents. */
  lemma WholeLines(lines: seq<Line>)
    ensures var gross := IvaCalculator.GrossIn(ItemsOf(lines), IvaCalculator.Everything);
            (forall i | 0 <= i < |lines| :: IvaCalculator.Whole(lines[i].item)) ==> Round(gross) as real == gross
  {
    if forall i | 0 <= i < |lines| :: IvaCalculator.Whole(lines[i].item) {
      IvaCalculator.WholeGroups(ItemsOf(lines), IvaCalculator.Everything);
    }
  }
}
