/** Cancelling an authorized voucher: the draft of its credit note, and what the note posts in the books. */
module CreditNote {
  import opened Common
  import opened Dates
  import opened Text
  import opened VoucherTypes
  import opened VoucherSchema
  import IvaCalculator
  import Money
  import SalesBook
  import TaxBreakdown

  datatype VoucherStatus = PENDING | APPROVED | RECOVERED | OBSERVED | REJECTED

  datatype Client = Client(docType: int, docNumber: string, legalName: Option<string>)

  datatype QrRecipient = QrRecipient(docType: int, docNumber: string)

  /** A stored line keeps its subtotal in whole cents. */
  datatype StoredLine = StoredLine(line: Line, subtotal: int)

  datatype StoredVoucher = StoredVoucher(
    issuerId: string, issuerCuit: string, voucherType: int, status: VoucherStatus, concept: int, number: int,
    voucherDate: CalendarDate, serviceFrom: Option<CalendarDate>, serviceTo: Option<CalendarDate>,
    currency: string, exchangeRate: real, salesPoint: int,
    recipientDocType: Option<int>, recipientDocNumber: Option<string>, recipientName: Option<string>,
    client: Option<Client>, qr: Option<QrRecipient>, tribute: int, total: int, items: seq<StoredLine>)

  predicate IsAuthorized(status: VoucherStatus) {
    status in {APPROVED, RECOVERED, OBSERVED}
  }

  /** How ARCA's answer is stored. */
  datatype Outcome = Outcome(number: int, date: CalendarDate, recovered: bool, observations: nat)

  function EmittedStatus(outcome: Outcome): VoucherStatus {
    if outcome.recovered then RECOVERED else if outcome.observations > 0 then OBSERVED else APPROVED
  }

  function ItemData(line: Line): StoredLine {
    StoredLine(line, Money.Round(IvaCalculator.Gross(line.item)))
  }

  function ItemsData(lines: seq<Line>): (stored: seq<StoredLine>)
    ensures |stored| == |lines|
  {
    seq(|lines|, i requires 0 <= i < |lines| => ItemData(lines[i]))
  }

  /** `buildIssuedVoucherData`. */
  function BuildIssuedVoucher(
      input: IssueVoucher, outcome: Outcome, issuerCuit: string, client: Option<Client>, qr: Option<QrRecipient>)
    : StoredVoucher
    requires FieldsOk(input)
  {
    StoredVoucher(
      input.issuerId, issuerCuit, input.voucherType, EmittedStatus(outcome), input.concept, outcome.number, outcome.date,
      if input.servicePeriod.Some? then Some(ParseIsoDate(input.servicePeriod.value.from)) else None,
      if input.servicePeriod.Some? then Some(ParseIsoDate(input.servicePeriod.value.until)) else None,
      input.currency, input.exchangeRate, input.salesPoint,
      Some(input.recipient.docType), Some(input.recipient.docNumber),
      if input.recipient.legalName.Some? then input.recipient.legalName
      else if client.Some? then client.value.legalName else None,
      client, qr, AmountsOfVoucher(input).tribute, AmountsOfVoucher(input).total, ItemsData(input.items))
  }

  // The draft -------------------------------------------------------------------------------------------

  datatype DraftResult = Drafted(draft: IssueVoucher) | NoCreditNote | NotAuthorized | UnknownConcept | UnknownRecipient

  function DocumentTypeOf(v: StoredVoucher): Option<int> {
    if v.recipientDocType.Some? then v.recipientDocType
    else if v.client.Some? then Some(v.client.value.docType)
    else if v.qr.Some? then Some(v.qr.value.docType) else None
  }

  function DocumentNumberOf(v: StoredVoucher): Option<string> {
    if v.recipientDocNumber.Some? then v.recipientDocNumber
    else if v.client.Some? then Some(v.client.value.docNumber)
    else if v.qr.Some? then Some(v.qr.value.docNumber) else None
  }

  function LegalNameOf(v: StoredVoucher): Option<string> {
    if v.recipientName.Some? then v.recipientName
    else if v.client.Some? then v.client.value.legalName else None
  }

  function LinesOf(items: seq<StoredLine>): (lines: seq<Line>)
    ensures |lines| == |items|
  {
    seq(|items|, i requires 0 <= i < |items| => items[i].line)
  }

  function BuildCreditNoteDraft(v: StoredVoucher, today: CalendarDate): DraftResult {
    var noteType := CreditNoteTypeFor(v.voucherType);
    if noteType.None? then NoCreditNote
    else if !IsAuthorized(v.status) then NotAuthorized
    else if v.concept !in {PRODUCTS, SERVICES, PRODUCTS_AND_SERVICES} then UnknownConcept
    else if DocumentTypeOf(v).None? || DocumentNumberOf(v).None? then UnknownRecipient
    else Drafted(IssueVoucher(
      v.issuerId, v.salesPoint, noteType.value, v.concept,
      VoucherSchema.Recipient(DocumentTypeOf(v).value, DocumentNumberOf(v).value, LegalNameOf(v), None),
      LinesOf(v.items), v.currency, v.exchangeRate,
      Some([AssociatedVoucher(
        v.voucherType, v.salesPoint, v.number, Some(v.issuerCuit), Some(ToArcaDate(v.voucherDate)))]),
      if RequiresServicePeriod(v.concept) && v.serviceFrom.Some? && v.serviceTo.Some?
      then Some(ServicePeriod(ToLocalIsoDate(v.serviceFrom.value), ToLocalIsoDate(v.serviceTo.value))) else None,
      if NeedsPaymentDueDate(v.concept, noteType.value) then Some(ToLocalIsoDate(today)) else None,
      None, None))
  }

  predicate FourDigitYear(d: CalendarDate) {
    IsReal(d) && 1000 <= d.year <= 9999
  }

  /** Which vouchers get a draft, and why the others do not: the first reason that applies. */
  lemma DraftedIff(v: StoredVoucher, today: CalendarDate)
    ensures var result := BuildCreditNoteDraft(v, today);
            var hasNote := CreditNoteTypeFor(v.voucherType).Some?;
            var authorized := v.status != PENDING && v.status != REJECTED;
            var conceptKnown := 1 <= v.concept <= 3;
            var recipientKnown := v.client.Some? || v.qr.Some? || (v.recipientDocType.Some? && v.recipientDocNumber.Some?);
            && (result.Drafted? <==> hasNote && authorized && conceptKnown && recipientKnown)
            && (result.NoCreditNote? <==> !hasNote)
            && (result.NotAuthorized? <==> hasNote && !authorized)
            && (result.UnknownConcept? <==> hasNote && authorized && !conceptKnown)
            && (result.UnknownRecipient? <==> hasNote && authorized && conceptKnown && !recipientKnown)
  {
    hide CreditNoteTypeFor, NeedsPaymentDueDate;
  }

  /** A value of the voucher itself, or else of its client, or else of its QR code. */
  ghost predicate FirstOf<T>(value: T, own: Option<T>, client: Option<T>, qr: Option<T>) {
    || own == Some(value)
    || (own.None? && client == Some(value))
    || (own.None? && client.None? && qr == Some(value))
  }

  /** A draft is the voucher again under its credit note's type: the same issuer, sales point, concept, currency,
      rate, recipient and lines, with the voucher itself as the one associated. */
  lemma DraftTellsItsVoucher(v: StoredVoucher, today: CalendarDate)
    requires BuildCreditNoteDraft(v, today).Drafted?
    ensures var draft := BuildCreditNoteDraft(v, today).draft;
            && Some(draft.voucherType) == CreditNoteTypeFor(v.voucherType)
            && draft.issuerId == v.issuerId && draft.salesPoint == v.salesPoint && draft.concept == v.concept
            && draft.currency == v.currency && draft.exchangeRate == v.exchangeRate
            && FirstOf(draft.recipient.docType, v.recipientDocType,
                       if v.client.Some? then Some(v.client.value.docType) else None,
                       if v.qr.Some? then Some(v.qr.value.docType) else None)
            && FirstOf(draft.recipient.docNumber, v.recipientDocNumber,
                       if v.client.Some? then Some(v.client.value.docNumber) else None,
                       if v.qr.Some? then Some(v.qr.value.docNumber) else None)
            && (if draft.recipient.legalName.Some?
                then FirstOf(draft.recipient.legalName.value, v.recipientName,
                             if v.client.Some? then v.client.value.legalName else None, None)
                else v.recipientName.None? && (v.client.Some? ==> v.client.value.legalName.None?))
            && |draft.items| == |v.items| && (forall i | 0 <= i < |v.items| :: draft.items[i] == v.items[i].line)
            && draft.transmissionType.None? && draft.tributes.None? && draft.recipient.ivaConditionId.None?
  {
    hide CreditNoteTypeFor, NeedsPaymentDueDate, ToArcaDate, ToLocalIsoDate;
  }

  /** Its dates are the voucher's: the associated voucher's day in ARCA's form, the period when there is one, and
      today as the day to pay where a day is needed. */
  lemma DraftTellsTheDates(v: StoredVoucher, today: CalendarDate)
    requires BuildCreditNoteDraft(v, today).Drafted? && FourDigitYear(v.voucherDate) && FourDigitYear(today)
    requires (v.serviceFrom.Some? ==> FourDigitYear(v.serviceFrom.value))
             && (v.serviceTo.Some? ==> FourDigitYear(v.serviceTo.value))
    ensures var draft := BuildCreditNoteDraft(v, today).draft;
            && draft.associatedVouchers.Some? && |draft.associatedVouchers.value| == 1
            && var associated := draft.associatedVouchers.value[0];
               && associated.voucherType == v.voucherType && associated.salesPoint == v.salesPoint
               && associated.number == v.number && associated.cuit == Some(v.issuerCuit)
               && associated.date.Some? && |associated.date.value| == 8 && AllDigits(associated.date.value)
               && CalendarDate(Value(associated.date.value[..4]), Value(associated.date.value[4..6]),
                               Value(associated.date.value[6..])) == v.voucherDate
    ensures var draft := BuildCreditNoteDraft(v, today).draft;
            && (draft.servicePeriod.Some? <==> v.concept in {2, 3} && v.serviceFrom.Some? && v.serviceTo.Some?)
            && (draft.servicePeriod.Some? ==>
                  && IsIsoDate(draft.servicePeriod.value.from) && IsIsoDate(draft.servicePeriod.value.until)
                  && Some(Said(draft.servicePeriod.value.from)) == v.serviceFrom
                  && Some(Said(draft.servicePeriod.value.until)) == v.serviceTo)
            && (draft.paymentDueDate.Some? <==> v.concept in {2, 3} || IsCreditInvoice(v.voucherType))
            && (draft.paymentDueDate.Some? ==>
                  IsIsoDate(draft.paymentDueDate.value) && Said(draft.paymentDueDate.value) == today)
  {
    ArcaDateParts(v.voucherDate);
    WrittenDatesAreIso(today);
    if v.serviceFrom.Some? { WrittenDatesAreIso(v.serviceFrom.value); }
    if v.serviceTo.Some? { WrittenDatesAreIso(v.serviceTo.value); }
    CreditNoteMatchesItsVoucher(v.voucherType);
    hide CreditNoteTypeFor, ToArcaDate, ToLocalIsoDate, IsIsoDate, Said, IsCreditInvoice, LinesOf, DocumentTypeOf,
         DocumentNumberOf, LegalNameOf;
  }

  /** The cents nearest to the price times the quantity. */
  ghost predicate IsSubtotal(cents: int, item: IvaCalculator.Item) {
    cents as real - 0.5 <= 100.0 * item.quantity * item.unitPrice < cents as real + 0.5
  }

  /** What is stored of an authorized request: its own fields, ARCA's number and date, the status that tells how
      the number was come by, and each line with its price times its quantity to the nearest cent. */
  lemma IssuedVoucherTells(
      input: IssueVoucher, outcome: Outcome, issuerCuit: string, client: Option<Client>, qr: Option<QrRecipient>)
    requires FieldsOk(input)
    ensures var v := BuildIssuedVoucher(input, outcome, issuerCuit, client, qr);
            && v.status == (if outcome.recovered then RECOVERED
                            else if outcome.observations == 0 then APPROVED else OBSERVED)
            && v.number == outcome.number && v.voucherDate == outcome.date
            && v.issuerId == input.issuerId && v.issuerCuit == issuerCuit && v.salesPoint == input.salesPoint
            && v.voucherType == input.voucherType && v.concept == input.concept
            && v.currency == input.currency && v.exchangeRate == input.exchangeRate
            && v.recipientDocType == Some(input.recipient.docType)
            && v.recipientDocNumber == Some(input.recipient.docNumber)
            && v.recipientName == (if input.recipient.legalName.Some? then input.recipient.legalName
                                   else if client.Some? then client.value.legalName else None)
            && v.client == client && v.qr == qr
            && v.total == AmountsOfVoucher(input).total && v.tribute == AmountsOfVoucher(input).tribute
            && (match input.servicePeriod
                case None => v.serviceFrom.None? && v.serviceTo.None?
                case Some(p) =>
                  && v.serviceFrom.Some? && v.serviceTo.Some?
                  && (Said(p.from).year >= 100 && IsReal(Said(p.from)) ==> v.serviceFrom.value == Said(p.from))
                  && (Said(p.until).year >= 100 && IsReal(Said(p.until)) ==> v.serviceTo.value == Said(p.until)))
            && |v.items| == |input.items|
            && forall i | 0 <= i < |v.items| ::
                 v.items[i].line == input.items[i] && IsSubtotal(v.items[i].subtotal, input.items[i].item)
  {
    if input.servicePeriod.Some? {
      RealDateIsKept(input.servicePeriod.value.from);
      RealDateIsKept(input.servicePeriod.value.until);
    }
    forall i | 0 <= i < |input.items|
      ensures var line := ItemsData(input.items)[i];
              line.line == input.items[i] && IsSubtotal(line.subtotal, input.items[i].item)
    {
      LineIsKept(input.items[i]);
    }
    hide AmountsOfVoucher, ParseIsoDate, IsIsoDate, Said, FieldsOk, IsSubtotal, ItemData;
  }

  lemma LineIsKept(line: Line)
    ensures ItemData(line).line == line && IsSubtotal(ItemData(line).subtotal, line.item)
  {}

  lemma RealDateIsKept(s: string)
    requires IsIsoDate(s)
    ensures Said(s).year >= 100 && IsReal(Said(s)) ==> ParseIsoDate(s) == Said(s)
  {
    if Said(s).year >= 100 && IsReal(Said(s)) { RealDatesStay(Said(s).year, Said(s).month, Said(s).day); }
  }

  // Accepted again --------------------------------------------------------------------------------------

  /** What the surroundings provide: an 11-digit CUIT, a positive number, and dates of four-digit years. */
  predicate Ordinary(outcome: Outcome, issuerCuit: string, today: CalendarDate) {
    |issuerCuit| == 11 && AreDigits(issuerCuit) && outcome.number > 0 && FourDigitYear(outcome.date) && FourDigitYear(today)
  }

  /** The period's dates, as the calendar takes them, are still two ISO dates in order. */
  predicate PeriodSurvives(p: ServicePeriod)
    requires IsIsoDate(p.from) && IsIsoDate(p.until)
  {
    var from, until := ToLocalIsoDate(ParseIsoDate(p.from)), ToLocalIsoDate(ParseIsoDate(p.until));
    IsIsoDate(from) && IsIsoDate(until) && !TextAfter(from, until)
  }

  lemma KeptLines(lines: seq<Line>)
    ensures LinesOf(ItemsData(lines)) == lines
  {}

  /** What the draft of an accepted, authorized voucher holds. */
  lemma DraftFields(
      input: IssueVoucher, outcome: Outcome, issuerCuit: string, client: Option<Client>, qr: Option<QrRecipient>,
      today: CalendarDate)
    requires Accepts(input) && CreditNoteTypeFor(input.voucherType).Some?
    ensures var result := BuildCreditNoteDraft(BuildIssuedVoucher(input, outcome, issuerCuit, client, qr), today);
            result.Drafted?
            && var draft, note := result.draft, CreditNoteTypeFor(input.voucherType).value;
               && draft.issuerId == input.issuerId && draft.salesPoint == input.salesPoint && draft.voucherType == note
               && draft.concept == input.concept
               && draft.currency == input.currency && draft.exchangeRate == input.exchangeRate
               && draft.recipient.docType == input.recipient.docType
               && draft.recipient.docNumber == input.recipient.docNumber && draft.recipient.ivaConditionId.None?
               && draft.items == LinesOf(ItemsData(input.items))
               && draft.associatedVouchers == Some([AssociatedVoucher(
                    input.voucherType, input.salesPoint, outcome.number, Some(issuerCuit), Some(ToArcaDate(outcome.date)))])
               && draft.paymentDueDate
                  == (if NeedsPaymentDueDate(input.concept, note) then Some(ToLocalIsoDate(today)) else None)
               && draft.transmissionType.None? && draft.tributes.None?
  {
    hide ToLocalIsoDate, ToArcaDate, ParseIsoDate, ItemsData, LinesOf, IsCreditInvoice, LineOk, CreditNoteTypeFor, Issues;
  }

  /** Every part of the draft but the service period is in order. */
  lemma DraftIsInOrder(
      input: IssueVoucher, outcome: Outcome, issuerCuit: string, client: Option<Client>, qr: Option<QrRecipient>,
      today: CalendarDate, draft: IssueVoucher)
    requires Accepts(input) && CreditNoteTypeFor(input.voucherType).Some? && Ordinary(outcome, issuerCuit, today)
    requires BuildCreditNoteDraft(BuildIssuedVoucher(input, outcome, issuerCuit, client, qr), today) == Drafted(draft)
    ensures ValidateAssociatedVouchers(draft) == {} && ValidateRecipient(draft) == {}
    ensures ValidatePaymentDueDate(draft) == {} && ValidateTransmissionType(draft) == {}
    ensures draft.items == input.items
    ensures draft.associatedVouchers.Some? && forall i | 0 <= i < |draft.associatedVouchers.value| ::
              AssociatedOk(draft.associatedVouchers.value[i])
    ensures draft.paymentDueDate.Some? ==> IsIsoDate(draft.paymentDueDate.value)
  {
    hide BuildCreditNoteDraft, BuildIssuedVoucher, CreditNoteTypeFor, ToArcaDate, ToLocalIsoDate, ItemsData, LinesOf;
    hide IsRecipientIvaConditionAllowed, DefaultRecipientIvaCondition, LineOk, IsIsoDate, VoucherLetter;
    DraftFields(input, outcome, issuerCuit, client, qr, today);
    RecipientStaysInOrder(input);
    CreditNoteMatchesItsVoucher(input.voucherType);
    DefaultConditionIsAllowed(draft.voucherType);
    KeptLines(input.items);
    ArcaDateParts(outcome.date);
    WrittenDatesAreIso(today);
    IsoDatesAreText(ToLocalIsoDate(today));
    hide RequiresRecipientCuit, IsCreditInvoice, IsCreditNote, IsCreditDebitNote, Issues;
  }

  lemma IsoDatesAreText(s: string)
    requires IsIsoDate(s)
    ensures s != ""
  {}

  lemma RecipientStaysInOrder(input: IssueVoucher)
    requires Accepts(input) && CreditNoteTypeFor(input.voucherType).Some?
    ensures RequiresRecipientCuit(CreditNoteTypeFor(input.voucherType).value) ==> input.recipient.docType == CUIT
  {
    CreditNoteMatchesItsVoucher(input.voucherType);
    hide RequiresRecipientCuit, CreditNoteTypeFor, IsRecipientIvaConditionAllowed, FieldsOk;
    assert Issues(input) == {};
    assert ValidateRecipient(input) == {};
  }

  lemma PeriodOfDraft(
      input: IssueVoucher, outcome: Outcome, issuerCuit: string, client: Option<Client>, qr: Option<QrRecipient>,
      today: CalendarDate, draft: IssueVoucher)
    requires Accepts(input)
    requires BuildCreditNoteDraft(BuildIssuedVoucher(input, outcome, issuerCuit, client, qr), today) == Drafted(draft)
    ensures draft.concept == input.concept && (input.servicePeriod.Some? <==> RequiresServicePeriod(input.concept))
    ensures draft.servicePeriod ==
            if input.servicePeriod.None? then None
            else Some(ServicePeriod(ToLocalIsoDate(ParseIsoDate(input.servicePeriod.value.from)),
                                    ToLocalIsoDate(ParseIsoDate(input.servicePeriod.value.until))))
  {
    assert Issues(input) == {};
    assert ValidateServicePeriod(input) == {};
    hide ToLocalIsoDate, ToArcaDate, ParseIsoDate, ItemsData, LinesOf, IsCreditInvoice, CreditNoteTypeFor, LineOk;
  }

  /** The draft of an accepted, authorized voucher's credit note is accepted again exactly when the
      voucher's service period, if it has one, survives being stored as calendar dates. */
  lemma DraftIsAcceptedIffThePeriodSurvives(
      input: IssueVoucher, outcome: Outcome, issuerCuit: string, client: Option<Client>, qr: Option<QrRecipient>,
      today: CalendarDate)
    requires Accepts(input) && CreditNoteTypeFor(input.voucherType).Some? && Ordinary(outcome, issuerCuit, today)
    ensures var result := BuildCreditNoteDraft(BuildIssuedVoucher(input, outcome, issuerCuit, client, qr), today);
            && result.Drafted?
            && (Accepts(result.draft) <==> (input.servicePeriod.Some? ==> PeriodSurvives(input.servicePeriod.value)))
  {
    DraftFields(input, outcome, issuerCuit, client, qr, today);
    var draft := BuildCreditNoteDraft(BuildIssuedVoucher(input, outcome, issuerCuit, client, qr), today).draft;
    DraftIsInOrder(input, outcome, issuerCuit, client, qr, today, draft);
    PeriodOfDraft(input, outcome, issuerCuit, client, qr, today, draft);
    CreditNoteMatchesItsVoucher(input.voucherType);
    hide BuildCreditNoteDraft, BuildIssuedVoucher, LinesOf, ItemsData, CreditNoteTypeFor, ValidateAssociatedVouchers, ValidateRecipient,
         ValidatePaymentDueDate;
    hide ValidateTransmissionType, ToLocalIsoDate, ParseIsoDate, IsIsoDate, TextAfter, AssociatedOk, LineOk;
  }

  /** Real dates from the year 1000 on survive, so the ordinary voucher's draft is always accepted. */
  lemma RealPeriodsSurvive(p: ServicePeriod)
    requires IsIsoDate(p.from) && IsIsoDate(p.until) && !TextAfter(p.from, p.until)
    requires IsReal(Said(p.from)) && IsReal(Said(p.until)) && Said(p.from).year >= 1000 && Said(p.until).year >= 1000
    ensures PeriodSurvives(p)
  {
    RealDatesReadBack(p.from);
    RealDatesReadBack(p.until);
  }

  /** A period from "February 31st" to March 1st is accepted, but is stored backwards: its voucher's
      credit note cannot be issued from the draft. */
  lemma UnrealDatesDoNotSurvive()
    ensures var p := ServicePeriod("2026-02-31", "2026-03-01");
            IsIsoDate(p.from) && IsIsoDate(p.until) && !TextAfter(p.from, p.until) && !PeriodSurvives(p)
  {
    FebruaryThirtyFirst();
    MarchFirst();
    WrittenMarch();
    StoredBackwards();
    SentInOrder();
    hide IsIsoDate, ParseIsoDate, ToLocalIsoDate, TextAfter;
  }

  /** A whole voucher of that kind: services to a final consumer, from "February 31st" to March 1st. */
  const OVERLONG_FEBRUARY := IssueVoucher(
    "issuer", 1, FACTURA_B, SERVICES, VoucherSchema.Recipient(99, "0", None, None),
    [Line("service", IvaCalculator.Item(1.0, 121.0, 210, IvaCalculator.TAXED))], "PES", 1.0, None,
    Some(ServicePeriod("2026-02-31", "2026-03-01")), Some("2026-03-01"), None, None)

  lemma OverlongFebruaryIsAccepted()
    ensures Accepts(OVERLONG_FEBRUARY) && CreditNoteTypeFor(OVERLONG_FEBRUARY.voucherType).Some?
  {
    FebruaryThirtyFirst();
    MarchFirst();
    SentInOrder();
    hide IsIsoDate, ParseIsoDate, TextAfter;
  }

  /** It is accepted and issued, and the draft of its credit note is refused, whatever its number and date. */
  lemma AnAcceptedVoucherWhoseDraftIsRefused(
      outcome: Outcome, issuerCuit: string, client: Option<Client>, qr: Option<QrRecipient>, today: CalendarDate)
    requires Ordinary(outcome, issuerCuit, today)
    ensures Accepts(OVERLONG_FEBRUARY)
    ensures var voucher := BuildIssuedVoucher(OVERLONG_FEBRUARY, outcome, issuerCuit, client, qr);
            var result := BuildCreditNoteDraft(voucher, today);
            result.Drafted? && !Accepts(result.draft)
  {
    OverlongFebruaryIsAccepted();
    hide Accepts, BuildCreditNoteDraft, BuildIssuedVoucher, PeriodSurvives, Ordinary;
    DraftIsAcceptedIffThePeriodSurvives(OVERLONG_FEBRUARY, outcome, issuerCuit, client, qr, today);
    UnrealDatesDoNotSurvive();
  }

  lemma FebruaryThirtyFirst()
    ensures IsIsoDate("2026-02-31") && ParseIsoDate("2026-02-31") == CalendarDate(2026, 3, 3)
  {
    TwoDigitValue('0', '2');
    TwoDigitValue('3', '1');
    SaidIs("02", "31");
    OverflowsIntoMarch();
    assert "2026-02-31" == "2026-" + "02" + "-" + "31";
    hide IsIsoDate, Said, DateOf, Value;
  }

  lemma MarchFirst()
    ensures IsIsoDate("2026-03-01") && ParseIsoDate("2026-03-01") == CalendarDate(2026, 3, 1)
  {
    TwoDigitValue('0', '3');
    TwoDigitValue('0', '1');
    SaidIs("03", "01");
    OverflowsIntoMarch();
    assert "2026-03-01" == "2026-" + "03" + "-" + "01";
    hide IsIsoDate, Said, DateOf, Value;
  }

  lemma OverflowsIntoMarch()
    ensures DateOf(2026, 2, 31) == CalendarDate(2026, 3, 3) && DateOf(2026, 3, 1) == CalendarDate(2026, 3, 1)
  {}

  lemma TwoDigitValue(a: char, b: char)
    requires IsDigit(a) && IsDigit(b)
    ensures AllDigits([a, b]) && Value([a, b]) == 10 * DigitOf(a) + DigitOf(b)
  {
    assert [a, b][..1] == [a] && [a][..0] == "";
    assert Value([a]) == DigitOf(a);
  }

  lemma SaidIs(month: string, day: string)
    requires |month| == 2 && AllDigits(month) && |day| == 2 && AllDigits(day)
    ensures var s := "2026-" + month + "-" + day;
            IsIsoDate(s) && Said(s) == CalendarDate(2026, Value(month), Value(day))
  {
    var s := "2026-" + month + "-" + day;
    Year2026();
    assert s[..4] == "2026" && s[5..7] == month && s[8..] == day;
    hide Value, AreDigits;
  }

  lemma Year2026()
    ensures AllDigits("2026") && Value("2026") == 2026
  {
    assert "2026"[..3] == "202" && "202"[..2] == "20" && "20"[..1] == "2" && "2"[..0] == "";
    assert Value("2") == 2 && Value("20") == 20 && Value("202") == 202;
  }

  /** A common beginning does not matter to the comparison. */
  lemma {:induction false} Prefixed(common: string, x: string, y: string)
    ensures TextAfter(common + x, common + y) == TextAfter(x, y)
  {
    if common == "" {
      assert common + x == x && common + y == y;
    } else {
      assert (common + x)[1..] == common[1..] + x && (common + y)[1..] == common[1..] + y;
      Prefixed(common[1..], x, y);
    }
  }

  lemma WrittenMarch()
    ensures ToLocalIsoDate(CalendarDate(2026, 3, 3)) == "2026-03-03"
    ensures ToLocalIsoDate(CalendarDate(2026, 3, 1)) == "2026-03-01"
  {
    Year2026();
    DigitsRead("2026");
    OneDigit(3);
    OneDigit(1);
    assert DigitChar(3) == '3' && DigitChar(1) == '1';
  }

  lemma StoredBackwards()
    ensures TextAfter("2026-03-03", "2026-03-01")
  {
    Prefixed("2026-03-0", "3", "1");
    assert "2026-03-0" + "3" == "2026-03-03" && "2026-03-0" + "1" == "2026-03-01";
  }

  lemma SentInOrder()
    ensures !TextAfter("2026-02-31", "2026-03-01")
  {}

  // The books ---------------------------------------------------------------------------------------------

  function StoredItems(items: seq<StoredLine>): seq<TaxBreakdown.StoredItem> {
    seq(|items|, i requires 0 <= i < |items| =>
      TaxBreakdown.StoredItem(items[i].line.item.rate, items[i].subtotal, Some(items[i].line.item.treatment)))
  }

  /** A stored voucher as the sales book reads its columns. */
  function TaxedOf(v: StoredVoucher): TaxBreakdown.TaxedVoucher {
    TaxBreakdown.TaxedVoucher(v.voucherType, Some(v.exchangeRate), StoredItems(v.items))
  }

  /** Vouchers of one letter with the same lines and exchange rate break down alike. */
  lemma {:induction false} SameLetterSameColumns(
      v: TaxBreakdown.TaxedVoucher, w: TaxBreakdown.TaxedVoucher, items: seq<TaxBreakdown.StoredItem>,
      column: TaxBreakdown.Column)
    requires VoucherLetter(v.voucherType) == VoucherLetter(w.voucherType) && v.exchangeRate == w.exchangeRate
    ensures TaxBreakdown.ColumnSum(v, items, column) == TaxBreakdown.ColumnSum(w, items, column)
    ensures TaxBreakdown.IvaRatesOf(v.voucherType, items) == TaxBreakdown.IvaRatesOf(w.voucherType, items)
  {
    if items != [] {
      SameLetterSameColumns(v, w, items[..|items| - 1], column);
      hide VoucherLetter, TaxBreakdown.ToPesos, Money.WithoutIva;
    }
  }

  lemma SameLetterSameBreakdown(v: TaxBreakdown.TaxedVoucher, w: TaxBreakdown.TaxedVoucher)
    requires VoucherLetter(v.voucherType) == VoucherLetter(w.voucherType)
    requires v.exchangeRate == w.exchangeRate && v.items == w.items
    ensures TaxBreakdown.BreakdownOf(v) == TaxBreakdown.BreakdownOf(w)
  {
    forall column ensures TaxBreakdown.ColumnSum(v, v.items, column) == TaxBreakdown.ColumnSum(w, w.items, column) {
      SameLetterSameColumns(v, w, v.items, column);
    }
    SameLetterSameColumns(v, w, v.items, TaxBreakdown.NetColumn);
    hide VoucherLetter, TaxBreakdown.ColumnSum, TaxBreakdown.IvaRatesOf, Money.Round;
    assert TaxBreakdown.RoundedIva(v, TaxBreakdown.IvaRatesOf(v.voucherType, v.items))
        == TaxBreakdown.RoundedIva(w, TaxBreakdown.IvaRatesOf(w.voucherType, w.items));
  }

  /** One entry's tax columns are the exact negation of the other's. */
  ghost predicate Negates(e: SalesBook.BookEntry, f: SalesBook.BookEntry) {
    && e.net == -f.net && e.exempt == -f.exempt && e.untaxed == -f.untaxed && e.iva == -f.iva
    && |e.ivaByRate| == |f.ivaByRate|
    && forall i | 0 <= i < |e.ivaByRate| ::
         e.ivaByRate[i].rate == f.ivaByRate[i].rate && e.ivaByRate[i].amount == -f.ivaByRate[i].amount
  }

  lemma OppositeSignsNegate(v: SalesBook.BookVoucher, w: SalesBook.BookVoucher)
    requires TaxBreakdown.BreakdownOf(v.taxed) == TaxBreakdown.BreakdownOf(w.taxed)
    requires IsCreditNote(v.taxed.voucherType) && !IsCreditNote(w.taxed.voucherType)
    ensures Negates(SalesBook.ToEntry(v), SalesBook.ToEntry(w))
  {
    var taxes := TaxBreakdown.BreakdownOf(v.taxed);
    SalesBook.SignedIs(-1, taxes.net);
    SalesBook.SignedIs(1, taxes.net);
    SalesBook.SignedIs(-1, taxes.exempt);
    SalesBook.SignedIs(1, taxes.exempt);
    SalesBook.SignedIs(-1, taxes.untaxed);
    SalesBook.SignedIs(1, taxes.untaxed);
    SalesBook.EntryIva(v);
    SalesBook.EntryIva(w);
    RowsNegate(taxes.ivaByRate);
    hide TaxBreakdown.BreakdownOf, SalesBook.Signed, SalesBook.SignedPesos, SalesBook.RateRows, Money.Round,
         Money.Total, IsCreditNote;
    hide TaxBreakdown.IvaTotal, SalesBook.AmountsOfRows;
  }

  lemma RowsNegate(m: TaxBreakdown.RateMap)
    requires forall r | r in m.order :: r in m.amounts
    ensures |SalesBook.RateRows(-1, m)| == |SalesBook.RateRows(1, m)|
    ensures forall i | 0 <= i < |SalesBook.RateRows(-1, m)| ::
              && SalesBook.RateRows(-1, m)[i].rate == SalesBook.RateRows(1, m)[i].rate
              && SalesBook.RateRows(-1, m)[i].amount == -SalesBook.RateRows(1, m)[i].amount
  {}

  /** The note emitted from the draft, however ARCA numbers and dates it, posts the exact negation of the
      original's net, exempt, untaxed and per-rate IVA columns. */
  lemma NotePostsTheNegation(
      original: StoredVoucher, today: CalendarDate, outcome: Outcome, client: Option<Client>, qr: Option<QrRecipient>,
      inBook: SalesBook.BookVoucher, noteInBook: SalesBook.BookVoucher)
    requires BuildCreditNoteDraft(original, today).Drafted? && FieldsOk(BuildCreditNoteDraft(original, today).draft)
    requires forall i | 0 <= i < |original.items| :: original.items[i] == ItemData(original.items[i].line)
    requires inBook.taxed == TaxedOf(original)
    requires noteInBook.taxed
          == TaxedOf(BuildIssuedVoucher(BuildCreditNoteDraft(original, today).draft, outcome, original.issuerCuit, client, qr))
    ensures Negates(SalesBook.ToEntry(noteInBook), SalesBook.ToEntry(inBook))
  {
    CreditNoteMatchesItsVoucher(original.voucherType);
    var draft := BuildCreditNoteDraft(original, today).draft;
    var note := BuildIssuedVoucher(draft, outcome, original.issuerCuit, client, qr);
    hide VoucherLetter, ItemData, ToLocalIsoDate, ToArcaDate, ParseIsoDate, FieldsOk, IsCreditNote, IsCreditDebitNote;
    assert note.items == original.items;
    assert noteInBook.taxed.items == inBook.taxed.items;
    SameLetterSameBreakdown(noteInBook.taxed, inBook.taxed);
    OppositeSignsNegate(noteInBook, inBook);
  }
}
