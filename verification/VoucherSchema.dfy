/** What a request to issue a voucher must look like to be accepted. */
module VoucherSchema {
  import opened Common
  import opened Dates
  import opened Money
  import opened Text
  import opened VoucherTypes
  import IvaCalculator

  datatype Recipient = Recipient(docType: int, docNumber: string, legalName: Option<string>, ivaConditionId: Option<int>)

  datatype Line = Line(description: string, item: IvaCalculator.Item)

  datatype AssociatedVoucher = AssociatedVoucher(
    voucherType: int, salesPoint: int, number: int, cuit: Option<string>, date: Option<string>)

  datatype ServicePeriod = ServicePeriod(from: string, until: string)

  datatype Transmission = OPEN_CIRCULATION | COLLECTIVE_DEPOSIT

  datatype IssueVoucher = IssueVoucher(
    issuerId: string, salesPoint: int, voucherType: int, concept: int, recipient: Recipient, items: seq<Line>,
    currency: string, exchangeRate: real, associatedVouchers: Option<seq<AssociatedVoucher>>,
    servicePeriod: Option<ServicePeriod>, paymentDueDate: Option<string>, transmissionType: Option<Transmission>,
    tributes: Option<seq<IvaCalculator.Tribute>>)

  const CUIT := 80
  const PRODUCTS := 1
  const SERVICES := 2
  const PRODUCTS_AND_SERVICES := 3
  const RESPONSABLE_INSCRIPTO := 1
  const SUJETO_EXENTO := 4
  const CONSUMIDOR_FINAL := 5
  const MONOTRIBUTO := 6
  const MONOTRIBUTISTA_SOCIAL := 13

  // Field by field ------------------------------------------------------------------------------------

  predicate LineOk(line: Line) {
    && line.description != "" && line.item.quantity > 0.0 && line.item.unitPrice >= 0.0
    && line.item.rate in IvaCalculator.IVA_RATES
    && (line.item.treatment != IvaCalculator.TAXED ==> line.item.rate == 0)
  }

  predicate AssociatedOk(v: AssociatedVoucher) {
    && v.voucherType > 0 && v.salesPoint > 0 && v.number > 0
    && (v.cuit.Some? ==> |v.cuit.value| == 11 && AreDigits(v.cuit.value))
    && (v.date.Some? ==> |v.date.value| == 8 && AreDigits(v.date.value))
  }

  predicate FieldsOk(v: IssueVoucher) {
    && v.issuerId != "" && v.salesPoint > 0 && v.voucherType > 0
    && v.concept in {PRODUCTS, SERVICES, PRODUCTS_AND_SERVICES}
    && v.recipient.docNumber != ""
    && v.items != [] && (forall i | 0 <= i < |v.items| :: LineOk(v.items[i]))
    && v.exchangeRate > 0.0
    && (v.associatedVouchers.Some? ==>
          forall i | 0 <= i < |v.associatedVouchers.value| :: AssociatedOk(v.associatedVouchers.value[i]))
    && (v.servicePeriod.Some? ==> IsIsoDate(v.servicePeriod.value.from) && IsIsoDate(v.servicePeriod.value.until))
    && (v.paymentDueDate.Some? ==> IsIsoDate(v.paymentDueDate.value))
    && (v.tributes.Some? ==>
          forall i | 0 <= i < |v.tributes.value| ::
            v.tributes.value[i].id > 0 && v.tributes.value[i].taxableBase >= 0.0 && v.tributes.value[i].rate >= 0.0)
  }

  // Across fields ---------------------------------------------------------------------------------------

  predicate RequiresServicePeriod(concept: int) {
    concept in {SERVICES, PRODUCTS_AND_SERVICES}
  }

  function DefaultRecipientIvaCondition(voucherType: int): int {
    if DiscriminatesIva(voucherType) then RESPONSABLE_INSCRIPTO else CONSUMIDOR_FINAL
  }

  const KNOWN_CONDITIONS: set<int> :=
    {RESPONSABLE_INSCRIPTO, SUJETO_EXENTO, CONSUMIDOR_FINAL, MONOTRIBUTO, MONOTRIBUTISTA_SOCIAL}

  function AllowedRecipientIvaConditions(voucherType: int): set<int> {
    if VoucherLetter(voucherType) in {A, M} then {RESPONSABLE_INSCRIPTO}
    else if VoucherLetter(voucherType) == B then KNOWN_CONDITIONS - {RESPONSABLE_INSCRIPTO}
    else KNOWN_CONDITIONS
  }

  predicate IsRecipientIvaConditionAllowed(voucherType: int, conditionId: int) {
    conditionId !in KNOWN_CONDITIONS || conditionId in AllowedRecipientIvaConditions(voucherType)
  }

  /** `text > other` on strings. */
  predicate TextAfter(text: string, other: string) {
    if text == "" then false
    else if other == "" then true
    else if text[0] != other[0] then text[0] > other[0]
    else TextAfter(text[1..], other[1..])
  }

  datatype Issue =
    | MissingAssociatedVouchers
    | RecipientNeedsCuit
    | RecipientConditionNotAllowed
    | UnexpectedServicePeriod
    | MissingServicePeriod
    | ServicePeriodEndsBeforeItStarts
    | MissingPaymentDueDate
    | UnexpectedPaymentDueDate
    | UnexpectedTransmissionType

  function ValidateAssociatedVouchers(v: IssueVoucher): set<Issue> {
    if IsCreditDebitNote(v.voucherType) && (v.associatedVouchers.None? || v.associatedVouchers.value == [])
    then {MissingAssociatedVouchers} else {}
  }

  function ValidateRecipient(v: IssueVoucher): set<Issue> {
    var condition := if v.recipient.ivaConditionId.Some? then v.recipient.ivaConditionId.value
                     else DefaultRecipientIvaCondition(v.voucherType);
    (if RequiresRecipientCuit(v.voucherType) && v.recipient.docType != CUIT then {RecipientNeedsCuit} else {})
    + (if IsRecipientIvaConditionAllowed(v.voucherType, condition) then {} else {RecipientConditionNotAllowed})
  }

  function ValidateServicePeriod(v: IssueVoucher): set<Issue> {
    if !RequiresServicePeriod(v.concept) then (if v.servicePeriod.Some? then {UnexpectedServicePeriod} else {})
    else if v.servicePeriod.None? then {MissingServicePeriod}
    else if TextAfter(v.servicePeriod.value.from, v.servicePeriod.value.until) then {ServicePeriodEndsBeforeItStarts}
    else {}
  }

  predicate NeedsPaymentDueDate(concept: int, voucherType: int) {
    RequiresServicePeriod(concept) || IsCreditInvoice(voucherType)
  }

  function ValidatePaymentDueDate(v: IssueVoucher): set<Issue> {
    var needed := NeedsPaymentDueDate(v.concept, v.voucherType);
    if needed && !HasText(v.paymentDueDate) then {MissingPaymentDueDate}
    else if !needed && HasText(v.paymentDueDate) then {UnexpectedPaymentDueDate}
    else {}
  }

  function ValidateTransmissionType(v: IssueVoucher): set<Issue> {
    if v.transmissionType.Some? && !IsCreditInvoice(v.voucherType) then {UnexpectedTransmissionType} else {}
  }

  function Issues(v: IssueVoucher): set<Issue> {
    ValidateAssociatedVouchers(v) + ValidateRecipient(v) + ValidateServicePeriod(v) + ValidatePaymentDueDate(v)
    + ValidateTransmissionType(v)
  }

  /** `issueVoucherSchema` accepts: every field is well formed and no validator reports an issue. */
  predicate Accepts(v: IssueVoucher) {
    FieldsOk(v) && Issues(v) == {}
  }

  /** The condition a voucher type assumes of its recipient is one it allows. */
  lemma DefaultConditionIsAllowed(voucherType: int)
    ensures IsRecipientIvaConditionAllowed(voucherType, DefaultRecipientIvaCondition(voucherType))
  {}

  /** Which conditions a voucher type takes: letters A and M take Responsable Inscripto alone, B the other known
      ones, the rest all of them; a condition that is not known passes.  And which one is assumed. */
  lemma ConditionsByLetter(voucherType: int, condition: int)
    ensures IsRecipientIvaConditionAllowed(voucherType, condition) <==>
              match VoucherLetter(voucherType)
              case A => condition !in {4, 5, 6, 13}
              case M => condition !in {4, 5, 6, 13}
              case B => condition != 1
              case _ => true
    ensures DefaultRecipientIvaCondition(voucherType) == if VoucherLetter(voucherType) in {A, M} then 1 else 5
  {}

  /** A request is accepted exactly when its fields are well formed and fit each other: a period in order for
      services and none for products, a payment date exactly for services and electronic credit invoices, a
      transmission type for the latter only, an associated voucher for every note, a CUIT where the type needs it,
      and a stated condition that the type takes. */
  lemma AcceptedShape(v: IssueVoucher)
    ensures Accepts(v) <==>
              && FieldsOk(v)
              && (v.servicePeriod.Some? <==> v.concept in {SERVICES, PRODUCTS_AND_SERVICES})
              && (v.servicePeriod.Some? ==> !TextAfter(v.servicePeriod.value.from, v.servicePeriod.value.until))
              && (HasText(v.paymentDueDate) <==>
                    v.concept in {SERVICES, PRODUCTS_AND_SERVICES} || IsCreditInvoice(v.voucherType))
              && (v.transmissionType.Some? ==> IsCreditInvoice(v.voucherType))
              && (IsCreditDebitNote(v.voucherType) ==> v.associatedVouchers.Some? && v.associatedVouchers.value != [])
              && (RequiresRecipientCuit(v.voucherType) ==> v.recipient.docType == CUIT)
              && (v.recipient.ivaConditionId.Some? ==>
                    IsRecipientIvaConditionAllowed(v.voucherType, v.recipient.ivaConditionId.value))
  {
    DefaultConditionIsAllowed(v.voucherType);
    NoIssues(v);
    hide FieldsOk, IsCreditDebitNote, IsCreditInvoice, RequiresRecipientCuit, IsRecipientIvaConditionAllowed, TextAfter,
         Issues;
  }

  lemma NoIssues(v: IssueVoucher)
    ensures Issues(v) == {} <==>
              && ValidateAssociatedVouchers(v) == {} && ValidateRecipient(v) == {} && ValidateServicePeriod(v) == {}
              && ValidatePaymentDueDate(v) == {} && ValidateTransmissionType(v) == {}
  {
    hide ValidateAssociatedVouchers, ValidateRecipient, ValidateServicePeriod, ValidatePaymentDueDate,
         ValidateTransmissionType;
  }

  // The order of dates written as text ------------------------------------------------------------------

  lemma {:induction false} AfterByParts(p: string, q: string, r: string, u: string)
    requires |p| == |q|
    ensures TextAfter(p + r, q + u) <==> TextAfter(p, q) || (p == q && TextAfter(r, u))
  {
    if p == "" {
      assert p + r == r && q + u == u;
    } else {
      AfterByParts(p[1..], q[1..], r, u);
      assert (p + r)[1..] == p[1..] + r && (q + u)[1..] == q[1..] + u && (p + r)[0] == p[0] && (q + u)[0] == q[0];
      assert p == [p[0]] + p[1..] && q == [q[0]] + q[1..];
    }
  }

  lemma {:induction false} DigitsInOrder(p: string, q: string)
    requires |p| == |q| && AllDigits(p) && AllDigits(q)
    ensures TextAfter(p, q) <==> Value(p) > Value(q)
    ensures p == q <==> Value(p) == Value(q)
  {
    if p != "" {
      var n := |p| - 1;
      DigitsInOrder(p[..n], q[..n]);
      assert p == p[..n] + [p[n]] && q == q[..n] + [q[n]];
      AfterByParts(p[..n], q[..n], [p[n]], [q[n]]);
      hide TextAfter;
      LastDigits(p[n], q[n]);
    }
  }

  lemma LastDigits(c: char, d: char)
    requires IsDigit(c) && IsDigit(d)
    ensures TextAfter([c], [d]) <==> DigitOf(c) > DigitOf(d)
    ensures c == d <==> DigitOf(c) == DigitOf(d)
  {
    assert [c][1..] == "" && [d][1..] == "";
  }

  ghost predicate LaterThan(d: CalendarDate, e: CalendarDate) {
    d.year > e.year || (d.year == e.year && (d.month > e.month || (d.month == e.month && d.day > e.day)))
  }

  /** Comparing two dates as text compares what they say. */
  lemma TextOrderIsDateOrder(s: string, t: string)
    requires IsIsoDate(s) && IsIsoDate(t)
    ensures TextAfter(s, t) <==> LaterThan(Said(s), Said(t))
  {
    hide TextAfter;
    DigitsInOrder(s[..4], t[..4]);
    DigitsInOrder(s[5..7], t[5..7]);
    DigitsInOrder(s[8..], t[8..]);
    assert s == s[..4] + ("-" + (s[5..7] + ("-" + s[8..]))) && t == t[..4] + ("-" + (t[5..7] + ("-" + t[8..])));
    AfterByParts(s[..4], t[..4], "-" + (s[5..7] + ("-" + s[8..])), "-" + (t[5..7] + ("-" + t[8..])));
    AfterByParts("-", "-", s[5..7] + ("-" + s[8..]), t[5..7] + ("-" + t[8..]));
    AfterByParts(s[5..7], t[5..7], "-" + s[8..], "-" + t[8..]);
    AfterByParts("-", "-", s[8..], t[8..]);
    NotAfterItself("-");
  }

  lemma NotAfterItself(s: string)
    requires |s| == 1
    ensures !TextAfter(s, s)
  {}

  function ItemsOf(lines: seq<Line>): (items: seq<IvaCalculator.Item>)
    ensures |items| == |lines|
  {
    seq(|lines|, i requires 0 <= i < |lines| => lines[i].item)
  }

  function TributesOf(v: IssueVoucher): seq<IvaCalculator.Tribute> {
    if v.tributes.Some? then v.tributes.value else []
  }

  /** The amounts of a well-formed voucher can always be computed: no rate of it is unknown to ARCA. */
  lemma AcceptedAmountsExist(v: IssueVoucher)
    requires FieldsOk(v)
    ensures IvaCalculator.AmountsOf(v.voucherType, ItemsOf(v.items), TributesOf(v)).Some?
  {
    var items := ItemsOf(v.items);
    assert IvaCalculator.RatesAreMapped(items) by {
      forall i | 0 <= i < |items| ensures items[i].rate in IvaCalculator.IVA_RATES { assert LineOk(v.items[i]); }
    }
    IvaCalculator.SplitsMappedRates(items);
    hide IvaCalculator.SplitOf, IvaCalculator.RatesAreMapped, FieldsOk, IvaCalculator.TributeTotal;
    hide IvaCalculator.GrossIn, IvaCalculator.TributeEntries;
  }

  function AmountsOfVoucher(v: IssueVoucher): IvaCalculator.VoucherAmounts
    requires FieldsOk(v)
  {
    AcceptedAmountsExist(v);
    IvaCalculator.AmountsOf(v.voucherType, ItemsOf(v.items), TributesOf(v)).value
  }

  // No negative amounts --------------------------------------------------------------------------------

  lemma {:induction false} SumIsNotNegative(items: seq<IvaCalculator.Item>, kind: IvaCalculator.Group)
    requires forall i | 0 <= i < |items| :: items[i].quantity >= 0.0 && items[i].unitPrice >= 0.0
    ensures IvaCalculator.SumOver(items, kind) >= 0.0
  {
    if items != [] { SumIsNotNegative(items[1..], kind); }
  }

  lemma {:induction false} TributesAreNotNegative(tributes: seq<IvaCalculator.Tribute>)
    requires forall i | 0 <= i < |tributes| :: tributes[i].taxableBase >= 0.0 && tributes[i].rate >= 0.0
    ensures IvaCalculator.TributeSum(tributes) >= 0
  {
    if tributes != [] { TributesAreNotNegative(tributes[1..]); }
  }

  lemma {:induction false} TotalIsNotNegative(amounts: seq<int>)
    requires forall i | 0 <= i < |amounts| :: amounts[i] >= 0
    ensures Total(amounts) >= 0
  {
    if amounts != [] { TotalIsNotNegative(amounts[..|amounts| - 1]); }
  }

  lemma AcceptedNumbers(v: IssueVoucher)
    requires FieldsOk(v)
    ensures forall i | 0 <= i < |v.items| ::
              && ItemsOf(v.items)[i].quantity >= 0.0 && ItemsOf(v.items)[i].unitPrice >= 0.0
              && (ItemsOf(v.items)[i].treatment != IvaCalculator.TAXED ==> ItemsOf(v.items)[i].rate == 0)
    ensures forall i | 0 <= i < |TributesOf(v)| :: TributesOf(v)[i].taxableBase >= 0.0 && TributesOf(v)[i].rate >= 0.0
  {
    assert forall i | 0 <= i < |v.items| :: LineOk(v.items[i]);
  }

  /** Of a well-formed voucher ARCA is told no negative amount, and no line but the taxed ones bears a rate. */
  lemma AcceptedAmountsAreNotNegative(v: IssueVoucher)
    requires FieldsOk(v)
    ensures var a := AmountsOfVoucher(v);
            && a.net >= 0 && a.iva >= 0 && a.exempt >= 0 && a.untaxed >= 0 && a.tribute >= 0 && a.total >= 0
            && forall k | 0 <= k < |a.rates| :: a.rates[k].taxableBase >= 0 && a.rates[k].amount >= 0
    ensures forall i | 0 <= i < |v.items| && v.items[i].item.treatment != IvaCalculator.TAXED :: v.items[i].item.rate == 0
  {
    AcceptedNumbers(v);
    AcceptedAmountsExist(v);
    var items, a := ItemsOf(v.items), AmountsOfVoucher(v);
    IvaCalculator.AmountsTell(v.voucherType, items, TributesOf(v));
    TributesAreNotNegative(TributesOf(v));
    SumIsNotNegative(items, IvaCalculator.Everything);
    SumIsNotNegative(items, IvaCalculator.Exempt);
    SumIsNotNegative(items, IvaCalculator.Untaxed);
    hide FieldsOk, AmountsOfVoucher, IvaCalculator.SumOver, IvaCalculator.TributeSum, IvaCalculator.BaseOf;
    hide IvaCalculator.RatesOf, IvaCalculator.IsIdOf;
    forall k | 0 <= k < |a.rates| ensures a.rates[k].taxableBase >= 0 && a.rates[k].amount >= 0 {
      var rate := IvaCalculator.RatesOf(items)[k];
      SumIsNotNegative(items, IvaCalculator.AtRate(rate));
      IvaCalculator.BaseAtMostGross(Round(IvaCalculator.SumOver(items, IvaCalculator.AtRate(rate))), rate);
    }
    TotalIsNotNegative(IvaCalculator.Bases(a.rates));
    TotalIsNotNegative(IvaCalculator.Ivas(a.rates));
  }
}
