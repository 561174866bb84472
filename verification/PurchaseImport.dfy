/** Importing a "Mis Comprobantes" file: classify every row against what is stored, then create the rest. */
module PurchaseImport {
  import opened Common
  import opened Money
  import opened Text
  import opened MisComprobantesCsv
  import Dates
  import IvaCalculator

  datatype PurchaseAmounts = PurchaseAmounts(
    netAmount21: real, iva21: real, netAmount105: real, iva105: real, netAmount27: real, iva27: real,
    exempt: real, untaxed: real)

  /** A stored purchase; the total is in cents. */
  datatype Invoice = Invoice(
    issuer: string, supplierCuit: string, supplierName: string, invoiceType: nat, salesPoint: nat, number: nat,
    issueDate: Dates.CalendarDate, amounts: PurchaseAmounts, total: int)

  datatype RowStatus = IMPORTABLE | DUPLICATE | NEEDS_REVIEW

  datatype ClassifiedRow = ClassifiedRow(row: ParsedRow, ivaRate: Option<nat>, status: RowStatus)

  datatype Summary = Summary(importable: nat, duplicates: nat, needsReview: nat, invalid: nat)

  datatype Preview = Preview(rows: seq<ClassifiedRow>, invalid: seq<InvalidRow>, summary: Summary)

  const RATE_TOLERANCE := 0.005
  const AMOUNT_TOLERANCE := 0.01
  const NO_IVA_RATE := 0

  // The rate of a row ---------------------------------------------------------------------------------

  /** Whether the row's IVA is this rate of its net, within half a percentage point. */
  predicate Fits(row: ParsedRow, rate: nat)
    requires row.netTaxed != 0.0
  {
    rate > 0
    && -RATE_TOLERANCE < row.ivaAmount / row.netTaxed - rate as real / 10.0 / PERCENT_BASE < RATE_TOLERANCE
  }

  function FirstFit(row: ParsedRow, rates: seq<nat>): Option<nat>
    requires row.netTaxed != 0.0
  {
    if rates == [] then None
    else if Fits(row, rates[0]) then Some(rates[0])
    else FirstFit(row, rates[1..])
  }

  function InferIvaRate(row: ParsedRow): Option<nat> {
    if row.ivaAmount == 0.0 then (if row.netTaxed == 0.0 then Some(NO_IVA_RATE) else None)
    else if row.netTaxed == 0.0 then None
    else FirstFit(row, IvaCalculator.IVA_RATES)
  }

  /** No row fits two rates: the order in which they are tried does not matter. */
  lemma AtMostOneRateFits(row: ParsedRow, rate: nat, other: nat)
    requires row.netTaxed != 0.0 && rate in IvaCalculator.IVA_RATES && other in IvaCalculator.IVA_RATES
    requires Fits(row, rate) && Fits(row, other)
    ensures rate == other
  {}

  lemma {:induction false} FirstFitIsAFit(row: ParsedRow, rates: seq<nat>)
    requires row.netTaxed != 0.0
    ensures FirstFit(row, rates).Some? ==> FirstFit(row, rates).value in rates && Fits(row, FirstFit(row, rates).value)
    ensures FirstFit(row, rates).None? ==> forall r | r in rates :: !Fits(row, r)
  {
    if rates != [] { FirstFitIsAFit(row, rates[1..]); }
  }

  /** A row is given a positive rate exactly when it has IVA and that supported rate is the one its IVA is of its
      net, within half a percentage point. */
  lemma InferredRateIsTheFit(row: ParsedRow, rate: nat)
    requires rate > 0
    ensures InferIvaRate(row) == Some(rate) <==>
            && row.ivaAmount != 0.0 && row.netTaxed != 0.0 && rate in {25, 50, 105, 210, 270}
            && -0.005 < row.ivaAmount / row.netTaxed - rate as real / 1000.0 < 0.005
  {
    if row.ivaAmount != 0.0 && row.netTaxed != 0.0 {
      FirstFitIsAFit(row, IvaCalculator.IVA_RATES);
      FitsWithin(row, rate);
      if rate in IvaCalculator.IVA_RATES && Fits(row, rate) && InferIvaRate(row).Some? {
        AtMostOneRateFits(row, rate, InferIvaRate(row).value);
      }
      hide Fits, FirstFit;
    }
  }

  lemma FitsWithin(row: ParsedRow, rate: nat)
    requires row.netTaxed != 0.0 && rate > 0
    ensures Fits(row, rate) <==> -0.005 < row.ivaAmount / row.netTaxed - rate as real / 1000.0 < 0.005
  {
    assert rate as real / 10.0 / 100.0 == rate as real / 1000.0;
  }

  /** The rate is zero exactly for a row without net and without IVA. */
  lemma InferredRateIsZero(row: ParsedRow)
    ensures InferIvaRate(row) == Some(0) <==> row.ivaAmount == 0.0 && row.netTaxed == 0.0
  {
    if row.netTaxed != 0.0 { FirstFitIsAFit(row, IvaCalculator.IVA_RATES); }
    hide FirstFit;
  }

  // Amounts -------------------------------------------------------------------------------------------

  /** The rates without columns of their own leave the taxed amounts out. */
  function AmountsForRate(row: ParsedRow, ivaRate: nat): PurchaseAmounts {
    var none := PurchaseAmounts(0.0, 0.0, 0.0, 0.0, 0.0, 0.0, row.exempt, row.untaxed);
    if ivaRate == 210 then none.(netAmount21 := row.netTaxed, iva21 := row.ivaAmount)
    else if ivaRate == 105 then none.(netAmount105 := row.netTaxed, iva105 := row.ivaAmount)
    else if ivaRate == 270 then none.(netAmount27 := row.netTaxed, iva27 := row.ivaAmount)
    else none
  }

  function PurchaseInvoiceTotal(a: PurchaseAmounts): int {
    Round(100.0 * (a.netAmount21 + a.iva21 + a.netAmount105 + a.iva105 + a.netAmount27 + a.iva27 + a.exempt + a.untaxed))
  }

  // Classification ------------------------------------------------------------------------------------

  function KeyText(supplierCuit: string, invoiceType: nat, salesPoint: nat, number: nat): string {
    supplierCuit + "|" + (Digits(invoiceType) + "|" + (Digits(salesPoint) + "|" + Digits(number)))
  }

  function RowKey(row: ParsedRow): string {
    KeyText(row.supplierCuit, row.invoiceType, row.salesPoint, row.number)
  }

  function InvoiceKey(invoice: Invoice): string {
    KeyText(invoice.supplierCuit, invoice.invoiceType, invoice.salesPoint, invoice.number)
  }

  /** The keys of the issuer's stored purchases from the suppliers in the file. */
  function ExistingKeys(purchases: seq<Invoice>, issuer: string, rows: seq<ParsedRow>): set<string> {
    var suppliers := set i | 0 <= i < |rows| :: rows[i].supplierCuit;
    set i | 0 <= i < |purchases| && purchases[i].issuer == issuer && purchases[i].supplierCuit in suppliers ::
      InvoiceKey(purchases[i])
  }

  predicate FarFrom(rebuiltTotal: int, total: real) {
    var difference := rebuiltTotal as real / 100.0 - total;
    difference > AMOUNT_TOLERANCE || difference < -AMOUNT_TOLERANCE
  }

  function Classify(row: ParsedRow, existing: set<string>): ClassifiedRow {
    var ivaRate := InferIvaRate(row);
    if RowKey(row) in existing then ClassifiedRow(row, ivaRate, DUPLICATE)
    else if ivaRate.None? then ClassifiedRow(row, ivaRate, NEEDS_REVIEW)
    else if FarFrom(PurchaseInvoiceTotal(AmountsForRate(row, ivaRate.value)), row.total) then
      ClassifiedRow(row, ivaRate, NEEDS_REVIEW)
    else ClassifiedRow(row, ivaRate, IMPORTABLE)
  }

  function ClassifyAll(rows: seq<ParsedRow>, existing: set<string>): (classified: seq<ClassifiedRow>)
    ensures |classified| == |rows|
  {
    seq(|rows|, i requires 0 <= i < |rows| => Classify(rows[i], existing))
  }

  /** Whether the calendar takes the row's date; otherwise storing the row is refused. */
  predicate Storable(c: ClassifiedRow) {
    Dates.IsTaken(c.row.issueDate)
  }

  function InvoiceFor(issuer: string, c: ClassifiedRow): Invoice
    requires Storable(c)
  {
    var amounts := AmountsForRate(c.row, if c.ivaRate.Some? then c.ivaRate.value else NO_IVA_RATE);
    Invoice(issuer, c.row.supplierCuit, c.row.supplierName, c.row.invoiceType, c.row.salesPoint, c.row.number,
            Dates.DateOfText(c.row.issueDate), amounts, PurchaseInvoiceTotal(amounts))
  }

  /** An import completes if every importable row can be stored. */
  predicate Completes(classified: seq<ClassifiedRow>) {
    forall k | 0 <= k < |classified| && classified[k].status == IMPORTABLE :: Storable(classified[k])
  }

  /** What an import creates: the importable rows, in the order of the file, up to the first one that cannot
      be stored. */
  function Created(issuer: string, classified: seq<ClassifiedRow>): seq<Invoice> {
    if classified == [] then []
    else
      var last := classified[|classified| - 1];
      Created(issuer, classified[..|classified| - 1])
      + if last.status == IMPORTABLE && Completes(classified) then [InvoiceFor(issuer, last)] else []
  }

  function CountOf(classified: seq<ClassifiedRow>, status: RowStatus): nat {
    if classified == [] then 0
    else CountOf(classified[..|classified| - 1], status) + if classified[|classified| - 1].status == status then 1 else 0
  }

  function Summarize(classified: seq<ClassifiedRow>, invalid: seq<InvalidRow>): Preview {
    Preview(classified, invalid, Summary(
      CountOf(classified, IMPORTABLE), CountOf(classified, DUPLICATE), CountOf(classified, NEEDS_REVIEW), |invalid|))
  }

  /** Every row is counted once. */
  lemma {:induction false} CountsAddUp(classified: seq<ClassifiedRow>)
    ensures CountOf(classified, IMPORTABLE) + CountOf(classified, DUPLICATE) + CountOf(classified, NEEDS_REVIEW) == |classified|
  {
    if classified != [] { CountsAddUp(classified[..|classified| - 1]); }
  }

  /** The places of the rows with a status. */
  ghost function Places(classified: seq<ClassifiedRow>, status: RowStatus): set<nat> {
    set k: nat | k < |classified| && classified[k].status == status
  }

  lemma {:induction false} CountIsOfPlaces(classified: seq<ClassifiedRow>, status: RowStatus)
    ensures CountOf(classified, status) == |Places(classified, status)|
  {
    if classified != [] {
      var n := |classified| - 1;
      CountIsOfPlaces(classified[..n], status);
      var before := Places(classified[..n], status);
      assert Places(classified, status) == if classified[n].status == status then before + {n} else before;
    }
  }

  /** The preview lists the rows as they were classified, and its summary counts each kind. */
  lemma SummaryCountsEachKind(classified: seq<ClassifiedRow>, invalid: seq<InvalidRow>)
    ensures var preview := Summarize(classified, invalid);
            && preview.rows == classified && preview.invalid == invalid
            && preview.summary.importable == |Places(classified, IMPORTABLE)|
            && preview.summary.duplicates == |Places(classified, DUPLICATE)|
            && preview.summary.needsReview == |Places(classified, NEEDS_REVIEW)|
            && preview.summary.invalid == |invalid|
  {
    CountIsOfPlaces(classified, IMPORTABLE);
    CountIsOfPlaces(classified, DUPLICATE);
    CountIsOfPlaces(classified, NEEDS_REVIEW);
  }

  lemma {:induction false} CreatedCount(issuer: string, classified: seq<ClassifiedRow>)
    requires Completes(classified)
    ensures |Created(issuer, classified)| == CountOf(classified, IMPORTABLE)
  {
    if classified != [] { CreatedCount(issuer, classified[..|classified| - 1]); }
  }

  // The key tells invoices apart ------------------------------------------------------------------------

  /** A digit string ends at the first bar. */
  lemma BarSplits(a: string, x: string, b: string, y: string)
    requires AllDigits(a) && AllDigits(b) && a + "|" + x == b + "|" + y
    ensures a == b && x == y
  {
    var text := a + "|" + x;
    assert text == b + "|" + y;
    assert text[|a|] == '|' && text[|b|] == '|';
    forall i | 0 <= i < |a| ensures text[i] != '|' { assert IsDigit(a[i]); }
    forall i | 0 <= i < |b| ensures text[i] != '|' { assert IsDigit(b[i]); }
    assert |a| == |b|;
    assert text[..|a|] == a && text[..|b|] == b;
    assert text[|a| + 1..] == x && text[|b| + 1..] == y;
  }

  /** Two CUIT-type-point-number keys are the same text only if they are the same four fields. */
  lemma KeysAreInjective(a: string, t: nat, s: nat, n: nat, a': string, t': nat, s': nat, n': nat)
    requires AllDigits(a) && AllDigits(a')
    ensures KeyText(a, t, s, n) == KeyText(a', t', s', n') <==> a == a' && t == t' && s == s' && n == n'
  {
    if KeyText(a, t, s, n) == KeyText(a', t', s', n') {
      hide Digits;
      BarSplits(a, Digits(t) + "|" + (Digits(s) + "|" + Digits(n)), a', Digits(t') + "|" + (Digits(s') + "|" + Digits(n')));
      BarSplits(Digits(t), Digits(s) + "|" + Digits(n), Digits(t'), Digits(s') + "|" + Digits(n'));
      BarSplits(Digits(s), Digits(n), Digits(s'), Digits(n'));
      ValueOfDigits(t);
      ValueOfDigits(t');
      ValueOfDigits(s);
      ValueOfDigits(s');
      ValueOfDigits(n);
      ValueOfDigits(n');
    }
  }

  predicate SameIdentity(row: ParsedRow, invoice: Invoice) {
    && row.supplierCuit == invoice.supplierCuit && row.invoiceType == invoice.invoiceType
    && row.salesPoint == invoice.salesPoint && row.number == invoice.number
  }

  ghost predicate CuitsAreDigits(purchases: seq<Invoice>) {
    forall i | 0 <= i < |purchases| :: AllDigits(purchases[i].supplierCuit)
  }

  lemma KeyIsStored(purchases: seq<Invoice>, issuer: string, rows: seq<ParsedRow>, row: ParsedRow)
    requires CuitsAreDigits(purchases) && row in rows && AllDigits(row.supplierCuit)
    ensures RowKey(row) in ExistingKeys(purchases, issuer, rows) <==>
            exists i :: 0 <= i < |purchases| && purchases[i].issuer == issuer && SameIdentity(row, purchases[i])
  {
    forall i | 0 <= i < |purchases|
      ensures RowKey(row) == InvoiceKey(purchases[i]) <==> SameIdentity(row, purchases[i])
    {
      KeysAreInjective(row.supplierCuit, row.invoiceType, row.salesPoint, row.number,
                       purchases[i].supplierCuit, purchases[i].invoiceType, purchases[i].salesPoint, purchases[i].number);
    }
    hide KeyText, InvoiceKey, RowKey;
    var k :| 0 <= k < |rows| && rows[k] == row;
    if i :| 0 <= i < |purchases| && purchases[i].issuer == issuer && SameIdentity(row, purchases[i]) {
      assert purchases[i].supplierCuit == rows[k].supplierCuit;
    }
  }

  /** A row of the file is a duplicate exactly when the issuer already has an invoice with its supplier,
      type, sales point and number. */
  lemma DuplicateIffStored(purchases: seq<Invoice>, issuer: string, rows: seq<ParsedRow>, row: ParsedRow)
    requires CuitsAreDigits(purchases) && row in rows && AllDigits(row.supplierCuit)
    ensures Classify(row, ExistingKeys(purchases, issuer, rows)).status == DUPLICATE <==>
            exists i :: 0 <= i < |purchases| && purchases[i].issuer == issuer && SameIdentity(row, purchases[i])
  {
    KeyIsStored(purchases, issuer, rows, row);
    hide RowKey, InferIvaRate, FarFrom, ExistingKeys, SameIdentity;
  }

  // What is created comes from the file, in order -------------------------------------------------------

  /** Whether an import gets as far as the row and stores it. */
  predicate IsCreated(classified: seq<ClassifiedRow>, k: nat)
    requires k < |classified|
  {
    classified[k].status == IMPORTABLE && Completes(classified[..k + 1])
  }

  lemma IsCreatedFacts(classified: seq<ClassifiedRow>, k: nat, n: nat)
    requires k < |classified| && n <= |classified|
    ensures IsCreated(classified, k) ==> Storable(classified[k])
    ensures k < n ==> (IsCreated(classified[..n], k) <==> IsCreated(classified, k))
    ensures k + 1 == |classified| ==>
              (IsCreated(classified, k) <==> classified[k].status == IMPORTABLE && Completes(classified))
  {
    if IsCreated(classified, k) { assert classified[..k + 1][k] == classified[k]; }
    if k < n { assert classified[..n][..k + 1] == classified[..k + 1]; }
    if k + 1 == |classified| { assert classified[..k + 1] == classified; }
  }

  /** The invoice is what a row of the file becomes. */
  ghost predicate Imports(issuer: string, classified: seq<ClassifiedRow>, k: nat, invoice: Invoice)
    requires k < |classified|
  {
    IsCreated(classified, k) && Storable(classified[k]) && invoice == InvoiceFor(issuer, classified[k])
  }

  lemma {:induction false} CreatedComesFrom(issuer: string, classified: seq<ClassifiedRow>, i: nat)
    requires i < |Created(issuer, classified)|
    ensures exists k :: 0 <= k < |classified| && Imports(issuer, classified, k, Created(issuer, classified)[i])
    decreases |classified|
  {
    hide InvoiceFor, IsCreated;
    var n := |classified| - 1;
    var before := Created(issuer, classified[..n]);
    IsCreatedFacts(classified, n, n);
    if i < |before| {
      CreatedComesFrom(issuer, classified[..n], i);
      var k :| 0 <= k < n && Imports(issuer, classified[..n], k, before[i]);
      IsCreatedFacts(classified, k, n);
      assert Imports(issuer, classified, k, Created(issuer, classified)[i]);
    } else {
      assert Imports(issuer, classified, n, Created(issuer, classified)[i]);
    }
  }

  /** Two created invoices come from two rows, the earlier from the earlier ... */
  lemma {:induction false} CreatedPair(issuer: string, classified: seq<ClassifiedRow>, i: nat, j: nat)
    requires i < j < |Created(issuer, classified)|
    ensures exists k, m :: 0 <= k < m < |classified|
              && Imports(issuer, classified, k, Created(issuer, classified)[i])
              && Imports(issuer, classified, m, Created(issuer, classified)[j])
    decreases |classified|
  {
    hide InvoiceFor, IsCreated;
    var n := |classified| - 1;
    var before := Created(issuer, classified[..n]);
    IsCreatedFacts(classified, n, n);
    if j < |before| {
      CreatedPair(issuer, classified[..n], i, j);
      var k, m :| 0 <= k < m < n && Imports(issuer, classified[..n], k, before[i])
                  && Imports(issuer, classified[..n], m, before[j]);
      IsCreatedFacts(classified, k, n);
      IsCreatedFacts(classified, m, n);
      assert Imports(issuer, classified, k, Created(issuer, classified)[i]);
      assert Imports(issuer, classified, m, Created(issuer, classified)[j]);
    } else {
      CreatedComesFrom(issuer, classified[..n], i);
      var k :| 0 <= k < n && Imports(issuer, classified[..n], k, before[i]);
      IsCreatedFacts(classified, k, n);
      assert Imports(issuer, classified, k, Created(issuer, classified)[i]);
      assert Imports(issuer, classified, n, Created(issuer, classified)[j]);
    }
  }

  lemma LastRow(issuer: string, classified: seq<ClassifiedRow>)
    requires classified != []
    ensures var n := |classified| - 1;
            var before, created := Created(issuer, classified[..n]), Created(issuer, classified);
            if IsCreated(classified, n)
            then Storable(classified[n]) && created == before + [InvoiceFor(issuer, classified[n])]
            else created == before
  {
    hide InvoiceFor;
    IsCreatedFacts(classified, |classified| - 1, |classified|);
  }

  lemma {:induction false} RowIsCreated(issuer: string, classified: seq<ClassifiedRow>, k: nat)
    requires k < |classified| && IsCreated(classified, k)
    ensures Storable(classified[k]) && InvoiceFor(issuer, classified[k]) in Created(issuer, classified)
    decreases |classified|
  {
    hide InvoiceFor, Storable, IsCreated, Created, Completes;
    var n := |classified| - 1;
    IsCreatedFacts(classified, k, n);
    LastRow(issuer, classified);
    if k < n {
      assert classified[..n][k] == classified[k];
      RowIsCreated(issuer, classified[..n], k);
    }
  }

  /** ... and two rows become two invoices. */
  lemma {:induction false} RowsAreCreated(issuer: string, classified: seq<ClassifiedRow>, k: nat, m: nat)
    requires k < m < |classified| && IsCreated(classified, k) && IsCreated(classified, m)
    ensures Storable(classified[k]) && Storable(classified[m])
    ensures StandInOrder(Created(issuer, classified), InvoiceFor(issuer, classified[k]), InvoiceFor(issuer, classified[m]))
    decreases |classified|
  {
    hide InvoiceFor, Storable, IsCreated, Created, Completes, StandInOrder;
    var n := |classified| - 1;
    IsCreatedFacts(classified, k, n);
    IsCreatedFacts(classified, m, n);
    if m < n {
      assert classified[..n][k] == classified[k] && classified[..n][m] == classified[m];
      RowsAreCreated(issuer, classified[..n], k, m);
      CreatedBefore(issuer, classified);
      StillInOrder(Created(issuer, classified[..n]), Created(issuer, classified),
                   InvoiceFor(issuer, classified[k]), InvoiceFor(issuer, classified[m]));
    } else {
      RowIsCreated(issuer, classified[..n], k);
      LastInOrder(issuer, classified, InvoiceFor(issuer, classified[k]));
    }
  }

  lemma CreatedBefore(issuer: string, classified: seq<ClassifiedRow>)
    requires classified != []
    ensures Created(issuer, classified[..|classified| - 1]) <= Created(issuer, classified)
  {
    LastRow(issuer, classified);
    hide InvoiceFor, Created;
  }

  lemma LastInOrder(issuer: string, classified: seq<ClassifiedRow>, first: Invoice)
    requires classified != [] && IsCreated(classified, |classified| - 1) && Storable(classified[|classified| - 1])
    requires first in Created(issuer, classified[..|classified| - 1])
    ensures StandInOrder(Created(issuer, classified), first, InvoiceFor(issuer, classified[|classified| - 1]))
  {
    LastRow(issuer, classified);
    hide InvoiceFor, Created, IsCreated, Storable;
    var before, created := Created(issuer, classified[..|classified| - 1]), Created(issuer, classified);
    var i :| 0 <= i < |before| && before[i] == first;
    assert created[i] == first && created[|before|] == InvoiceFor(issuer, classified[|classified| - 1]);
  }

  ghost predicate StandInOrder(created: seq<Invoice>, first: Invoice, second: Invoice) {
    exists i, j :: 0 <= i < j < |created| && created[i] == first && created[j] == second
  }

  lemma StillInOrder(before: seq<Invoice>, created: seq<Invoice>, first: Invoice, second: Invoice)
    requires before <= created && StandInOrder(before, first, second)
    ensures StandInOrder(created, first, second)
  {
    var i, j :| 0 <= i < j < |before| && before[i] == first && before[j] == second;
    assert created[i] == first && created[j] == second;
  }

  /** The row's taxed amounts stand in the pair named after its rate, and nowhere else; what is exempt and
      untaxed stays what it was. */
  ghost predicate Carries(a: PurchaseAmounts, row: ParsedRow) {
    var rate := InferIvaRate(row);
    && (if rate == Some(210) then a.netAmount21 == row.netTaxed && a.iva21 == row.ivaAmount
        else a.netAmount21 == a.iva21 == 0.0)
    && (if rate == Some(105) then a.netAmount105 == row.netTaxed && a.iva105 == row.ivaAmount
        else a.netAmount105 == a.iva105 == 0.0)
    && (if rate == Some(270) then a.netAmount27 == row.netTaxed && a.iva27 == row.ivaAmount
        else a.netAmount27 == a.iva27 == 0.0)
    && a.exempt == row.exempt && a.untaxed == row.untaxed
  }

  /** The invoice carries the row's identity, the day its date comes to, its amounts, and for a total their sum
      to the nearest cent, which is within one cent of the row's. */
  ghost predicate Follows(invoice: Invoice, row: ParsedRow) {
    var a := invoice.amounts;
    && SameIdentity(row, invoice) && invoice.supplierName == row.supplierName
    && Dates.IsTaken(row.issueDate) && invoice.issueDate == Dates.DateOfText(row.issueDate)
    && Carries(a, row)
    && invoice.total as real - 0.5
       <= 100.0 * (a.netAmount21 + a.iva21 + a.netAmount105 + a.iva105 + a.netAmount27 + a.iva27 + a.exempt + a.untaxed)
       < invoice.total as real + 0.5
    && -0.01 <= invoice.total as real / 100.0 - row.total <= 0.01
  }

  /** What the row's amounts come to once those of a rate without columns are left out, in cents. */
  ghost predicate ComesTo(row: ParsedRow, cents: int) {
    var taxed := if InferIvaRate(row) in {Some(210), Some(105), Some(270)} then row.netTaxed + row.ivaAmount else 0.0;
    cents as real - 0.5 <= 100.0 * (taxed + row.exempt + row.untaxed) < cents as real + 0.5
  }

  lemma RebuiltTotal(row: ParsedRow, rate: nat, cents: int)
    requires InferIvaRate(row) == Some(rate) && ComesTo(row, cents)
    ensures PurchaseInvoiceTotal(AmountsForRate(row, rate)) == cents
  {
    hide InferIvaRate;
    var a := AmountsForRate(row, rate);
    var taxed := if rate in {210, 105, 270} then row.netTaxed + row.ivaAmount else 0.0;
    assert a.netAmount21 + a.iva21 + a.netAmount105 + a.iva105 + a.netAmount27 + a.iva27 == taxed;
    RoundIs(100.0 * (taxed + row.exempt + row.untaxed), cents);
  }

  /** A row that is not stored yet is importable exactly when it has one rate and its amounts come to its total
      within a cent; otherwise it needs review. */
  lemma ImportableIff(row: ParsedRow, existing: set<string>, cents: int)
    requires RowKey(row) !in existing && ComesTo(row, cents)
    ensures var c := Classify(row, existing);
            && c.row == row && c.ivaRate == InferIvaRate(row)
            && c.status == if InferIvaRate(row).Some? && -0.01 <= cents as real / 100.0 - row.total <= 0.01
                           then IMPORTABLE else NEEDS_REVIEW
  {
    hide InferIvaRate, RowKey, ComesTo, PurchaseInvoiceTotal, AmountsForRate;
    if InferIvaRate(row).Some? { RebuiltTotal(row, InferIvaRate(row).value, cents); }
  }

  lemma ImportableFollows(issuer: string, row: ParsedRow, existing: set<string>)
    requires Classify(row, existing).status == IMPORTABLE && Storable(Classify(row, existing))
    ensures InvoiceFor(issuer, Classify(row, existing)).issuer == issuer
    ensures Follows(InvoiceFor(issuer, Classify(row, existing)), row)
  {}

  /** A purchase of the issuer that some row of the file became. */
  ghost predicate ComesFrom(invoice: Invoice, issuer: string, rows: seq<ParsedRow>) {
    invoice.issuer == issuer && exists k :: 0 <= k < |rows| && Follows(invoice, rows[k])
  }

  lemma CreatedFollow(issuer: string, rows: seq<ParsedRow>, existing: set<string>, i: nat)
    requires i < |Created(issuer, ClassifyAll(rows, existing))|
    ensures ComesFrom(Created(issuer, ClassifyAll(rows, existing))[i], issuer, rows)
  {
    hide Classify, Created, InvoiceFor, Follows;
    var classified := ClassifyAll(rows, existing);
    CreatedComesFrom(issuer, classified, i);
    var k :| 0 <= k < |classified| && Imports(issuer, classified, k, Created(issuer, classified)[i]);
    ImportableFollows(issuer, rows[k], existing);
  }

  // The service -----------------------------------------------------------------------------------------

  ghost predicate RowsAreDigits(rows: seq<ParsedRow>) {
    forall i | 0 <= i < |rows| :: AllDigits(rows[i].supplierCuit)
  }

  /** What the parser lets through has digits for a CUIT. */
  lemma ParsedCuitsAreDigits(csv: ParsedCsv, headers: seq<string>, delimiter: char, dataLines: seq<string>)
    requires Sorted(csv.rows, csv.invalid, headers, delimiter, dataLines, |dataLines|)
    ensures RowsAreDigits(csv.rows)
  {
    hide ParseRow;
    forall i | 0 <= i < |csv.rows| ensures AllDigits(csv.rows[i].supplierCuit) {
      var k := csv.rows[i].line - FIRST_DATA_LINE_NUMBER;
      ParsedRowFacts(headers, SplitFields(dataLines[k], delimiter), csv.rows[i].line);
    }
  }

  lemma CreatedAllFollow(purchases: seq<Invoice>, issuer: string, rows: seq<ParsedRow>, existing: set<string>)
    ensures var after := purchases + Created(issuer, ClassifyAll(rows, existing));
            forall i | |purchases| <= i < |after| :: ComesFrom(after[i], issuer, rows)
  {
    hide ComesFrom, Created;
    var created := Created(issuer, ClassifyAll(rows, existing));
    var after := purchases + created;
    forall i | |purchases| <= i < |after|
      ensures ComesFrom(after[i], issuer, rows)
    {
      assert after[i] == created[i - |purchases|];
      CreatedFollow(issuer, rows, existing, i - |purchases|);
    }
  }

  /** A row that cannot be stored ends the import: nothing after it is created. */
  lemma {:induction false} StopsAt(issuer: string, classified: seq<ClassifiedRow>, k: nat)
    requires k < |classified| && classified[k].status == IMPORTABLE && !Storable(classified[k])
    ensures !Completes(classified) && Created(issuer, classified) == Created(issuer, classified[..k])
    decreases |classified|
  {
    hide InvoiceFor, Storable;
    var n := |classified| - 1;
    if k < n {
      StopsAt(issuer, classified[..n], k);
      assert classified[..n][..k] == classified[..k];
      assert !Completes(classified) by { assert classified[k].status == IMPORTABLE; }
    }
  }

  lemma NothingYet(issuer: string, classified: seq<ClassifiedRow>)
    ensures Completes(classified[..0]) && Created(issuer, classified[..0]) == []
  {}

  /** One row more: it is stored if it is importable and can be. */
  lemma OneMoreRow(issuer: string, classified: seq<ClassifiedRow>, k: nat)
    requires k < |classified| && Completes(classified[..k])
    ensures Completes(classified[..k + 1]) <==> (classified[k].status == IMPORTABLE ==> Storable(classified[k]))
    ensures Completes(classified[..k + 1]) ==>
              Created(issuer, classified[..k + 1])
              == Created(issuer, classified[..k])
                 + if classified[k].status == IMPORTABLE then [InvoiceFor(issuer, classified[k])] else []
  {
    hide InvoiceFor, Storable;
    assert classified[..k + 1][..k] == classified[..k];
    if classified[k].status == IMPORTABLE ==> Storable(classified[k]) {
      var upTo := classified[..k + 1];
      forall m | 0 <= m <= k && upTo[m].status == IMPORTABLE ensures Storable(upTo[m]) {
        if m < k { assert classified[..k][m] == upTo[m]; }
      }
    }
  }

  datatype ImportResult = Imported(preview: Preview) | NotThisKind | Stopped

  class PurchaseImportService {
    var purchases: seq<Invoice>

    constructor ()
      ensures purchases == []
    {
      purchases := [];
    }

    /** `import`, once the file is parsed; `None` is the exception of a row that cannot be stored, and what was
        created before it stays. */
    method Import(issuer: string, csv: ParsedCsv) returns (preview: Option<Preview>)
      modifies this
      ensures var classified := ClassifyAll(csv.rows, ExistingKeys(old(purchases), issuer, csv.rows));
              && purchases == old(purchases) + Created(issuer, classified)
              && preview == if Completes(classified) then Some(Summarize(classified, csv.invalid)) else None
      ensures forall i | |old(purchases)| <= i < |purchases| :: ComesFrom(purchases[i], issuer, csv.rows)
    {
      var existing := ExistingKeys(purchases, issuer, csv.rows);
      var classified := ClassifyAll(csv.rows, existing);
      ghost var was := purchases;
      CreatedAllFollow(was, issuer, csv.rows, existing);
      NothingYet(issuer, classified);
      hide Completes, Created, InvoiceFor, ComesFrom, Classify, ExistingKeys, ClassifyAll, Storable;
      for k := 0 to |classified|
        invariant Completes(classified[..k])
        invariant purchases == old(purchases) + Created(issuer, classified[..k])
      {
        var row := classified[k];
        OneMoreRow(issuer, classified, k);
        if row.status == IMPORTABLE {
          if !Storable(row) {
            StopsAt(issuer, classified, k);
            assert purchases == was + Created(issuer, classified);
            return None;
          }
          purchases := purchases + [InvoiceFor(issuer, row)];
        }
      }
      assert classified[..|classified|] == classified;
      assert purchases == was + Created(issuer, classified);
      return Some(Summarize(classified, csv.invalid));
    }

    /** `import` from the file's text.  A file that is not of this kind changes nothing; an import that completes
        has counted every data line exactly once in its summary. */
    method ImportFile(issuer: string, text: string, normalize: string -> string) returns (result: ImportResult)
      modifies this
      ensures result.NotThisKind? ==> purchases == old(purchases)
      ensures result.Imported? ==>
                var s := result.preview.summary;
                LinesOf(text) != [] && s.importable + s.duplicates + s.needsReview + s.invalid == |LinesOf(text)| - 1
      ensures result.Imported? ==> |purchases| == |old(purchases)| + result.preview.summary.importable
      ensures result.Imported? ==> Completes(result.preview.rows)
      ensures result.Stopped? ==> old(purchases) <= purchases
    {
      var parsed := ParseMisComprobantesCsv(text, normalize);
      if !parsed.Parsed? { return NotThisKind; }
      var imported := Import(issuer, parsed.csv);
      if imported.None? { return Stopped; }
      CountsAddUp(imported.value.rows);
      CreatedCount(issuer, imported.value.rows);
      return Imported(imported.value);
    }
  }

  // Once more -------------------------------------------------------------------------------------------

  lemma {:induction false} CreatedCuits(issuer: string, classified: seq<ClassifiedRow>)
    requires forall i | 0 <= i < |classified| :: AllDigits(classified[i].row.supplierCuit)
    ensures CuitsAreDigits(Created(issuer, classified))
  {
    if classified != [] { CreatedCuits(issuer, classified[..|classified| - 1]); }
  }

  lemma {:induction false} NothingImportable(issuer: string, classified: seq<ClassifiedRow>)
    requires forall i | 0 <= i < |classified| :: classified[i].status != IMPORTABLE
    ensures Created(issuer, classified) == []
  {
    if classified != [] { NothingImportable(issuer, classified[..|classified| - 1]); }
  }

  /** After a completed import, no row of the same file is importable any more. */
  lemma NotImportableAgain(purchases: seq<Invoice>, issuer: string, rows: seq<ParsedRow>, k: nat)
    requires CuitsAreDigits(purchases) && RowsAreDigits(rows) && k < |rows|
    requires Completes(ClassifyAll(rows, ExistingKeys(purchases, issuer, rows)))
    ensures var existing := ExistingKeys(purchases, issuer, rows);
            var after := purchases + Created(issuer, ClassifyAll(rows, existing));
            Classify(rows[k], ExistingKeys(after, issuer, rows)).status != IMPORTABLE
  {
    var existing := ExistingKeys(purchases, issuer, rows);
    var classified := ClassifyAll(rows, existing);
    var created := Created(issuer, classified);
    CreatedCuits(issuer, classified);
    assert CuitsAreDigits(purchases + created);
    KeyIsStored(purchases, issuer, rows, rows[k]);
    KeyIsStored(purchases + created, issuer, rows, rows[k]);
    if classified[k].status == IMPORTABLE {
      CompletedCreatesImportable(classified, k);
      RowIsCreated(issuer, classified, k);
      hide Created, ExistingKeys, RowKey, AmountsForRate, Completes, IsCreated, InferIvaRate, FarFrom, Storable;
      var i :| 0 <= i < |created| && created[i] == InvoiceFor(issuer, classified[k]);
      assert SameIdentity(rows[k], created[i]) && created[i].issuer == issuer;
      assert (purchases + created)[|purchases| + i] == created[i];
    } else {
      hide Created, ExistingKeys, RowKey, InferIvaRate, FarFrom;
      if i :| 0 <= i < |purchases| && purchases[i].issuer == issuer && SameIdentity(rows[k], purchases[i]) {
        assert (purchases + created)[i] == purchases[i];
      }
    }
  }

  /** Repeating a completed import creates nothing. */
  lemma RepeatedImportCreatesNothing(purchases: seq<Invoice>, issuer: string, rows: seq<ParsedRow>)
    requires CuitsAreDigits(purchases) && RowsAreDigits(rows)
    requires Completes(ClassifyAll(rows, ExistingKeys(purchases, issuer, rows)))
    ensures var after := purchases + Created(issuer, ClassifyAll(rows, ExistingKeys(purchases, issuer, rows)));
            Created(issuer, ClassifyAll(rows, ExistingKeys(after, issuer, rows))) == []
  {
    var after := purchases + Created(issuer, ClassifyAll(rows, ExistingKeys(purchases, issuer, rows)));
    var again := ClassifyAll(rows, ExistingKeys(after, issuer, rows));
    forall k: nat | k < |again| ensures again[k].status != IMPORTABLE { NotImportableAgain(purchases, issuer, rows, k); }
    NothingImportable(issuer, again);
  }

  lemma {:induction false} LineDoesNotMatter(row: ParsedRow, line: nat, rates: seq<nat>)
    requires row.netTaxed != 0.0
    ensures FirstFit(row.(line := line), rates) == FirstFit(row, rates)
  {
    if rates != [] { LineDoesNotMatter(row, line, rates[1..]); }
  }

  // When no invoice is stored twice -----------------------------------------------------------------------

  predicate SameInvoice(a: Invoice, b: Invoice) {
    && a.supplierCuit == b.supplierCuit && a.invoiceType == b.invoiceType
    && a.salesPoint == b.salesPoint && a.number == b.number
  }

  /** No two purchases of the issuer are the same invoice. */
  ghost predicate NoneTwice(purchases: seq<Invoice>, issuer: string) {
    forall i, j | 0 <= i < j < |purchases| && purchases[i].issuer == issuer && purchases[j].issuer == issuer ::
      !SameInvoice(purchases[i], purchases[j])
  }

  /** No two of the rows that the import stores have the same key. */
  ghost predicate KeysDiffer(classified: seq<ClassifiedRow>) {
    forall k, m | 0 <= k < m < |classified| && IsCreated(classified, k) && IsCreated(classified, m) ::
      RowKey(classified[k].row) != RowKey(classified[m].row)
  }

  /** Of an import that completes, those are the importable rows. */
  lemma CompletedCreatesImportable(classified: seq<ClassifiedRow>, k: nat)
    requires Completes(classified) && k < |classified|
    ensures IsCreated(classified, k) <==> classified[k].status == IMPORTABLE
  {}

  lemma SameKeySameInvoice(issuer: string, c: ClassifiedRow, d: ClassifiedRow)
    requires AllDigits(c.row.supplierCuit) && AllDigits(d.row.supplierCuit) && Storable(c) && Storable(d)
    ensures RowKey(c.row) == RowKey(d.row) <==> SameInvoice(InvoiceFor(issuer, c), InvoiceFor(issuer, d))
  {
    KeysAreInjective(c.row.supplierCuit, c.row.invoiceType, c.row.salesPoint, c.row.number,
                     d.row.supplierCuit, d.row.invoiceType, d.row.salesPoint, d.row.number);
    hide KeyText;
  }

  /** Among what one import creates. */
  lemma CreatedNoneTwice(issuer: string, classified: seq<ClassifiedRow>)
    requires forall k | 0 <= k < |classified| :: AllDigits(classified[k].row.supplierCuit)
    ensures NoneTwice(Created(issuer, classified), issuer) <==> KeysDiffer(classified)
  {
    hide Created, RowKey, SameInvoice;
    var created := Created(issuer, classified);
    if KeysDiffer(classified) {
      forall i, j | 0 <= i < j < |created| ensures !SameInvoice(created[i], created[j]) {
        CreatedPair(issuer, classified, i, j);
        var k: nat, m: nat :| k < m < |classified| && Imports(issuer, classified, k, created[i])
                              && Imports(issuer, classified, m, created[j]);
        SameKeySameInvoice(issuer, classified[k], classified[m]);
      }
    }
    if NoneTwice(created, issuer) {
      forall k, m | 0 <= k < m < |classified| && IsCreated(classified, k) && IsCreated(classified, m)
        ensures RowKey(classified[k].row) != RowKey(classified[m].row)
      {
        RowsAreCreated(issuer, classified, k, m);
        var i, j :| 0 <= i < j < |created| && created[i] == InvoiceFor(issuer, classified[k])
                    && created[j] == InvoiceFor(issuer, classified[m]);
        SameKeySameInvoice(issuer, classified[k], classified[m]);
      }
    }
  }

  /** Nothing created is already stored. */
  lemma CreatedAreNew(purchases: seq<Invoice>, issuer: string, rows: seq<ParsedRow>, i: nat, j: nat)
    requires CuitsAreDigits(purchases) && RowsAreDigits(rows) && i < |purchases| && purchases[i].issuer == issuer
    requires j < |Created(issuer, ClassifyAll(rows, ExistingKeys(purchases, issuer, rows)))|
    ensures !SameInvoice(purchases[i], Created(issuer, ClassifyAll(rows, ExistingKeys(purchases, issuer, rows)))[j])
  {
    hide Created, RowKey, InferIvaRate, FarFrom, ExistingKeys, AmountsForRate;
    var classified := ClassifyAll(rows, ExistingKeys(purchases, issuer, rows));
    CreatedComesFrom(issuer, classified, j);
    var k :| 0 <= k < |classified| && Imports(issuer, classified, k, Created(issuer, classified)[j]);
    DuplicateIffStored(purchases, issuer, rows, rows[k]);
    assert !SameIdentity(rows[k], purchases[i]);
  }

  /** An import, completed or not, leaves no invoice stored twice exactly when no two of the rows it stores have
      the same key: the rows are compared with what was stored before, not with each other. */
  lemma ImportStoresNoneTwiceIff(purchases: seq<Invoice>, issuer: string, rows: seq<ParsedRow>)
    requires CuitsAreDigits(purchases) && RowsAreDigits(rows) && NoneTwice(purchases, issuer)
    ensures var classified := ClassifyAll(rows, ExistingKeys(purchases, issuer, rows));
            NoneTwice(purchases + Created(issuer, classified), issuer) <==> KeysDiffer(classified)
  {
    var classified := ClassifyAll(rows, ExistingKeys(purchases, issuer, rows));
    var created := Created(issuer, classified);
    CreatedNoneTwice(issuer, classified);
    forall i, j: nat | 0 <= i < |purchases| && j < |created| && purchases[i].issuer == issuer
      ensures !SameInvoice(purchases[i], created[j])
    {
      CreatedAreNew(purchases, issuer, rows, i, j);
    }
    hide Created, KeysDiffer, SameInvoice, Classify, ExistingKeys, ClassifyAll, NoneTwice;
    JoinedNoneTwice(purchases, created, issuer);
  }

  lemma JoinedNoneTwice(purchases: seq<Invoice>, created: seq<Invoice>, issuer: string)
    requires NoneTwice(purchases, issuer)
    requires forall i, j: nat | 0 <= i < |purchases| && j < |created| && purchases[i].issuer == issuer ::
               !SameInvoice(purchases[i], created[j])
    ensures NoneTwice(purchases + created, issuer) <==> NoneTwice(created, issuer)
  {
    hide SameInvoice;
    var after := purchases + created;
    if NoneTwice(created, issuer) {
      forall i, j | 0 <= i < j < |after| && after[i].issuer == issuer && after[j].issuer == issuer
        ensures !SameInvoice(after[i], after[j])
      {
        if i >= |purchases| { assert after[i] == created[i - |purchases|] && after[j] == created[j - |purchases|]; }
        else if j >= |purchases| { assert after[j] == created[j - |purchases|]; }
      }
    }
    if NoneTwice(after, issuer) {
      forall i, j | 0 <= i < j < |created| && created[i].issuer == issuer && created[j].issuer == issuer
        ensures !SameInvoice(created[i], created[j])
      {
        assert after[|purchases| + i] == created[i] && after[|purchases| + j] == created[j];
      }
    }
  }

  // Dates the calendar lacks ------------------------------------------------------------------------------

  /** The parser lets through no text but dates, though it does not ask whether the calendar has them. */
  lemma ParsedDatesAreIso(raw: string)
    requires ParseArcaDate(raw).Got?
    ensures Dates.IsIsoDate(ParseArcaDate(raw).value)
  {
    var s := ParseArcaDate(raw).value;
    if s == raw[..10] {
      assert s[..4] == raw[..4] && s[5..7] == raw[5..7] && s[8..] == raw[8..10];
    } else {
      assert s[..4] == raw[6..10] && s[5..7] == raw[3..5] && s[8..] == raw[..2];
    }
  }

  /** A date with its month second, as "01/13/2026", is read, and ends the import that meets it. */
  lemma AThirteenthMonthIsReadButNotStored()
    ensures ParseArcaDate("01/13/2026") == Got("2026-13-01") && !Dates.IsTaken("2026-13-01")
  {
    var raw := "01/13/2026";
    assert !IsDigit(raw[..4][2]) && "2026" + "-" + "13" + "-" + "01" == "2026-13-01";
    assert raw[..2] == "01" && raw[3..5] == "13" && raw[6..10] == "2026" && raw[..4][2] == '/';
    assert "2026-13-01"[5..7] == "13" && "13"[..1] == "1" && "1"[..0] == "";
    assert Value("1") == 1 && Value("13") == 13;
  }

  /** An invoice of 100 pesos and 21 of IVA. */
  function SampleRow(line: nat, number: nat, issueDate: string): ParsedRow {
    ParsedRow(line, "30000000007", "supplier", 1, 1, number, issueDate, 100.0, 0.0, 0.0, 21.0, 121.0)
  }

  lemma SampleIsImportable(line: nat, number: nat, issueDate: string)
    ensures Classify(SampleRow(line, number, issueDate), {}).status == IMPORTABLE
  {
    var row := SampleRow(line, number, issueDate);
    assert Fits(row, 210);
    InferredRateIsTheFit(row, 210);
    RoundIs(12100.0, 12100);
    hide Fits, FirstFit, RowKey;
  }

  /** Of two good rows the second of which has such a date, the first is stored and no summary is given. */
  lemma AnImportStopsHalfway(issuer: string)
    ensures var rows := [SampleRow(2, 1, "2026-01-13"), SampleRow(3, 2, "2026-13-01")];
            var classified := ClassifyAll(rows, {});
            !Completes(classified) && |Created(issuer, classified)| == 1
  {
    var rows := [SampleRow(2, 1, "2026-01-13"), SampleRow(3, 2, "2026-13-01")];
    var classified := ClassifyAll(rows, {});
    SampleIsImportable(2, 1, "2026-01-13");
    SampleIsImportable(3, 2, "2026-13-01");
    AThirteenthMonthIsReadButNotStored();
    JanuaryIsTaken();
    hide Classify, Dates.IsTaken;
    StopsAt(issuer, classified, 1);
    OneMoreRow(issuer, classified, 0);
    assert Created(issuer, classified[..0]) == [];
  }

  lemma JanuaryIsTaken()
    ensures Dates.IsTaken("2026-01-13")
  {
    var s := "2026-01-13";
    assert s[..4] == "2026" && s[5..7] == "01" && s[8..] == "13";
    assert "01"[..1] == "0" && "0"[..0] == "" && "13"[..1] == "1" && "1"[..0] == "";
    assert Value("0") == 0 && Value("01") == 1 && Value("1") == 1 && Value("13") == 13;
  }

  /** What an import does not catch: an invoice listed twice in one file is created twice. */
  lemma TwiceInOneFileIsImportedTwice(issuer: string, row: ParsedRow, line: nat, existing: set<string>)
    requires Classify(row, existing).status == IMPORTABLE && Dates.IsTaken(row.issueDate)
    ensures |Created(issuer, ClassifyAll([row, row.(line := line)], existing))| == 2
  {
    var again := row.(line := line);
    if row.netTaxed != 0.0 { LineDoesNotMatter(row, line, IvaCalculator.IVA_RATES); }
    assert Classify(again, existing).status == IMPORTABLE;
    hide Classify;
    var classified := ClassifyAll([row, again], existing);
    CreatedCount(issuer, classified);
    var first := classified[..1];
    assert classified[0].status == IMPORTABLE && classified[1].status == IMPORTABLE;
    assert first == [classified[0]] && first[..0] == [];
    assert CountOf(first, IMPORTABLE) == 1;
    assert CountOf(classified, IMPORTABLE) == CountOf(first, IMPORTABLE) + 1;
  }
}
