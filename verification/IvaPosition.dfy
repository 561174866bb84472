/** The monthly IVA position: debit and credit grouped by rate across vouchers. */
module IvaPosition {
  import opened Common
  import opened Money
  import opened TaxBreakdown
  import opened VoucherTypes
  import opened SalesBook

  datatype Purchase = Purchase(invoiceType: int, iva21: int, iva105: int, iva27: int)

  datatype PositionRow = PositionRow(rate: nat, debit: int, credit: int, balance: int)

  datatype Position = Position(breakdown: seq<PositionRow>, totalDebit: int, totalCredit: int, balance: int)

  const RATE_21: nat := 210
  const RATE_105: nat := 105
  const RATE_27: nat := 270

  const EMPTY := RateMap([], map[])

  // Accumulating by rate ------------------------------------------------------------------------------

  ghost predicate WellKept(m: RateMap) {
    DistinctRates(m.order) && forall r: nat :: r in m.order <==> r in m.amounts
  }

  function AddTo(m: RateMap, rate: nat, amount: int): RateMap {
    RateMap(if rate in m.amounts then m.order else m.order + [rate], m.amounts[rate := Get(m, rate) + amount])
  }

  lemma AddedIsKept(m: RateMap, rate: nat, amount: int)
    requires WellKept(m)
    ensures WellKept(AddTo(m, rate, amount))
  {}

  lemma ChangedTotal(m: RateMap, k: nat, amount: int)
    requires k < |m.order| && DistinctRates(m.order) && forall r | r in m.order :: r in m.amounts
    ensures IvaTotal(RateMap(m.order, m.amounts[m.order[k] := amount])) == IvaTotal(m) - m.amounts[m.order[k]] + amount
  {
    hide DistinctRates, IvaTotal, LookupTotal;
    IvaTotalIsLookup(m);
    ChangedLookup(m.amounts, m.order, k, amount);
    IvaTotalIsLookup(RateMap(m.order, m.amounts[m.order[k] := amount]));
  }

  lemma AddedToPresent(m: RateMap, rate: nat, amount: int)
    requires WellKept(m) && rate in m.amounts
    ensures WellKept(AddTo(m, rate, amount)) && IvaTotal(AddTo(m, rate, amount)) == IvaTotal(m) + amount
  {
    hide WellKept, DistinctRates, IvaTotal;
    AddedIsKept(m, rate, amount);
    KeptFacts(m);
    var k := PlaceOf(m, rate);
    ChangedTotal(m, k, m.amounts[rate] + amount);
    assert AddTo(m, rate, amount) == RateMap(m.order, m.amounts[m.order[k] := m.amounts[rate] + amount]);
  }

  lemma KeptFacts(m: RateMap)
    requires WellKept(m)
    ensures DistinctRates(m.order) && forall r | r in m.order :: r in m.amounts
  {}

  lemma PlaceOf(m: RateMap, rate: nat) returns (k: nat)
    requires WellKept(m) && rate in m.amounts
    ensures k < |m.order| && m.order[k] == rate
  {
    k :| 0 <= k < |m.order| && m.order[k] == rate;
  }

  lemma AddedToAbsent(m: RateMap, rate: nat, amount: int)
    requires WellKept(m) && rate !in m.amounts
    ensures WellKept(AddTo(m, rate, amount)) && IvaTotal(AddTo(m, rate, amount)) == IvaTotal(m) + amount
  {
    AddedIsKept(m, rate, amount);
    var m' := AddTo(m, rate, amount);
    IvaTotalIsLookup(m);
    IvaTotalIsLookup(m');
    LookupConcat(m'.amounts, m.order, [rate]);
    assert [rate][1..] == [];
    hide IvaTotal;
    SameLookup(m.amounts, m'.amounts, m.order);
  }

  /** Adding to a rate adds to it alone, and to the total. */
  lemma AddedTotal(m: RateMap, rate: nat, amount: int)
    requires WellKept(m)
    ensures WellKept(AddTo(m, rate, amount))
    ensures forall r: nat :: Get(AddTo(m, rate, amount), r) == Get(m, r) + if r == rate then amount else 0
    ensures IvaTotal(AddTo(m, rate, amount)) == IvaTotal(m) + amount
  {
    hide IvaTotal, WellKept;
    if rate in m.amounts { AddedToPresent(m, rate, amount); } else { AddedToAbsent(m, rate, amount); }
  }

  lemma {:induction false} SameLookup(m: map<nat, int>, m': map<nat, int>, rates: seq<nat>)
    requires forall r | r in rates :: r in m && r in m' && m[r] == m'[r]
    ensures LookupTotal(m, rates) == LookupTotal(m', rates)
  {
    if rates != [] { SameLookup(m, m', rates[1..]); }
  }

  lemma {:induction false} ChangedLookup(m: map<nat, int>, rates: seq<nat>, k: nat, amount: int)
    requires k < |rates| && DistinctRates(rates) && forall r | r in rates :: r in m
    ensures LookupTotal(m[rates[k] := amount], rates) == LookupTotal(m, rates) - m[rates[k]] + amount
  {
    if k == 0 {
      SameLookup(m, m[rates[0] := amount], rates[1..]);
    } else {
      ChangedLookup(m, rates[1..], k - 1, amount);
    }
  }

  // Debit ---------------------------------------------------------------------------------------------

  function DebitAt(vouchers: seq<TaxedVoucher>, rate: nat): int {
    if vouchers == [] then 0
    else
      var last := vouchers[|vouchers| - 1];
      DebitAt(vouchers[..|vouchers| - 1], rate)
      + VoucherSign(last.voucherType) * Get(BreakdownOf(last).ivaByRate, rate)
  }

  lemma BreakdownIsWellKept(v: TaxedVoucher)
    ensures WellKept(BreakdownOf(v).ivaByRate)
  {
    IvaRatesAreThose(v.voucherType, v.items);
    hide ColumnSum, IvaRatesOf, ColumnOf;
  }

  /** The first k rates of a map. */
  function Prefix(m: RateMap, k: nat): RateMap
    requires k <= |m.order|
  {
    RateMap(m.order[..k], map r | r in m.order[..k] && r in m.amounts :: m.amounts[r])
  }

  lemma PrefixIsKept(m: RateMap, k: nat)
    requires WellKept(m) && k <= |m.order|
    ensures WellKept(Prefix(m, k))
  {}

  lemma PrefixAdds(m: RateMap, k: nat)
    requires WellKept(m) && k < |m.order|
    ensures Prefix(m, k + 1) == AddTo(Prefix(m, k), m.order[k], m.amounts[m.order[k]])
  {}

  lemma PrefixGrows(m: RateMap, k: nat)
    requires WellKept(m) && k < |m.order|
    ensures WellKept(Prefix(m, k)) && WellKept(Prefix(m, k + 1))
    ensures forall r: nat :: Get(Prefix(m, k + 1), r) == Get(Prefix(m, k), r) + if r == m.order[k] then m.amounts[r] else 0
    ensures IvaTotal(Prefix(m, k + 1)) == IvaTotal(Prefix(m, k)) + m.amounts[m.order[k]]
  {
    PrefixIsKept(m, k);
    PrefixIsKept(m, k + 1);
    PrefixAdds(m, k);
    AddedTotal(Prefix(m, k), m.order[k], m.amounts[m.order[k]]);
  }

  lemma WholePrefix(m: RateMap)
    requires WellKept(m)
    ensures Prefix(m, |m.order|) == m
  {}

  lemma EmptyPrefix(m: RateMap)
    ensures WellKept(Prefix(m, 0)) && IvaTotal(Prefix(m, 0)) == 0 && forall r: nat :: Get(Prefix(m, 0), r) == 0
  {}

  function Scaled(sign: int, amount: int): int {
    sign * amount
  }

  lemma ScaledAdds(sign: int, x: int, y: int)
    ensures Scaled(sign, x + y) == Scaled(sign, x) + Scaled(sign, y) && Scaled(sign, x + 0) == Scaled(sign, x)
  {}

  /** What the first k rates of a voucher have added to the debit. */
  ghost predicate Partly(added: RateMap, debit: RateMap, sign: int, part: RateMap) {
    && WellKept(added)
    && IvaTotal(added) == IvaTotal(debit) + Scaled(sign, IvaTotal(part))
    && forall r: nat :: Get(added, r) == Get(debit, r) + Scaled(sign, Get(part, r))
  }

  lemma OneMoreRateTotal(
      added: RateMap, debit: RateMap, sign: int, part: RateMap, grown: RateMap, rate: nat, amount: int)
    requires Partly(added, debit, sign, part) && IvaTotal(grown) == IvaTotal(part) + amount
    requires forall r: nat :: Get(grown, r) == Get(part, r) + if r == rate then amount else 0
    ensures Partly(AddTo(added, rate, Scaled(sign, amount)), debit, sign, grown)
  {
    hide IvaTotal, AddTo, WellKept, Get, Scaled;
    AddedTotal(added, rate, Scaled(sign, amount));
    ScaledAdds(sign, IvaTotal(part), amount);
    ScaledAdds(sign, Get(part, rate), amount);
  }

  lemma OneMoreRate(added: RateMap, debit: RateMap, sign: int, taxes: RateMap, k: nat)
    requires WellKept(taxes) && k < |taxes.order| && taxes.order[k] in taxes.amounts
    requires Partly(added, debit, sign, Prefix(taxes, k))
    ensures Partly(AddTo(added, taxes.order[k], Scaled(sign, taxes.amounts[taxes.order[k]])), debit, sign, Prefix(taxes, k + 1))
  {
    hide IvaTotal, Prefix, AddTo, WellKept, Get, Scaled, Partly;
    PrefixGrows(taxes, k);
    OneMoreRateTotal(added, debit, sign, Prefix(taxes, k), Prefix(taxes, k + 1), taxes.order[k], taxes.amounts[taxes.order[k]]);
  }

  /** The inner loop of `computeDebit`: one voucher's amounts, rate by rate. */
  method AddVoucher(debit: RateMap, sign: int, taxes: RateMap) returns (added: RateMap)
    requires WellKept(debit) && WellKept(taxes)
    ensures Partly(added, debit, sign, taxes)
  {
    KeptFacts(taxes);
    EmptyPrefix(taxes);
    WholePrefix(taxes);
    added := debit;
    hide WellKept, IvaTotal, Prefix, Get, AddTo, DistinctRates;
    for k := 0 to |taxes.order|
      invariant Partly(added, debit, sign, Prefix(taxes, k))
    {
      hide Partly;
      OneMoreRate(added, debit, sign, taxes, k);
      added := AddTo(added, taxes.order[k], Scaled(sign, taxes.amounts[taxes.order[k]]));
    }
  }

  method ComputeDebit(vouchers: seq<TaxedVoucher>) returns (debit: RateMap)
    ensures WellKept(debit) && IvaTotal(debit) == SignedIvaTotal(vouchers)
    ensures forall r: nat :: Get(debit, r) == DebitAt(vouchers, r)
  {
    debit := EMPTY;
    for n := 0 to |vouchers|
      invariant WellKept(debit) && IvaTotal(debit) == SignedIvaTotal(vouchers[..n])
      invariant forall r: nat :: Get(debit, r) == DebitAt(vouchers[..n], r)
    {
      var voucher := vouchers[n];
      var sign := VoucherSign(voucher.voucherType);
      var taxes := BreakDownVoucherTaxes(voucher);
      BreakdownIsWellKept(voucher);
      assert vouchers[..n + 1][..n] == vouchers[..n];
      debit := AddVoucher(debit, sign, taxes.ivaByRate);
      hide IvaTotal, BreakdownOf, VoucherSign, WellKept, Get;
    }
    assert vouchers[..|vouchers|] == vouchers;
  }

  /** The debit at a rate is what the entries of the sales book list at that rate, summed. */
  lemma {:induction false} DebitIsTheBooks(vouchers: seq<BookVoucher>, rate: nat, amounts: seq<int>)
    requires |amounts| == |vouchers|
    requires forall i | 0 <= i < |vouchers| :: ListsAt(Entries(vouchers)[i].ivaByRate, rate, amounts[i])
    ensures DebitAt(Taxed(vouchers), rate) == Total(amounts)
    decreases |vouchers|
  {
    if vouchers != [] {
      var n := |vouchers| - 1;
      hide ListsAt, ToEntry, BreakdownOf, VoucherSign;
      EntryListsItsIva(vouchers[n], rate, amounts[n]);
      forall i | 0 <= i < n ensures ListsAt(Entries(vouchers[..n])[i].ivaByRate, rate, amounts[..n][i]) {
        assert ListsAt(Entries(vouchers)[i].ivaByRate, rate, amounts[i]);
      }
      DebitIsTheBooks(vouchers[..n], rate, amounts[..n]);
      assert Taxed(vouchers)[..n] == Taxed(vouchers[..n]);
    }
  }

  // Credit --------------------------------------------------------------------------------------------

  function PurchaseIva(p: Purchase): int {
    VoucherSign(p.invoiceType) * (p.iva21 + p.iva105 + p.iva27)
  }

  function PurchaseIvaAt(p: Purchase, rate: nat): int {
    VoucherSign(p.invoiceType)
    * (if rate == RATE_21 then p.iva21 else if rate == RATE_105 then p.iva105 else if rate == RATE_27 then p.iva27 else 0)
  }

  function CreditTotal(purchases: seq<Purchase>): int {
    if purchases == [] then 0
    else CreditTotal(purchases[..|purchases| - 1]) + PurchaseIva(purchases[|purchases| - 1])
  }

  function CreditAt(purchases: seq<Purchase>, rate: nat): int {
    if purchases == [] then 0
    else
      var last := purchases[|purchases| - 1];
      CreditAt(purchases[..|purchases| - 1], rate) + PurchaseIvaAt(last, rate)
  }

  /** The signed amounts of one of the purchases' three fields. */
  ghost predicate AreSigned(purchases: seq<Purchase>, amounts: seq<int>, fieldOf: Purchase -> int) {
    && |amounts| == |purchases|
    && forall i | 0 <= i < |purchases| ::
         amounts[i] == if IsCreditNote(purchases[i].invoiceType) then -fieldOf(purchases[i]) else fieldOf(purchases[i])
  }

  /** The credit at 21%, 10.5% and 27% sums the purchases' field of that name, those of credit notes taken
      away; there is no credit at another rate, and the three together are the total. */
  lemma {:induction false} CreditIsOfTheThreeFields(purchases: seq<Purchase>, at21: seq<int>, at105: seq<int>,
                                                    at27: seq<int>)
    requires AreSigned(purchases, at21, (p: Purchase) => p.iva21)
    requires AreSigned(purchases, at105, (p: Purchase) => p.iva105)
    requires AreSigned(purchases, at27, (p: Purchase) => p.iva27)
    ensures CreditAt(purchases, 210) == Total(at21)
    ensures CreditAt(purchases, 105) == Total(at105)
    ensures CreditAt(purchases, 270) == Total(at27)
    ensures forall rate: nat | rate !in {210, 105, 270} :: CreditAt(purchases, rate) == 0
    ensures CreditTotal(purchases) == Total(at21) + Total(at105) + Total(at27)
    decreases |purchases|
  {
    if purchases != [] {
      hide IsCreditNote;
      var n := |purchases| - 1;
      CreditIsOfTheThreeFields(purchases[..n], at21[..n], at105[..n], at27[..n]);
    }
  }

  /** The `add` of `computeCredit`: an amount of zero does not create its rate. */
  function AddCredit(m: RateMap, rate: nat, amount: int): RateMap {
    if amount != 0 then AddTo(m, rate, amount) else m
  }

  lemma CreditAdded(m: RateMap, rate: nat, amount: int)
    requires WellKept(m)
    ensures WellKept(AddCredit(m, rate, amount)) && IvaTotal(AddCredit(m, rate, amount)) == IvaTotal(m) + amount
    ensures forall r: nat :: Get(AddCredit(m, rate, amount), r) == Get(m, r) + if r == rate then amount else 0
  {
    AddedTotal(m, rate, amount);
  }

  /** One purchase's three amounts, negated for a credit note. */
  method AddPurchase(credit: RateMap, purchase: Purchase) returns (added: RateMap)
    requires WellKept(credit)
    ensures WellKept(added) && IvaTotal(added) == IvaTotal(credit) + PurchaseIva(purchase)
    ensures forall r: nat :: Get(added, r) == Get(credit, r) + PurchaseIvaAt(purchase, r)
  {
    var sign := VoucherSign(purchase.invoiceType);
    hide IvaTotal, AddCredit, WellKept, Get, IsCreditNote;
    CreditAdded(credit, RATE_21, sign * purchase.iva21);
    added := AddCredit(credit, RATE_21, sign * purchase.iva21);
    CreditAdded(added, RATE_105, sign * purchase.iva105);
    added := AddCredit(added, RATE_105, sign * purchase.iva105);
    CreditAdded(added, RATE_27, sign * purchase.iva27);
    added := AddCredit(added, RATE_27, sign * purchase.iva27);
  }

  method ComputeCredit(purchases: seq<Purchase>) returns (credit: RateMap)
    ensures WellKept(credit) && IvaTotal(credit) == CreditTotal(purchases)
    ensures forall r: nat :: Get(credit, r) == CreditAt(purchases, r)
  {
    credit := EMPTY;
    for n := 0 to |purchases|
      invariant WellKept(credit) && IvaTotal(credit) == CreditTotal(purchases[..n])
      invariant forall r: nat :: Get(credit, r) == CreditAt(purchases[..n], r)
    {
      assert purchases[..n + 1][..n] == purchases[..n];
      hide IvaTotal, WellKept, Get, PurchaseIva, PurchaseIvaAt;
      credit := AddPurchase(credit, purchases[n]);
    }
    assert purchases[..|purchases|] == purchases;
  }

  // The position ----------------------------------------------------------------------------------------

  /** The rates of either map, each once. */
  function RatesOfBoth(debit: seq<nat>, credit: seq<nat>): seq<nat> {
    if credit == [] then debit
    else
      var before := RatesOfBoth(debit, credit[..|credit| - 1]);
      var last := credit[|credit| - 1];
      if last in before then before else before + [last]
  }

  lemma {:induction false} BothAreThere(debit: seq<nat>, credit: seq<nat>)
    requires DistinctRates(debit)
    ensures DistinctRates(RatesOfBoth(debit, credit))
    ensures forall r: nat :: r in RatesOfBoth(debit, credit) <==> r in debit || r in credit
  {
    if credit != [] {
      BothAreThere(debit, credit[..|credit| - 1]);
      assert credit == credit[..|credit| - 1] + [credit[|credit| - 1]];
    }
  }

  function GetTotal(m: RateMap, rates: seq<nat>): int {
    if rates == [] then 0 else GetTotal(m, rates[..|rates| - 1]) + Get(m, rates[|rates| - 1])
  }

  lemma {:induction false} GetTotalStep(m: RateMap, grown: RateMap, rate: nat, amount: int, rates: seq<nat>)
    requires DistinctRates(rates)
    requires forall r: nat :: Get(grown, r) == Get(m, r) + if r == rate then amount else 0
    ensures GetTotal(grown, rates) == GetTotal(m, rates) + if rate in rates then amount else 0
  {
    if rates != [] {
      var last := |rates| - 1;
      GetTotalStep(m, grown, rate, amount, rates[..last]);
      assert rates == rates[..last] + [rates[last]];
      hide Get;
    }
  }

  lemma {:induction false} NothingToGet(rates: seq<nat>)
    ensures GetTotal(EMPTY, rates) == 0
  {
    if rates != [] { NothingToGet(rates[..|rates| - 1]); }
  }

  /** Summing over any listing that has all of a map's rates sums the whole map. */
  lemma {:induction false} TotalOverAnyListing(m: RateMap, k: nat, rates: seq<nat>)
    requires WellKept(m) && k <= |m.order| && DistinctRates(rates) && forall r | r in m.order :: r in rates
    ensures WellKept(Prefix(m, k)) && GetTotal(Prefix(m, k), rates) == IvaTotal(Prefix(m, k))
    decreases k
  {
    PrefixIsKept(m, k);
    if k == 0 {
      assert Prefix(m, 0) == EMPTY;
      NothingToGet(rates);
    } else {
      TotalOverAnyListing(m, k - 1, rates);
      PrefixGrows(m, k - 1);
      assert m.order[k - 1] in rates;
      hide WellKept, IvaTotal, Prefix, Get, DistinctRates;
      GetTotalStep(Prefix(m, k - 1), Prefix(m, k), m.order[k - 1], m.amounts[m.order[k - 1]], rates);
    }
  }

  lemma ListingTotal(m: RateMap, rates: seq<nat>)
    requires WellKept(m) && DistinctRates(rates) && forall r | r in m.order :: r in rates
    ensures GetTotal(m, rates) == IvaTotal(m)
  {
    TotalOverAnyListing(m, |m.order|, rates);
    WholePrefix(m);
  }

  lemma SortedListing(debit: RateMap, credit: RateMap)
    requires WellKept(debit) && WellKept(credit)
    ensures var rates := SortDescending(RatesOfBoth(debit.order, credit.order));
            && DistinctRates(rates) && Descending(rates)
            && forall r: nat :: r in rates <==> r in debit.amounts || r in credit.amounts
  {
    var both := RatesOfBoth(debit.order, credit.order);
    BothAreThere(debit.order, credit.order);
    SortKeeps(both);
    SortedElements(both);
    hide RatesOfBoth, SortDescending;
    SameElementsDistinct(both, SortDescending(both));
  }

  lemma NoRatesYet(m: RateMap)
    ensures GetTotal(m, []) == 0
  {}

  lemma NextRate(m: RateMap, rates: seq<nat>, k: nat)
    requires k < |rates|
    ensures GetTotal(m, rates[..k + 1]) == GetTotal(m, rates[..k]) + Get(m, rates[k])
  {
    assert rates[..k + 1][..k] == rates[..k];
  }

  /** The listing and summing half of `getMonthlyPosition`. */
  method ListPosition(debit: RateMap, credit: RateMap, rates: seq<nat>) returns (position: Position)
    requires WellKept(debit) && WellKept(credit) && DistinctRates(rates)
    requires (forall r | r in debit.order :: r in rates) && forall r | r in credit.order :: r in rates
    ensures |position.breakdown| == |rates|
    ensures forall i | 0 <= i < |rates| :: position.breakdown[i] == RowAt(debit, credit, rates[i])
    ensures position.totalDebit == IvaTotal(debit) && position.totalCredit == IvaTotal(credit)
    ensures position.balance == position.totalDebit - position.totalCredit
  {
    hide IvaTotal, WellKept, Get, RowAt, DistinctRates, Round, GetTotal;
    ListingTotal(debit, rates);
    ListingTotal(credit, rates);
    NoRatesYet(debit);
    NoRatesYet(credit);
    var breakdown: seq<PositionRow>, totalDebit, totalCredit := [], 0, 0;
    for k := 0 to |rates|
      invariant |breakdown| == k && forall i | 0 <= i < k :: breakdown[i] == RowAt(debit, credit, rates[i])
      invariant totalDebit == GetTotal(debit, rates[..k]) && totalCredit == GetTotal(credit, rates[..k])
    {
      var row := RowAt(debit, credit, rates[k]);
      RowIs(debit, credit, rates[k]);
      NextRate(debit, rates, k);
      NextRate(credit, rates, k);
      breakdown, totalDebit, totalCredit := breakdown + [row], totalDebit + row.debit, totalCredit + row.credit;
    }
    assert rates[..|rates|] == rates;
    RoundWhole(totalDebit);
    RoundWhole(totalCredit);
    RoundWhole(totalDebit - totalCredit);
    position := Position(breakdown, Round(totalDebit as real), Round(totalCredit as real),
                         Round((totalDebit - totalCredit) as real));
  }

  /** `getMonthlyPosition`: rate by rate, and in total.  The total debit, grouped by rate across all the
      vouchers, is to the cent the IVA total of the sales book, grouped by voucher and then summed. */
  method GetMonthlyPosition(vouchers: seq<BookVoucher>, purchases: seq<Purchase>) returns (position: Position)
    ensures position.totalDebit == BuildSalesBook(vouchers).totals.iva
    ensures position.totalCredit == CreditTotal(purchases)
    ensures position.balance == position.totalDebit - position.totalCredit
    ensures forall i | 0 <= i < |position.breakdown| ::
              var row := position.breakdown[i];
              row.debit == DebitAt(Taxed(vouchers), row.rate) && row.credit == CreditAt(purchases, row.rate)
              && row.balance == row.debit - row.credit
    ensures forall i, j | 0 <= i < j < |position.breakdown| :: position.breakdown[i].rate > position.breakdown[j].rate
    ensures forall r: nat | DebitAt(Taxed(vouchers), r) != 0 || CreditAt(purchases, r) != 0 ::
              exists i :: 0 <= i < |position.breakdown| && position.breakdown[i].rate == r
  {
    var debit := ComputeDebit(Taxed(vouchers));
    var credit := ComputeCredit(purchases);
    BookIva(vouchers);
    SortedListing(debit, credit);
    KeptKeys(debit);
    KeptKeys(credit);
    var rates := SortDescending(RatesOfBoth(debit.order, credit.order));
    hide SortDescending, RatesOfBoth, IvaTotal, BuildSalesBook, Taxed, SignedIvaTotal, WellKept, Get, DebitAt, CreditAt;
    position := ListPosition(debit, credit, rates);
    RowsAre(vouchers, purchases, debit, credit, rates, position.breakdown);
    forall i, j | 0 <= i < j < |position.breakdown|
      ensures position.breakdown[i].rate > position.breakdown[j].rate
    {
      assert rates[i] != rates[j] && rates[i] >= rates[j];
    }
  }

  lemma KeptKeys(m: RateMap)
    requires WellKept(m)
    ensures forall r: nat :: r in m.order <==> r in m.amounts
  {}

  lemma RowsAre(
      vouchers: seq<BookVoucher>, purchases: seq<Purchase>, debit: RateMap, credit: RateMap, rates: seq<nat>,
      rows: seq<PositionRow>)
    requires forall r: nat :: Get(debit, r) == DebitAt(Taxed(vouchers), r)
    requires forall r: nat :: Get(credit, r) == CreditAt(purchases, r)
    requires forall r: nat :: r in rates <==> r in debit.amounts || r in credit.amounts
    requires |rows| == |rates| && forall i | 0 <= i < |rows| :: rows[i] == RowAt(debit, credit, rates[i])
    ensures forall i | 0 <= i < |rows| ::
              rows[i].debit == DebitAt(Taxed(vouchers), rows[i].rate) && rows[i].credit == CreditAt(purchases, rows[i].rate)
              && rows[i].balance == rows[i].debit - rows[i].credit
    ensures forall r: nat | DebitAt(Taxed(vouchers), r) != 0 || CreditAt(purchases, r) != 0 ::
              exists i :: 0 <= i < |rows| && rows[i].rate == r
  {}

  function RowAt(debit: RateMap, credit: RateMap, rate: nat): PositionRow {
    var debited, credited := Round(Get(debit, rate) as real), Round(Get(credit, rate) as real);
    PositionRow(rate, debited, credited, Round((debited - credited) as real))
  }

  lemma RowIs(debit: RateMap, credit: RateMap, rate: nat)
    ensures RowAt(debit, credit, rate)
         == PositionRow(rate, Get(debit, rate), Get(credit, rate), Get(debit, rate) - Get(credit, rate))
  {}
}
