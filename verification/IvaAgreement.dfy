/**
 * The two ways of splitting a gross amount agree: for a voucher stored from lines of whole cents in
 * pesos, the books report per rate exactly the IVA that ARCA was told.
 */
module IvaAgreement {
  import opened Common
  import opened Money
  import opened IvaCalculator
  import opened TaxBreakdown
  import VoucherTypes

  /** The stored line: its subtotal is the line's gross to the cent. */
  function Stored(item: Item): StoredItem {
    StoredItem(item.rate, Round(Gross(item)), Some(item.treatment))
  }

  function StoredAll(items: seq<Item>): seq<StoredItem> {
    seq(|items|, i requires 0 <= i < |items| => Stored(items[i]))
  }

  function StoredVoucher(voucherType: int, items: seq<Item>): TaxedVoucher {
    TaxedVoucher(voucherType, Some(LOCAL_EXCHANGE_RATE), StoredAll(items))
  }

  ghost predicate AllWhole(items: seq<Item>) {
    forall i | 0 <= i < |items| :: Whole(items[i])
  }

  // No ties ---------------------------------------------------------------------------------------------

  /** Base and tax of a whole number of cents cannot both be halves: 1000 + rate has no more factors
      of two than 2000, so a tie would make an odd number even. */
  lemma NoTie(gross: int, rate: nat, base: int)
    requires rate in IVA_RATES && rate != 0
    ensures 2 * (1000 + rate) * base != 2000 * gross + 1000 + rate
  {}

  /** Rounding the tax, or subtracting the rounded base: the same cents. */
  lemma RoundedTaxIsComplement(gross: int, rate: nat)
    requires rate in IVA_RATES && rate != 0
    ensures RoundQuotient(gross * rate, 1000 + rate) == gross - BaseOf(gross, rate)
  {
    var m, base := 1000 + rate, BaseOf(gross, rate);
    QuotientBounds(1000 * gross, m);
    NoTie(gross, rate, base);
    var iva := gross - base;
    assert 2 * m * iva == 2 * m * gross - 2 * m * base;
    assert 2 * m * gross == 2000 * gross + 2 * (gross * rate);
    assert 2 * m * (iva + 1) == 2 * m * iva + 2 * m;
    assert 2 * m * (base + 1) == 2 * m * base + 2 * m;
    QuotientIs(gross * rate, m, iva);
  }

  lemma QuotientIs(a: int, b: int, q: int)
    requires b > 0 && 2 * b * q <= 2 * a + b < 2 * b * (q + 1)
    ensures RoundQuotient(a, b) == q
  {
    var p := RoundQuotient(a, b);
    QuotientBounds(a, b);
    if p < q { LargerProduct(2 * b, p + 1, q); }
    if q < p { LargerProduct(2 * b, q + 1, p); }
  }

  // Unrounded sums --------------------------------------------------------------------------------------

  lemma WithoutIvaAdds(x: real, y: real, rate: nat)
    ensures WithoutIva(x + y, rate) == WithoutIva(x, rate) + WithoutIva(y, rate)
  {}

  lemma WithoutIvaOfNothing(rate: nat)
    ensures WithoutIva(0.0, rate) == 0.0
  {}

  /** What a stored line of whole cents adds to the books. */
  lemma StoredShare(voucherType: int, items: seq<Item>, item: Item, column: Column)
    requires VoucherTypes.ReportsIvaToArca(voucherType) && Whole(item)
    ensures var gross := Gross(item).Floor as real;
            Share(StoredVoucher(voucherType, items), Stored(item), column) ==
            (match column
             case IvaColumn(rate) =>
               if rate != 0 && GroupOf(item) == AtRate(rate) then gross - WithoutIva(gross, rate) else 0.0
             case NetColumn => if item.treatment == TAXED then WithoutIva(gross, item.rate) else 0.0
             case ExemptColumn => if item.treatment == EXEMPT then gross else 0.0
             case UntaxedColumn => if item.treatment == UNTAXED then gross else 0.0)
  {
    VoucherTypes.ReportingTypesBearIva(voucherType);
    RoundWhole(Gross(item).Floor);
    if item.rate == 0 { assert WithoutIva(Gross(item).Floor as real, 0) == Gross(item).Floor as real; }
    hide Gross, WithoutIva;
  }

  /** The IVA in a whole number of cents, unrounded. */
  function TaxIn(gross: int, rate: nat): real {
    gross as real - WithoutIva(gross as real, rate)
  }

  lemma TaxAdds(x: int, y: int, rate: nat)
    ensures TaxIn(x + y, rate) == TaxIn(x, rate) + TaxIn(y, rate) && TaxIn(0, rate) == 0.0
  {}

  lemma OneMoreBooksLine(voucherType: int, items: seq<Item>, n: nat, rate: nat)
    requires VoucherTypes.ReportsIvaToArca(voucherType) && AllWhole(items) && n < |items| && rate != 0
    ensures var v := StoredVoucher(voucherType, items);
            ColumnSum(v, v.items[..n + 1], IvaColumn(rate)) == ColumnSum(v, v.items[..n], IvaColumn(rate))
            + if GroupOf(items[n]) == AtRate(rate) then TaxIn(Gross(items[n]).Floor, rate) else 0.0
  {
    hide Gross, ColumnOf, WithoutIva, ColumnSum, IvaRatesOf, Share;
    OneMoreLine(StoredVoucher(voucherType, items), n);
    StoredShare(voucherType, items, items[n], IvaColumn(rate));
    hide Stored, Whole;
  }

  lemma {:induction false} BooksIvaAtRate(voucherType: int, items: seq<Item>, n: nat, rate: nat)
    requires VoucherTypes.ReportsIvaToArca(voucherType) && AllWhole(items) && n <= |items| && rate != 0
    ensures var v := StoredVoucher(voucherType, items);
            ColumnSum(v, v.items[..n], IvaColumn(rate)) == TaxIn(WholeIn(items[..n], AtRate(rate)), rate)
  {
    if n == 0 {
      TaxAdds(0, 0, rate);
    } else {
      hide ColumnSum, WholeIn, Gross, TaxIn, StoredVoucher, AllWhole;
      BooksIvaAtRate(voucherType, items, n - 1, rate);
      OneMoreBooksLine(voucherType, items, n - 1, rate);
      OneMoreWhole(items, n - 1, AtRate(rate));
      TaxAdds(WholeIn(items[..n - 1], AtRate(rate)), Gross(items[n - 1]).Floor, rate);
    }
  }

  lemma OneMoreWhole(items: seq<Item>, n: nat, g: Group)
    requires n < |items|
    ensures WholeIn(items[..n + 1], g) == WholeIn(items[..n], g) + if InGroup(items[n], g) then Gross(items[n]).Floor else 0
  {
    assert items[..n + 1][..n] == items[..n];
  }

  // Per rate, to the cent -----------------------------------------------------------------------------

  lemma TaxAsFraction(gross: int, rate: nat)
    ensures TaxIn(gross, rate) == (gross * rate) as real / (1000 + rate) as real
  {}

  /** The IVA per rate in the books equals the IVA per rate sent to ARCA, exactly, and both list the
      same positive rates. */
  lemma SameIvaPerRate(voucherType: int, items: seq<Item>, rate: nat)
    requires VoucherTypes.ReportsIvaToArca(voucherType) && AllWhole(items)
    requires RatesAreMapped(items) && rate != 0
    ensures var books := BreakdownOf(StoredVoucher(voucherType, items)).ivaByRate;
            && (rate in books.order <==> rate in RatesOf(items))
            && (rate in books.order ==>
                  rate in books.amounts && books.amounts[rate] == EntryFor(items, rate).amount)
  {
    SplitsMappedRates(items);
    var v := StoredVoucher(voucherType, items);
    SamePositiveRates(voucherType, items, rate);
    if rate in RatesOf(items) {
      assert rate in IVA_RATES;
      var gross := WholeIn(items, AtRate(rate));
      BooksIvaAtRate(voucherType, items, |items|, rate);
      assert items[..|items|] == items && v.items[..|items|] == v.items;
      TaxAsFraction(gross, rate);
      RoundOfQuotient(gross * rate, 1000 + rate);
      RoundedTaxIsComplement(gross, rate);
      WholeGroups(items, AtRate(rate));
      hide WholeIn, GrossIn, ColumnSum, WithoutIva, Round, BaseOf, RoundQuotient, RatesOf, IvaRatesOf, StoredAll;
    }
  }

  lemma SamePositiveRates(voucherType: int, items: seq<Item>, rate: nat)
    requires VoucherTypes.ReportsIvaToArca(voucherType) && rate != 0
    ensures rate in IvaRatesOf(voucherType, StoredAll(items)) <==> rate in RatesOf(items)
  {
    var stored := StoredAll(items);
    VoucherTypes.ReportingTypesBearIva(voucherType);
    RatesAreThose(items);
    IvaRatesAreThose(voucherType, stored);
    assert forall i | 0 <= i < |items| ::
             ColumnOf(voucherType, stored[i]) == IvaColumn(rate) <==> GroupOf(items[i]) == AtRate(rate);
    hide ColumnOf, GroupOf, RatesOf, IvaRatesOf, StoredAll, Stored;
    if i: int :| 0 <= i < |items| && GroupOf(items[i]) == AtRate(rate) {
      assert ColumnOf(voucherType, stored[i]) == IvaColumn(rate);
    }
  }

  // The other columns ---------------------------------------------------------------------------------

  lemma {:induction false} BooksColumn(voucherType: int, items: seq<Item>, n: nat, column: Column, g: Group)
    requires VoucherTypes.ReportsIvaToArca(voucherType) && AllWhole(items) && n <= |items|
    requires (column == ExemptColumn && g == Exempt) || (column == UntaxedColumn && g == Untaxed)
    ensures var v := StoredVoucher(voucherType, items);
            ColumnSum(v, v.items[..n], column) == WholeIn(items[..n], g) as real
  {
    if n > 0 {
      var v := StoredVoucher(voucherType, items);
      BooksColumn(voucherType, items, n - 1, column, g);
      OneMoreLine(v, n - 1);
      StoredShare(voucherType, items, items[n - 1], column);
      OneMoreWhole(items, n - 1, g);
      hide ColumnSum, WholeIn, Gross, Share, IvaRatesOf, WithoutIva;
    }
  }

  /** For lines of whole cents in pesos, the books report as exempt and as untaxed exactly what ARCA was told. */
  lemma SameExemptAndUntaxed(voucherType: int, items: seq<Item>, tributes: seq<Tribute>)
    requires VoucherTypes.ReportsIvaToArca(voucherType) && AllWhole(items) && RatesAreMapped(items)
    ensures AmountsOf(voucherType, items, tributes).Some?
    ensures var a, books := AmountsOf(voucherType, items, tributes).value, BreakdownOf(StoredVoucher(voucherType, items));
            books.exempt == a.exempt && books.untaxed == a.untaxed
  {
    SplitsMappedRates(items);
    var v := StoredVoucher(voucherType, items);
    BooksColumn(voucherType, items, |items|, ExemptColumn, Exempt);
    BooksColumn(voucherType, items, |items|, UntaxedColumn, Untaxed);
    assert items[..|items|] == items && v.items[..|items|] == v.items;
    WholeGroups(items, Exempt);
    WholeGroups(items, Untaxed);
    hide WholeIn, GrossIn, ColumnSum, Round, IvaRatesOf, StoredAll, SplitOf, TributeEntries, TributeTotal;
  }

  // The two nets ----------------------------------------------------------------------------------------

  function NetOver(items: seq<Item>, rates: seq<nat>): real {
    if rates == [] then 0.0
    else NetOver(items, rates[..|rates| - 1])
         + WithoutIva(WholeIn(items, AtRate(rates[|rates| - 1])) as real, rates[|rates| - 1])
  }

  lemma {:induction false} OneMoreItemNet(items: seq<Item>, n: nat, rates: seq<nat>)
    requires n < |items| && DistinctRates(rates)
    ensures NetOver(items[..n + 1], rates) == NetOver(items[..n], rates)
            + if items[n].treatment == TAXED && items[n].rate in rates
              then WithoutIva(Gross(items[n]).Floor as real, items[n].rate) else 0.0
  {
    if rates != [] {
      var last := |rates| - 1;
      OneMoreItemNet(items, n, rates[..last]);
      OneMoreWhole(items, n, AtRate(rates[last]));
      assert rates == rates[..last] + [rates[last]];
      WithoutIvaAdds(WholeIn(items[..n], AtRate(rates[last])) as real, Gross(items[n]).Floor as real, rates[last]);
      hide WholeIn, Gross, WithoutIva;
    }
  }

  lemma {:induction false} NothingNet(rates: seq<nat>)
    ensures NetOver([], rates) == 0.0
  {
    if rates != [] {
      NothingNet(rates[..|rates| - 1]);
      WithoutIvaOfNothing(rates[|rates| - 1]);
    }
  }

  lemma {:induction false} BooksNet(voucherType: int, items: seq<Item>, n: nat, rates: seq<nat>)
    requires VoucherTypes.ReportsIvaToArca(voucherType) && AllWhole(items) && n <= |items|
    requires DistinctRates(rates) && forall i | 0 <= i < |items| && items[i].treatment == TAXED :: items[i].rate in rates
    ensures var v := StoredVoucher(voucherType, items);
            ColumnSum(v, v.items[..n], NetColumn) == NetOver(items[..n], rates)
  {
    if n == 0 {
      NothingNet(rates);
    } else {
      BooksNet(voucherType, items, n - 1, rates);
      OneMoreLine(StoredVoucher(voucherType, items), n - 1);
      StoredShare(voucherType, items, items[n - 1], NetColumn);
      OneMoreItemNet(items, n - 1, rates);
      hide ColumnSum, IvaRatesOf, Share, WithoutIva, Gross, NetOver;
    }
  }

  function PositiveRates(rates: seq<nat>): nat {
    if rates == [] then 0
    else PositiveRates(rates[..|rates| - 1]) + if rates[|rates| - 1] == 0 then 0 else 1
  }

  /** Rounding each base moves the net by at most half a cent per positive rate. */
  lemma {:induction false} NetDrift(items: seq<Item>, rates: seq<nat>)
    requires AllWhole(items)
    ensures var net := Total(Bases(Entries(items, rates))) as real;
            -0.5 * PositiveRates(rates) as real <= net - NetOver(items, rates) <= 0.5 * PositiveRates(rates) as real
  {
    if rates != [] {
      var last := |rates| - 1;
      var rate := rates[last];
      NetDrift(items, rates[..last]);
      assert rates == rates[..last] + [rate];
      OneMoreEntry(items, rates[..last], rate);
      WholeGroups(items, AtRate(rate));
      BaseIsRounded(WholeIn(items, AtRate(rate)), rate);
      if rate == 0 { assert WithoutIva(WholeIn(items, AtRate(0)) as real, 0) == WholeIn(items, AtRate(0)) as real; }
      if rate == 0 { RoundWhole(WholeIn(items, AtRate(0))); }
      hide WholeIn, GrossIn, WithoutIva, BaseOf, Entries, Bases, Total;
    }
  }

  /** The net in the books and the net sent to ARCA differ by at most half a cent per positive rate
      plus half a cent. */
  lemma NetsAreClose(voucherType: int, items: seq<Item>)
    requires VoucherTypes.ReportsIvaToArca(voucherType) && AllWhole(items) && RatesAreMapped(items)
    ensures SplitOf(items).Split?
    ensures var books := BreakdownOf(StoredVoucher(voucherType, items)).net;
            -(PositiveRates(RatesOf(items)) + 1) <= 2 * (SplitOf(items).net - books) <= PositiveRates(RatesOf(items)) + 1
  {
    SplitsMappedRates(items);
    var v, rates := StoredVoucher(voucherType, items), RatesOf(items);
    RatesAreThose(items);
    forall i | 0 <= i < |items| && items[i].treatment == TAXED ensures items[i].rate in rates {
      assert GroupOf(items[i]) == AtRate(items[i].rate);
    }
    BooksNet(voucherType, items, |items|, rates);
    assert items[..|items|] == items && v.items[..|items|] == v.items;
    NetDrift(items, rates);
    hide RatesOf, NetOver, ColumnSum, Entries, Bases, Total, PositiveRates, IvaRatesOf, StoredAll;
  }
}
