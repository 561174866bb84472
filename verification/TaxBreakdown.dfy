/**
 * What the sales book and the IVA position report of a stored voucher.  Here each line's base is
 * taken unrounded and only the sums are rounded, the other way round from what ARCA is told.
 */
module TaxBreakdown {
  import opened Common
  import opened Money
  import opened IvaCalculator
  import opened VoucherTypes

  /** A stored line: its subtotal in whole cents, and a treatment that old rows may lack. */
  datatype StoredItem = StoredItem(rate: nat, subtotal: int, treatment: Option<Treatment>)

  datatype TaxedVoucher = TaxedVoucher(voucherType: int, exchangeRate: Option<real>, items: seq<StoredItem>)

  /** A map from rates to cents, with the order in which its keys were first set. */
  datatype RateMap = RateMap(order: seq<nat>, amounts: map<nat, int>)

  datatype Breakdown = Breakdown(net: int, exempt: int, untaxed: int, ivaByRate: RateMap)

  const LOCAL_EXCHANGE_RATE := 1.0

  predicate BearsIva(voucherType: int) {
    VoucherLetter(voucherType) in {A, B, M}
  }

  function VoucherSign(voucherType: int): int {
    if IsCreditNote(voucherType) then -1 else 1
  }

  function ToPesos(exchangeRate: Option<real>, amount: real): real {
    amount * if exchangeRate.None? then LOCAL_EXCHANGE_RATE else exchangeRate.value
  }

  // The columns ---------------------------------------------------------------------------------------

  datatype Column = NetColumn | ExemptColumn | UntaxedColumn | IvaColumn(rate: nat)

  /** Where a line goes: one of three plain columns, or split between the net and the IVA at a rate. */
  function ColumnOf(voucherType: int, item: StoredItem): Column {
    if item.treatment == Some(EXEMPT) || VoucherLetter(voucherType) == E then ExemptColumn
    else if item.treatment == Some(UNTAXED) then UntaxedColumn
    else if !BearsIva(voucherType) || item.rate == 0 then NetColumn
    else IvaColumn(item.rate)
  }

  /** What the line adds to a column. */
  function Share(v: TaxedVoucher, item: StoredItem, column: Column): real {
    var gross := ToPesos(v.exchangeRate, item.subtotal as real);
    match ColumnOf(v.voucherType, item)
    case IvaColumn(rate) =>
      if column == NetColumn then WithoutIva(gross, rate)
      else if column == IvaColumn(rate) then gross - WithoutIva(gross, rate)
      else 0.0
    case plain => if column == plain then gross else 0.0
  }

  function ColumnSum(v: TaxedVoucher, items: seq<StoredItem>, column: Column): real {
    if items == [] then 0.0
    else ColumnSum(v, items[..|items| - 1], column) + Share(v, items[|items| - 1], column)
  }

  /** The rates with IVA to report, in order of first appearance. */
  function IvaRatesOf(voucherType: int, items: seq<StoredItem>): seq<nat> {
    if items == [] then []
    else
      var before := IvaRatesOf(voucherType, items[..|items| - 1]);
      match ColumnOf(voucherType, items[|items| - 1])
      case IvaColumn(rate) => if rate in before then before else before + [rate]
      case _ => before
  }

  function RoundedIva(v: TaxedVoucher, rates: seq<nat>): map<nat, int> {
    map rate | rate in rates :: Round(ColumnSum(v, v.items, IvaColumn(rate)))
  }

  function BreakdownOf(v: TaxedVoucher): Breakdown {
    var order := IvaRatesOf(v.voucherType, v.items);
    Breakdown(Round(ColumnSum(v, v.items, NetColumn)), Round(ColumnSum(v, v.items, ExemptColumn)),
              Round(ColumnSum(v, v.items, UntaxedColumn)), RateMap(order, RoundedIva(v, order)))
  }

  lemma OneMoreLine(v: TaxedVoucher, n: nat)
    requires n < |v.items|
    ensures forall column :: ColumnSum(v, v.items[..n + 1], column)
                          == ColumnSum(v, v.items[..n], column) + Share(v, v.items[n], column)
    ensures var before, after := IvaRatesOf(v.voucherType, v.items[..n]), IvaRatesOf(v.voucherType, v.items[..n + 1]);
            match ColumnOf(v.voucherType, v.items[n])
            case IvaColumn(rate) => after == if rate in before then before else before + [rate]
            case _ => after == before
  {
    assert v.items[..n + 1][..n] == v.items[..n];
  }

  /** The accumulating loop of `breakDownVoucherTaxes`. */
  method Accumulate(v: TaxedVoucher)
    returns (net: real, exempt: real, untaxed: real, order: seq<nat>, ivaByRate: map<nat, real>)
    ensures net == ColumnSum(v, v.items, NetColumn)
    ensures exempt == ColumnSum(v, v.items, ExemptColumn)
    ensures untaxed == ColumnSum(v, v.items, UntaxedColumn)
    ensures order == IvaRatesOf(v.voucherType, v.items)
    ensures forall r: nat :: r in ivaByRate <==> r in order
    ensures forall r: nat :: r in order ==> ivaByRate[r] == ColumnSum(v, v.items, IvaColumn(r))
  {
    net, exempt, untaxed, order, ivaByRate := 0.0, 0.0, 0.0, [], map[];
    var withIva := BearsIva(v.voucherType);
    var isExport := VoucherLetter(v.voucherType) == E;
    for n := 0 to |v.items|
      invariant net == ColumnSum(v, v.items[..n], NetColumn)
      invariant exempt == ColumnSum(v, v.items[..n], ExemptColumn)
      invariant untaxed == ColumnSum(v, v.items[..n], UntaxedColumn)
      invariant order == IvaRatesOf(v.voucherType, v.items[..n])
      invariant forall r: nat :: r in ivaByRate <==> r in order
      invariant forall r: nat :: ColumnSum(v, v.items[..n], IvaColumn(r)) == if r in order then ivaByRate[r] else 0.0
    {
      OneMoreLine(v, n);
      hide ColumnSum, IvaRatesOf, ToPesos, WithoutIva, VoucherLetter;
      var item := v.items[n];
      var gross := ToPesos(v.exchangeRate, item.subtotal as real);
      var treatment := if item.treatment.None? then TAXED else item.treatment.value;
      if treatment == EXEMPT || isExport {
        exempt := exempt + gross;
      } else if treatment == UNTAXED {
        untaxed := untaxed + gross;
      } else if !withIva || item.rate == 0 {
        net := net + gross;
      } else {
        var base := WithoutIva(gross, item.rate);
        net := net + base;
        var soFar := if item.rate in ivaByRate then ivaByRate[item.rate] else 0.0;
        if item.rate !in ivaByRate { order := order + [item.rate]; }
        ivaByRate := ivaByRate[item.rate := soFar + (gross - base)];
      }
    }
    assert v.items[..|v.items|] == v.items;
  }

  /** `breakDownVoucherTaxes`: accumulate, then round each column once. */
  method BreakDownVoucherTaxes(v: TaxedVoucher) returns (b: Breakdown)
    ensures b == BreakdownOf(v)
  {
    hide ColumnSum, IvaRatesOf, Round;
    var net, exempt, untaxed, order, ivaByRate := Accumulate(v);
    var rounded: map<nat, int> := map[];
    for k := 0 to |order|
      invariant rounded == RoundedIva(v, order[..k])
    {
      rounded := rounded[order[k] := Round(ivaByRate[order[k]])];
    }
    assert order[..|order|] == order;
    return Breakdown(Round(net), Round(exempt), Round(untaxed), RateMap(order, rounded));
  }

  // Nothing is lost -----------------------------------------------------------------------------------

  function PesosOf(v: TaxedVoucher, items: seq<StoredItem>): real {
    if items == [] then 0.0
    else PesosOf(v, items[..|items| - 1]) + ToPesos(v.exchangeRate, items[|items| - 1].subtotal as real)
  }

  function IvaOver(v: TaxedVoucher, items: seq<StoredItem>, rates: seq<nat>): real {
    if rates == [] then 0.0
    else IvaOver(v, items, rates[..|rates| - 1]) + ColumnSum(v, items, IvaColumn(rates[|rates| - 1]))
  }

  ghost predicate DistinctRates(rates: seq<nat>) {
    forall i, j | 0 <= i < j < |rates| :: rates[i] != rates[j]
  }

  lemma {:induction false} IvaRatesAreThose(voucherType: int, items: seq<StoredItem>)
    ensures DistinctRates(IvaRatesOf(voucherType, items))
    ensures forall r: nat :: r in IvaRatesOf(voucherType, items) <==>
              exists i :: 0 <= i < |items| && ColumnOf(voucherType, items[i]) == IvaColumn(r)
  {
    if items != [] {
      var n := |items| - 1;
      IvaRatesAreThose(voucherType, items[..n]);
      assert items == items[..n] + [items[n]];
      hide ColumnOf;
      forall r: nat | r in IvaRatesOf(voucherType, items)
        ensures exists i :: 0 <= i < |items| && ColumnOf(voucherType, items[i]) == IvaColumn(r)
      {
        if r in IvaRatesOf(voucherType, items[..n]) {
          var i :| 0 <= i < n && ColumnOf(voucherType, items[..n][i]) == IvaColumn(r);
          assert ColumnOf(voucherType, items[i]) == IvaColumn(r);
        } else {
          assert ColumnOf(voucherType, items[n]) == IvaColumn(r);
        }
      }
      forall r: nat, i | 0 <= i < |items| && ColumnOf(voucherType, items[i]) == IvaColumn(r)
        ensures r in IvaRatesOf(voucherType, items)
      {
        if i < n { assert ColumnOf(voucherType, items[..n][i]) == IvaColumn(r); }
      }
    }
  }

  lemma {:induction false} OneMoreLineOver(v: TaxedVoucher, n: nat, rates: seq<nat>)
    requires n < |v.items| && DistinctRates(rates)
    ensures IvaOver(v, v.items[..n + 1], rates) == IvaOver(v, v.items[..n], rates)
            + (match ColumnOf(v.voucherType, v.items[n])
               case IvaColumn(rate) => if rate in rates then Share(v, v.items[n], IvaColumn(rate)) else 0.0
               case _ => 0.0)
  {
    if rates != [] {
      var last := |rates| - 1;
      OneMoreLineOver(v, n, rates[..last]);
      OneMoreLine(v, n);
      assert rates == rates[..last] + [rates[last]];
      hide ColumnSum, IvaRatesOf, ToPesos, WithoutIva, ColumnOf;
    }
  }

  lemma LineIsShared(v: TaxedVoucher, item: StoredItem)
    ensures Share(v, item, NetColumn) + Share(v, item, ExemptColumn) + Share(v, item, UntaxedColumn)
            + (match ColumnOf(v.voucherType, item) case IvaColumn(rate) => Share(v, item, IvaColumn(rate)) case _ => 0.0)
         == ToPesos(v.exchangeRate, item.subtotal as real)
  {}

  lemma {:induction false} ColumnsHoldEverything(v: TaxedVoucher, n: nat, rates: seq<nat>)
    requires n <= |v.items| && DistinctRates(rates)
    requires forall i: nat | i < |v.items| && ColumnOf(v.voucherType, v.items[i]).IvaColumn? ::
               ColumnOf(v.voucherType, v.items[i]).rate in rates
    ensures ColumnSum(v, v.items[..n], NetColumn) + ColumnSum(v, v.items[..n], ExemptColumn)
            + ColumnSum(v, v.items[..n], UntaxedColumn) + IvaOver(v, v.items[..n], rates)
         == PesosOf(v, v.items[..n])
  {
    if n == 0 {
      NoIvaYet(v, rates);
    } else {
      hide ColumnSum, IvaRatesOf, ToPesos, WithoutIva, ColumnOf, Share, IvaOver, PesosOf;
      ColumnsHoldEverything(v, n - 1, rates);
      OneMoreLineOver(v, n - 1, rates);
      OneMoreLine(v, n - 1);
      LineIsShared(v, v.items[n - 1]);
      OneMoreLinePesos(v, n - 1);
    }
  }

  lemma OneMoreLinePesos(v: TaxedVoucher, n: nat)
    requires n < |v.items|
    ensures PesosOf(v, v.items[..n + 1])
         == PesosOf(v, v.items[..n]) + ToPesos(v.exchangeRate, v.items[n].subtotal as real)
  {
    assert v.items[..n + 1][..n] == v.items[..n];
  }

  lemma {:induction false} NoIvaYet(v: TaxedVoucher, rates: seq<nat>)
    ensures IvaOver(v, [], rates) == 0.0
  {
    if rates != [] { NoIvaYet(v, rates[..|rates| - 1]); }
  }

  function Get(m: RateMap, rate: nat): int {
    if rate in m.amounts then m.amounts[rate] else 0
  }

  function IvaTotal(m: RateMap): int
    decreases |m.order|
  {
    if m.order == [] then 0
    else
      var last := |m.order| - 1;
      IvaTotal(RateMap(m.order[..last], m.amounts)) + Get(m, m.order[last])
  }

  lemma {:induction false} IvaDrift(v: TaxedVoucher, m: RateMap)
    requires forall r | r in m.order :: r in m.amounts && m.amounts[r] == Round(ColumnSum(v, v.items, IvaColumn(r)))
    ensures -0.5 * |m.order| as real <= IvaTotal(m) as real - IvaOver(v, v.items, m.order) <= 0.5 * |m.order| as real
    decreases |m.order|
  {
    if m.order != [] { IvaDrift(v, RateMap(m.order[..|m.order| - 1], m.amounts)); }
  }

  /** The reported columns together are the voucher's pesos, but for half a cent per rounded column. */
  lemma BreakdownAddsUp(v: TaxedVoucher)
    ensures var b := BreakdownOf(v);
            var reported := b.net + b.exempt + b.untaxed + IvaTotal(b.ivaByRate);
            -0.5 * (3 + |b.ivaByRate.order|) as real <= reported as real - PesosOf(v, v.items)
              <= 0.5 * (3 + |b.ivaByRate.order|) as real
  {
    var order := IvaRatesOf(v.voucherType, v.items);
    IvaRatesAreThose(v.voucherType, v.items);
    ColumnsHoldEverything(v, |v.items|, order);
    assert v.items[..|v.items|] == v.items;
    IvaDrift(v, RateMap(order, RoundedIva(v, order)));
    hide ColumnSum, IvaRatesOf, ColumnOf, IvaOver, PesosOf, IvaTotal;
  }

  // Which column holds which lines ----------------------------------------------------------------------

  predicate IsOfKind(item: StoredItem, kind: Treatment) {
    item.treatment == Some(kind) || (item.treatment.None? && kind == TAXED)
  }

  /** The pesos of the lines of one treatment, lines without one being taxed, from the first line on. */
  function PesosOfKind(v: TaxedVoucher, items: seq<StoredItem>, kind: Treatment): real {
    if items == [] then 0.0
    else
      (if IsOfKind(items[0], kind) then ToPesos(v.exchangeRate, items[0].subtotal as real) else 0.0)
      + PesosOfKind(v, items[1..], kind)
  }

  lemma {:induction false} KindFromTheEnd(v: TaxedVoucher, items: seq<StoredItem>, item: StoredItem, kind: Treatment)
    ensures PesosOfKind(v, items + [item], kind)
         == PesosOfKind(v, items, kind)
            + if IsOfKind(item, kind) then ToPesos(v.exchangeRate, item.subtotal as real) else 0.0
  {
    hide ToPesos;
    if items == [] {
      assert [] + [item] == [item] && [item][1..] == [];
    } else {
      KindFromTheEnd(v, items[1..], item, kind);
      assert (items + [item])[1..] == items[1..] + [item];
    }
  }

  lemma OneLineShares(v: TaxedVoucher, item: StoredItem)
    ensures var letter, pesos := VoucherLetter(v.voucherType), ToPesos(v.exchangeRate, item.subtotal as real);
            && Share(v, item, ExemptColumn) == (if letter == E || IsOfKind(item, EXEMPT) then pesos else 0.0)
            && Share(v, item, UntaxedColumn) == (if letter != E && IsOfKind(item, UNTAXED) then pesos else 0.0)
            && (letter !in {A, B, M} ==>
                  Share(v, item, NetColumn) == if letter != E && IsOfKind(item, TAXED) then pesos else 0.0)
            && (ColumnOf(v.voucherType, item).IvaColumn? <==>
                  letter in {A, B, M} && IsOfKind(item, TAXED) && item.rate != 0)
            && (ColumnOf(v.voucherType, item).IvaColumn? ==> ColumnOf(v.voucherType, item).rate == item.rate)
  {
    hide ToPesos, WithoutIva, VoucherLetter;
    if item.treatment.Some? {
      var treatment := item.treatment.value;
      assert treatment.TAXED? || treatment.EXEMPT? || treatment.UNTAXED?;
    }
  }

  lemma {:induction false} PlainColumns(v: TaxedVoucher, n: nat)
    requires n <= |v.items|
    ensures var letter, items := VoucherLetter(v.voucherType), v.items[..n];
            && ColumnSum(v, items, ExemptColumn)
               == (if letter == E then PesosOf(v, items) else PesosOfKind(v, items, EXEMPT))
            && ColumnSum(v, items, UntaxedColumn) == (if letter == E then 0.0 else PesosOfKind(v, items, UNTAXED))
            && (letter !in {A, B, M} ==>
                  && ColumnSum(v, items, NetColumn) == (if letter == E then 0.0 else PesosOfKind(v, items, TAXED))
                  && IvaRatesOf(v.voucherType, items) == [])
  {
    if n > 0 {
      PlainColumns(v, n - 1);
      OneMoreLine(v, n - 1);
      OneLineShares(v, v.items[n - 1]);
      KindFromTheEnd(v, v.items[..n - 1], v.items[n - 1], EXEMPT);
      KindFromTheEnd(v, v.items[..n - 1], v.items[n - 1], UNTAXED);
      KindFromTheEnd(v, v.items[..n - 1], v.items[n - 1], TAXED);
      assert v.items[..n] == v.items[..n - 1] + [v.items[n - 1]];
      hide ColumnSum, IvaRatesOf, ToPesos, WithoutIva, ColumnOf, Share, PesosOfKind, VoucherLetter, IsOfKind;
    }
  }

  /** Which lines each column is of: an export voucher is all exempt; in any other, exempt and untaxed are the lines
      of that treatment; without IVA to break down the net is the rest, and with it IVA is listed at exactly the
      rates above zero of the taxed lines. */
  lemma BreakdownTellsItsLines(v: TaxedVoucher)
    ensures var b, letter := BreakdownOf(v), VoucherLetter(v.voucherType);
            if letter == E then
              b.exempt == Round(PesosOf(v, v.items)) && b.net == b.untaxed == 0 && b.ivaByRate.order == []
            else
              && b.exempt == Round(PesosOfKind(v, v.items, EXEMPT))
              && b.untaxed == Round(PesosOfKind(v, v.items, UNTAXED))
              && if letter in {A, B, M} then
                   forall r: nat :: r in b.ivaByRate.order <==>
                     r != 0 && exists i :: 0 <= i < |v.items| && IsOfKind(v.items[i], TAXED) && v.items[i].rate == r
                 else b.net == Round(PesosOfKind(v, v.items, TAXED)) && b.ivaByRate.order == []
  {
    PlainColumns(v, |v.items|);
    assert v.items[..|v.items|] == v.items;
    RoundWhole(0);
    if VoucherLetter(v.voucherType) in {A, B, M} { ListedRates(v); }
    hide ColumnSum, IvaRatesOf, ToPesos, WithoutIva, ColumnOf, Share, PesosOfKind, PesosOf, VoucherLetter, IsOfKind;
  }

  lemma ListedRates(v: TaxedVoucher)
    requires VoucherLetter(v.voucherType) in {A, B, M}
    ensures forall r: nat :: r in IvaRatesOf(v.voucherType, v.items) <==>
              r != 0 && exists i :: 0 <= i < |v.items| && IsOfKind(v.items[i], TAXED) && v.items[i].rate == r
  {
    IvaRatesAreThose(v.voucherType, v.items);
    hide IvaRatesOf, VoucherLetter, IsOfKind, ColumnOf;
    forall i | 0 <= i < |v.items|
      ensures ColumnOf(v.voucherType, v.items[i]).IvaColumn? <==> IsOfKind(v.items[i], TAXED) && v.items[i].rate != 0
      ensures ColumnOf(v.voucherType, v.items[i]).IvaColumn? ==>
                ColumnOf(v.voucherType, v.items[i]) == IvaColumn(v.items[i].rate)
    {
      OneLineShares(v, v.items[i]);
    }
    forall r: nat
      ensures r in IvaRatesOf(v.voucherType, v.items) <==>
              r != 0 && exists i :: 0 <= i < |v.items| && IsOfKind(v.items[i], TAXED) && v.items[i].rate == r
    {
      if r in IvaRatesOf(v.voucherType, v.items) {
        var i :| 0 <= i < |v.items| && ColumnOf(v.voucherType, v.items[i]) == IvaColumn(r);
        assert IsOfKind(v.items[i], TAXED) && v.items[i].rate == r;
      }
      if r != 0 && exists i :: 0 <= i < |v.items| && IsOfKind(v.items[i], TAXED) && v.items[i].rate == r {
        var i :| 0 <= i < |v.items| && IsOfKind(v.items[i], TAXED) && v.items[i].rate == r;
        assert ColumnOf(v.voucherType, v.items[i]) == IvaColumn(r);
      }
    }
  }
}
