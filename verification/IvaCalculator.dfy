/**
 * What ARCA is told about a voucher's amounts.  Item prices include IVA; rates are in tenths of a
 * percent (10.5% is 105).
 */
module IvaCalculator {
  import opened Common
  import opened Money
  import VoucherTypes

  datatype Treatment = TAXED | EXEMPT | UNTAXED

  datatype Item = Item(quantity: real, unitPrice: real, rate: nat, treatment: Treatment)

  datatype Tribute = Tribute(id: int, taxableBase: real, rate: real)

  datatype RateEntry = RateEntry(id: int, taxableBase: int, amount: int)

  datatype TributeEntry = TributeEntry(id: int, taxableBase: int, rate: real, amount: int)

  const CENTS_PER_UNIT := 100.0

  /** Cents of the line, IVA included. */
  function Gross(item: Item): real {
    item.quantity * item.unitPrice * CENTS_PER_UNIT
  }

  /** ARCA's identifier of each rate. */
  function AfipId(rate: nat): Option<int> {
    if rate == 0 then Some(3)
    else if rate == 25 then Some(9)
    else if rate == 50 then Some(8)
    else if rate == 105 then Some(4)
    else if rate == 210 then Some(5)
    else if rate == 270 then Some(6)
    else None
  }

  const IVA_RATES: seq<nat> := [0, 25, 50, 105, 210, 270]

  /** Every taxed item has a rate ARCA knows. */
  predicate RatesAreMapped(items: seq<Item>) {
    forall i | 0 <= i < |items| :: items[i].treatment == TAXED ==> items[i].rate in IVA_RATES
  }

  // Groups of items -------------------------------------------------------------------------------

  /** The buckets in which gross amounts are rounded. */
  datatype Group = AtRate(rate: nat) | Exempt | Untaxed | Everything

  function GroupOf(item: Item): Group {
    match item.treatment
    case TAXED => AtRate(item.rate)
    case EXEMPT => Exempt
    case UNTAXED => Untaxed
  }

  predicate InGroup(item: Item, g: Group) {
    g == Everything || g == GroupOf(item)
  }

  function GrossIn(items: seq<Item>, g: Group): real {
    if items == [] then 0.0
    else
      var last := items[|items| - 1];
      GrossIn(items[..|items| - 1], g) + if InGroup(last, g) then Gross(last) else 0.0
  }

  /** The distinct rates of the taxed items, in order of first appearance: the keys of the map. */
  function RatesOf(items: seq<Item>): seq<nat> {
    if items == [] then []
    else
      var last := items[|items| - 1];
      var before := RatesOf(items[..|items| - 1]);
      if last.treatment == TAXED && last.rate !in before then before + [last.rate] else before
  }

  /** They are the rates of the taxed items, each once. */
  lemma {:induction false} RatesAreThose(items: seq<Item>)
    ensures forall i, j | 0 <= i < j < |RatesOf(items)| :: RatesOf(items)[i] != RatesOf(items)[j]
    ensures forall r: nat :: r in RatesOf(items) <==> exists i :: 0 <= i < |items| && GroupOf(items[i]) == AtRate(r)
  {
    if items != [] {
      var n := |items| - 1;
      RatesAreThose(items[..n]);
      assert items == items[..n] + [items[n]];
      forall r: nat | r in RatesOf(items) ensures exists i :: 0 <= i < |items| && GroupOf(items[i]) == AtRate(r) {
        if r in RatesOf(items[..n]) {
          var i :| 0 <= i < n && GroupOf(items[..n][i]) == AtRate(r);
          assert GroupOf(items[i]) == AtRate(r);
        } else {
          assert GroupOf(items[n]) == AtRate(r);
        }
      }
      forall r: nat, i | 0 <= i < |items| && GroupOf(items[i]) == AtRate(r) ensures r in RatesOf(items) {
        if i < n { assert GroupOf(items[..n][i]) == AtRate(r); }
      }
    }
  }

  lemma OneMoreItem(items: seq<Item>, n: nat)
    requires n < |items|
    ensures forall g ::
              GrossIn(items[..n + 1], g) == GrossIn(items[..n], g) + if InGroup(items[n], g) then Gross(items[n]) else 0.0
    ensures RatesOf(items[..n + 1]) ==
            if items[n].treatment == TAXED && items[n].rate !in RatesOf(items[..n])
            then RatesOf(items[..n]) + [items[n].rate] else RatesOf(items[..n])
  {
    assert items[..n + 1][..n] == items[..n];
  }

  // The split of one gross amount --------------------------------------------------------------------

  /** Taxable base of a gross amount: gross / (1 + rate), to the nearest cent. */
  function BaseOf(gross: int, rate: nat): int {
    RoundQuotient(1000 * gross, 1000 + rate)
  }

  function EntryFor(items: seq<Item>, rate: nat): RateEntry {
    var gross := Round(GrossIn(items, AtRate(rate)));
    var base := BaseOf(gross, rate);
    RateEntry(if AfipId(rate).Some? then AfipId(rate).value else 0, base, gross - base)
  }

  lemma BaseIsRounded(gross: int, rate: nat)
    ensures Round(WithoutIva(gross as real, rate)) == BaseOf(gross, rate)
  {
    WithoutIvaIs(gross as real, rate);
    RoundOfQuotient(1000 * gross, 1000 + rate);
  }

  lemma BaseBounds(gross: int, rate: nat)
    ensures var base := BaseOf(gross, rate);
            var iva := gross - base;
            -(1000 + rate) <= 2 * (1000 * iva - base * rate) < 1000 + rate
  {}

  lemma AtMost(m: nat, gross: int, base: int)
    requires m >= 1000 && gross >= 0 && 2 * m * base <= 2000 * gross + m < 2 * m * (base + 1)
    ensures 0 <= base <= gross
  {
    if base > gross {
      LargerProduct(m, gross + 1, base);
      LargerProduct(gross, 1000, m);
    }
    if base < 0 { LargerProduct(m, base + 1, 0); }
  }

  lemma LargerProduct(m: nat, x: int, y: int)
    requires x <= y
    ensures m * x <= m * y
  {}

  lemma BaseAtMostGross(gross: int, rate: nat)
    requires gross >= 0
    ensures 0 <= BaseOf(gross, rate) <= gross
  {
    var base, m := BaseOf(gross, rate), 1000 + rate;
    QuotientBounds(1000 * gross, m);
    AtMost(m, gross, base);
  }

  lemma NoTaxNoRounding(gross: int)
    ensures BaseOf(gross, 0) == gross
  {}

  /** Base and IVA add up to the rounded gross exactly, the IVA is not negative, and it is the rate
      applied to the base within (1 + rate) / 2 cents. */
  lemma EntryIsFaithful(items: seq<Item>, rate: nat)
    ensures var entry := EntryFor(items, rate);
            && entry.taxableBase + entry.amount == Round(GrossIn(items, AtRate(rate)))
            && -(1000 + rate) <= 2 * (1000 * entry.amount - entry.taxableBase * rate) < 1000 + rate
            && (GrossIn(items, AtRate(rate)) >= 0.0 ==> entry.amount >= 0)
            && (rate == 0 ==> entry.amount == 0)
  {
    hide GrossIn;
    var gross := Round(GrossIn(items, AtRate(rate)));
    BaseBounds(gross, rate);
    if gross >= 0 { BaseAtMostGross(gross, rate); }
    if rate == 0 { NoTaxNoRounding(gross); }
    hide BaseOf, Round;
  }

  // The whole voucher -------------------------------------------------------------------------------

  datatype Split = Split(rates: seq<RateEntry>, net: int, iva: int) | UnmappedRate

  function Entries(items: seq<Item>, rates: seq<nat>): (entries: seq<RateEntry>)
    ensures |entries| == |rates|
  {
    seq(|rates|, i requires 0 <= i < |rates| => EntryFor(items, rates[i]))
  }

  function Bases(entries: seq<RateEntry>): (bases: seq<int>)
    ensures |bases| == |entries|
  {
    seq(|entries|, i requires 0 <= i < |entries| => entries[i].taxableBase)
  }

  function Ivas(entries: seq<RateEntry>): (amounts: seq<int>)
    ensures |amounts| == |entries|
  {
    seq(|entries|, i requires 0 <= i < |entries| => entries[i].amount)
  }

  function SplitOf(items: seq<Item>): Split {
    var rates := RatesOf(items);
    if exists r :: r in rates && AfipId(r).None? then UnmappedRate
    else
      var entries := Entries(items, rates);
      Split(entries, Total(Bases(entries)), Total(Ivas(entries)))
  }

  lemma TotalLast(xs: seq<int>, x: int)
    ensures Total(xs + [x]) == Total(xs) + x
  {}

  /** The first loop of `splitTaxedGrossByRate`: a map filled item by item, with its key order. */
  method GrossByRate(items: seq<Item>) returns (order: seq<nat>, grossByRate: map<nat, real>)
    ensures order == RatesOf(items)
    ensures forall r: nat :: r in grossByRate <==> r in order
    ensures forall r: nat :: r in order ==> grossByRate[r] == GrossIn(items, AtRate(r))
  {
    order, grossByRate := [], map[];
    for n := 0 to |items|
      invariant order == RatesOf(items[..n])
      invariant forall r: nat :: r in grossByRate <==> r in order
      invariant forall r: nat :: GrossIn(items[..n], AtRate(r)) == if r in order then grossByRate[r] else 0.0
    {
      var item := items[n];
      OneMoreItem(items, n);
      hide GrossIn, RatesOf, Gross;
      if item.treatment == TAXED {
        var soFar := if item.rate in grossByRate then grossByRate[item.rate] else 0.0;
        if item.rate !in grossByRate { order := order + [item.rate]; }
        grossByRate := grossByRate[item.rate := soFar + Gross(item)];
      }
    }
    assert items[..|items|] == items;
  }

  lemma OneMoreEntry(items: seq<Item>, rates: seq<nat>, rate: nat)
    ensures Entries(items, rates + [rate]) == Entries(items, rates) + [EntryFor(items, rate)]
    ensures Total(Bases(Entries(items, rates + [rate]))) == Total(Bases(Entries(items, rates))) + EntryFor(items, rate).taxableBase
    ensures Total(Ivas(Entries(items, rates + [rate]))) == Total(Ivas(Entries(items, rates))) + EntryFor(items, rate).amount
  {
    var before, after := Entries(items, rates), Entries(items, rates + [rate]);
    assert after == before + [EntryFor(items, rate)];
    assert Bases(after) == Bases(before) + [EntryFor(items, rate).taxableBase];
    assert Ivas(after) == Ivas(before) + [EntryFor(items, rate).amount];
    TotalLast(Bases(before), EntryFor(items, rate).taxableBase);
    TotalLast(Ivas(before), EntryFor(items, rate).amount);
  }

  lemma EntryHasId(items: seq<Item>, rate: nat)
    ensures AfipId(rate).Some? ==> EntryFor(items, rate).id == AfipId(rate).value
  {}

  /** One rate of the drained map: the three roundings give its entry. */
  method EntryAt(ghost items: seq<Item>, rawGross: real, rate: nat) returns (taxableBase: int, amount: int)
    requires rawGross == GrossIn(items, AtRate(rate))
    ensures taxableBase == EntryFor(items, rate).taxableBase && amount == EntryFor(items, rate).amount
  {
    var gross := Round(rawGross);
    BaseIsRounded(gross, rate);
    taxableBase := Round(WithoutIva(gross as real, rate));
    RoundWhole(gross - taxableBase);
    amount := Round((gross - taxableBase) as real);
  }

  /** `splitTaxedGrossByRate`: the map is drained rate by rate. */
  method SplitTaxedGrossByRate(items: seq<Item>) returns (split: Split)
    ensures split == SplitOf(items)
  {
    hide GrossIn, RatesOf, BaseOf;
    var order, grossByRate := GrossByRate(items);
    var rates: seq<RateEntry>, netAmount, ivaAmount := [], 0, 0;
    for k := 0 to |order|
      invariant rates == Entries(items, order[..k])
      invariant netAmount == Total(Bases(Entries(items, order[..k])))
      invariant ivaAmount == Total(Ivas(Entries(items, order[..k])))
      invariant forall i | 0 <= i < k :: AfipId(order[i]).Some?
    {
      var rate := order[k];
      hide Round, Entries, Bases, Ivas, Total, EntryFor;
      var taxableBase, amount := EntryAt(items, grossByRate[rate], rate);
      RoundWhole(netAmount + taxableBase);
      RoundWhole(ivaAmount + amount);
      netAmount := Round((netAmount + taxableBase) as real);
      ivaAmount := Round((ivaAmount + amount) as real);
      var id := AfipId(rate);
      if id.None? { return UnmappedRate; }
      OneMoreEntry(items, order[..k], rate);
      assert order[..k + 1] == order[..k] + [rate];
      EntryHasId(items, rate);
      rates := rates + [RateEntry(id.value, taxableBase, amount)];
    }
    assert order[..|order|] == order;
    return Split(rates, netAmount, ivaAmount);
  }

  // All amounts ---------------------------------------------------------------------------------------

  datatype VoucherAmounts = VoucherAmounts(
    net: int, iva: int, exempt: int, untaxed: int, tribute: int, total: int,
    rates: seq<RateEntry>, tributes: seq<TributeEntry>)

  /** `calculateTributes`. */
  function TributeEntryOf(t: Tribute): TributeEntry {
    TributeEntry(t.id, Round(t.taxableBase * CENTS_PER_UNIT), t.rate,
                 Round(t.taxableBase * t.rate / PERCENT_BASE * CENTS_PER_UNIT))
  }

  function TributeEntries(tributes: seq<Tribute>): seq<TributeEntry> {
    seq(|tributes|, i requires 0 <= i < |tributes| => TributeEntryOf(tributes[i]))
  }

  function TributeTotal(entries: seq<TributeEntry>): int {
    Round(Total(seq(|entries|, i requires 0 <= i < |entries| => entries[i].amount)) as real)
  }

  function AmountsOf(voucherType: int, items: seq<Item>, tributes: seq<Tribute>): Option<VoucherAmounts> {
    var entries := TributeEntries(tributes);
    var tribute := TributeTotal(entries);
    var itemsTotal := Round(GrossIn(items, Everything));
    var total := Round((itemsTotal + tribute) as real);
    if !VoucherTypes.ReportsIvaToArca(voucherType) then
      Some(VoucherAmounts(itemsTotal, 0, 0, 0, tribute, total, [], entries))
    else match SplitOf(items)
      case UnmappedRate => None
      case Split(rates, net, iva) =>
        Some(VoucherAmounts(net, iva, Round(GrossIn(items, Exempt)), Round(GrossIn(items, Untaxed)), tribute, total,
                            rates, entries))
  }

  // What the amounts are of ---------------------------------------------------------------------------

  /** Cents of the lines of one kind: quantity times price, summed from the first line on. */
  function SumOver(items: seq<Item>, kind: Group): real {
    if items == [] then 0.0
    else
      var item := items[0];
      var counts := match kind
        case AtRate(rate) => item.treatment == TAXED && item.rate == rate
        case Exempt => item.treatment == EXEMPT
        case Untaxed => item.treatment == UNTAXED
        case Everything => true;
      (if counts then item.quantity * item.unitPrice * 100.0 else 0.0) + SumOver(items[1..], kind)
  }

  lemma {:induction false} SumFromTheEnd(items: seq<Item>, item: Item, kind: Group)
    ensures SumOver(items + [item], kind) == SumOver(items, kind) + SumOver([item], kind)
    decreases |items|
  {
    if items == [] {
      assert [] + [item] == [item];
    } else {
      SumFromTheEnd(items[1..], item, kind);
      assert (items + [item])[1..] == items[1..] + [item];
    }
  }

  lemma {:induction false} GrossInIsSum(items: seq<Item>, kind: Group)
    ensures GrossIn(items, kind) == SumOver(items, kind)
    decreases |items|
  {
    if items != [] {
      var n := |items| - 1;
      GrossInIsSum(items[..n], kind);
      SumFromTheEnd(items[..n], items[n], kind);
      assert items == items[..n] + [items[n]];
      assert [items[n]][1..] == [];
    }
  }

  /** ARCA's identifier of a rate of 0, 2.5, 5, 10.5, 21 or 27 percent. */
  predicate IsIdOf(id: int, rate: nat) {
    (id, rate) in {(3, 0), (9, 25), (8, 50), (4, 105), (5, 210), (6, 270)}
  }

  function TributeSum(tributes: seq<Tribute>): int {
    if tributes == [] then 0
    else Round(tributes[0].taxableBase * tributes[0].rate) + TributeSum(tributes[1..])
  }

  /** What each amount is, of the lines themselves: exempt and untaxed are the lines of that treatment; net and IVA
      together the taxed lines, rate by rate, each under its identifier; and without IVA to report, the net is
      everything.  Base and IVA of a rate share out its rounded sum. */
  ghost predicate Tells(a: VoucherAmounts, voucherType: int, items: seq<Item>, tributes: seq<Tribute>) {
    && a.tribute == TributeSum(tributes) && a.total == Round(SumOver(items, Everything)) + a.tribute
    && |a.tributes| == |tributes|
    && (forall i | 0 <= i < |tributes| ::
          && a.tributes[i].id == tributes[i].id && a.tributes[i].rate == tributes[i].rate
          && a.tributes[i].taxableBase == Round(tributes[i].taxableBase * 100.0)
          && a.tributes[i].amount == Round(tributes[i].taxableBase * tributes[i].rate))
    && if !VoucherTypes.ReportsIvaToArca(voucherType) then
         a.net == Round(SumOver(items, Everything)) && a.iva == a.exempt == a.untaxed == 0 && a.rates == []
       else
         && a.exempt == Round(SumOver(items, Exempt)) && a.untaxed == Round(SumOver(items, Untaxed))
         && a.net == Total(Bases(a.rates)) && a.iva == Total(Ivas(a.rates))
         && |a.rates| == |RatesOf(items)|
         && forall k | 0 <= k < |a.rates| ::
              && IsIdOf(a.rates[k].id, RatesOf(items)[k])
              && a.rates[k].taxableBase + a.rates[k].amount == Round(SumOver(items, AtRate(RatesOf(items)[k])))
              && a.rates[k].taxableBase == BaseOf(Round(SumOver(items, AtRate(RatesOf(items)[k]))), RatesOf(items)[k])
  }

  lemma {:induction false} TributesSum(tributes: seq<Tribute>)
    ensures var entries := TributeEntries(tributes);
            Total(seq(|entries|, i requires 0 <= i < |entries| => entries[i].amount)) == TributeSum(tributes)
    decreases |tributes|
  {
    var entries := TributeEntries(tributes);
    var amounts := seq(|entries|, i requires 0 <= i < |entries| => entries[i].amount);
    if tributes != [] {
      TributesSum(tributes[1..]);
      var rest := TributeEntries(tributes[1..]);
      var restAmounts := seq(|rest|, i requires 0 <= i < |rest| => rest[i].amount);
      TributeAmount(tributes[0]);
      hide Round, Total, TributeEntryOf;
      assert amounts == [entries[0].amount] + restAmounts;
      TotalConcat([entries[0].amount], restAmounts);
      OneTotal(entries[0].amount);
    }
  }

  lemma OneTotal(x: int)
    ensures Total([x]) == x
  {
    assert [x] == [] + [x];
  }

  lemma TributeAmount(t: Tribute)
    ensures TributeEntryOf(t).amount == Round(t.taxableBase * t.rate)
  {
    assert t.taxableBase * t.rate / PERCENT_BASE * CENTS_PER_UNIT == t.taxableBase * t.rate;
  }

  lemma EntryTells(items: seq<Item>, rate: nat)
    requires AfipId(rate).Some?
    ensures var entry, gross := EntryFor(items, rate), Round(SumOver(items, AtRate(rate)));
            IsIdOf(entry.id, rate) && entry.taxableBase + entry.amount == gross && entry.taxableBase == BaseOf(gross, rate)
  {
    GrossInIsSum(items, AtRate(rate));
    hide GrossIn, SumOver, Round, BaseOf;
  }

  lemma TributesTell(tributes: seq<Tribute>)
    ensures var entries := TributeEntries(tributes);
            && TributeTotal(entries) == TributeSum(tributes) && |entries| == |tributes|
            && forall i | 0 <= i < |tributes| ::
                 && entries[i].id == tributes[i].id && entries[i].rate == tributes[i].rate
                 && entries[i].taxableBase == Round(tributes[i].taxableBase * 100.0)
                 && entries[i].amount == Round(tributes[i].taxableBase * tributes[i].rate)
  {
    TributesSum(tributes);
    RoundWhole(TributeSum(tributes));
    forall i | 0 <= i < |tributes|
      ensures TributeEntries(tributes)[i].amount == Round(tributes[i].taxableBase * tributes[i].rate)
    {
      TributeAmount(tributes[i]);
    }
    hide Round, Total, TributeSum;
  }

  lemma AmountsTell(voucherType: int, items: seq<Item>, tributes: seq<Tribute>)
    requires AmountsOf(voucherType, items, tributes).Some?
    ensures Tells(AmountsOf(voucherType, items, tributes).value, voucherType, items, tributes)
  {
    GrossInIsSum(items, Everything);
    GrossInIsSum(items, Exempt);
    GrossInIsSum(items, Untaxed);
    TributesTell(tributes);
    RoundWhole(Round(SumOver(items, Everything)) + TributeSum(tributes));
    hide GrossIn, SumOver, Round, RatesOf, BaseOf, Total, Bases, Ivas, TributeSum, TributeEntries, TributeTotal, AfipId,
         EntryFor, IsIdOf;
    if VoucherTypes.ReportsIvaToArca(voucherType) {
      forall k: nat | k < |RatesOf(items)|
        ensures IsIdOf(EntryFor(items, RatesOf(items)[k]).id, RatesOf(items)[k])
        ensures var entry, gross := EntryFor(items, RatesOf(items)[k]), Round(SumOver(items, AtRate(RatesOf(items)[k])));
                entry.taxableBase + entry.amount == gross && entry.taxableBase == BaseOf(gross, RatesOf(items)[k])
      {
        assert RatesOf(items)[k] in RatesOf(items);
        EntryTells(items, RatesOf(items)[k]);
      }
    }
  }

  /** A line's change moves no treatment's amount but that of the line before and after. */
  lemma {:induction false} ChangeMovesItsOwn(items: seq<Item>, k: nat, item: Item, kind: Group)
    requires k < |items| && !InGroup(items[k], kind) && !InGroup(item, kind)
    ensures SumOver(items[k := item], kind) == SumOver(items, kind)
    decreases |items|
  {
    if k == 0 {
      assert items[0 := item][1..] == items[1..];
    } else {
      ChangeMovesItsOwn(items[1..], k - 1, item, kind);
      assert items[k := item][1..] == items[1..][k - 1 := item];
    }
  }

  /** `calculateAmounts`; `None` is the exception for a rate ARCA has no identifier for. */
  method CalculateAmounts(voucherType: int, items: seq<Item>, tributes: seq<Tribute>)
    returns (amounts: Option<VoucherAmounts>)
    ensures amounts == AmountsOf(voucherType, items, tributes)
    ensures amounts.Some? ==> Tells(amounts.value, voucherType, items, tributes)
    ensures amounts.None? <==> VoucherTypes.ReportsIvaToArca(voucherType) && !RatesAreMapped(items)
  {
    if AmountsOf(voucherType, items, tributes).Some? { AmountsTell(voucherType, items, tributes); }
    SplitsMappedRates(items);
    hide GrossIn, Round, TributeEntries, TributeTotal, SplitOf, Tells, RatesAreMapped;
    var entries := TributeEntries(tributes);
    var tribute := TributeTotal(entries);
    var itemsTotal := Round(GrossIn(items, Everything));
    var total := Round((itemsTotal + tribute) as real);
    if !VoucherTypes.ReportsIvaToArca(voucherType) {
      return Some(VoucherAmounts(itemsTotal, 0, 0, 0, tribute, total, [], entries));
    }
    var exempt, untaxed := Round(GrossIn(items, Exempt)), Round(GrossIn(items, Untaxed));
    var split := SplitTaxedGrossByRate(items);
    if split.UnmappedRate? { return None; }
    return Some(VoucherAmounts(split.net, split.iva, exempt, untaxed, tribute, total, split.rates, entries));
  }

  /** The split refuses exactly the items with a rate ARCA does not know. */
  lemma SplitsMappedRates(items: seq<Item>)
    ensures SplitOf(items).Split? <==> RatesAreMapped(items)
  {
    RatesAreThose(items);
    hide RatesOf;
    assert forall r: nat :: AfipId(r).Some? <==> r in IVA_RATES;
    if SplitOf(items).Split? {
      forall i | 0 <= i < |items| && items[i].treatment == TAXED ensures items[i].rate in IVA_RATES {
        assert GroupOf(items[i]) == AtRate(items[i].rate);
        assert items[i].rate in RatesOf(items);
      }
    }
  }

  // The parts against the total ---------------------------------------------------------------------

  function GrossOver(items: seq<Item>, groups: seq<Group>): real {
    if groups == [] then 0.0
    else GrossOver(items, groups[..|groups| - 1]) + GrossIn(items, groups[|groups| - 1])
  }

  function RoundedOver(items: seq<Item>, groups: seq<Group>): int {
    if groups == [] then 0
    else RoundedOver(items, groups[..|groups| - 1]) + Round(GrossIn(items, groups[|groups| - 1]))
  }

  /** Rounding g sums one by one moves their total by at most half a cent each. */
  lemma {:induction false} RoundingDrift(items: seq<Item>, groups: seq<Group>)
    ensures -0.5 * |groups| as real <= RoundedOver(items, groups) as real - GrossOver(items, groups) <= 0.5 * |groups| as real
    ensures groups != [] ==> -0.5 * |groups| as real < RoundedOver(items, groups) as real - GrossOver(items, groups)
    ensures groups == [] ==> RoundedOver(items, groups) == 0
  {
    if groups != [] { RoundingDrift(items, groups[..|groups| - 1]); }
  }

  ghost predicate Distinct(groups: seq<Group>) {
    forall i, j | 0 <= i < j < |groups| :: groups[i] != groups[j]
  }

  /** One more item adds its gross to exactly one of the groups, if its own is among them. */
  lemma {:induction false} OneMoreItemOver(items: seq<Item>, n: nat, groups: seq<Group>)
    requires n < |items| && Distinct(groups) && Everything !in groups
    ensures GrossOver(items[..n + 1], groups)
         == GrossOver(items[..n], groups) + if GroupOf(items[n]) in groups then Gross(items[n]) else 0.0
  {
    if groups != [] {
      var last := |groups| - 1;
      OneMoreItemOver(items, n, groups[..last]);
      OneMoreItem(items, n);
      hide GrossIn, Gross;
      assert groups == groups[..last] + [groups[last]];
    }
  }

  /** Groups that hold every item once account for the whole gross. */
  lemma {:induction false} GroupsCoverEverything(items: seq<Item>, n: nat, groups: seq<Group>)
    requires n <= |items| && Distinct(groups) && Everything !in groups
    requires forall i | 0 <= i < |items| :: GroupOf(items[i]) in groups
    ensures GrossOver(items[..n], groups) == GrossIn(items[..n], Everything)
  {
    if n == 0 {
      NothingIn(groups);
    } else {
      GroupsCoverEverything(items, n - 1, groups);
      OneMoreItemOver(items, n - 1, groups);
      OneMoreItem(items, n - 1);
    }
  }

  lemma {:induction false} NothingIn(groups: seq<Group>)
    ensures GrossOver([], groups) == 0.0
  {
    if groups != [] { NothingIn(groups[..|groups| - 1]); }
  }

  ghost predicate Occupied(items: seq<Item>, g: Group) {
    exists i :: 0 <= i < |items| && GroupOf(items[i]) == g
  }

  function RateGroups(rates: seq<nat>): seq<Group> {
    seq(|rates|, i requires 0 <= i < |rates| => AtRate(rates[i]))
  }

  /** The non-empty groups: the taxed rates, the exempt items and the untaxed ones. */
  ghost function GroupsOf(items: seq<Item>): seq<Group> {
    RateGroups(RatesOf(items))
    + (if Occupied(items, Exempt) then [Exempt] else [])
    + (if Occupied(items, Untaxed) then [Untaxed] else [])
  }

  lemma GroupsAreThose(items: seq<Item>)
    ensures Distinct(GroupsOf(items)) && Everything !in GroupsOf(items)
    ensures forall i | 0 <= i < |items| :: GroupOf(items[i]) in GroupsOf(items)
  {
    RatesAreThose(items);
    var rates := RateGroups(RatesOf(items));
    forall i | 0 <= i < |items| ensures GroupOf(items[i]) in GroupsOf(items) {
      if items[i].treatment == TAXED {
        var k :| 0 <= k < |RatesOf(items)| && RatesOf(items)[k] == items[i].rate;
        assert rates[k] == GroupOf(items[i]);
        assert GroupsOf(items)[k] == rates[k];
      }
    }
  }

  lemma {:induction false} BasesPlusIvas(items: seq<Item>, rates: seq<nat>)
    ensures Total(Bases(Entries(items, rates))) + Total(Ivas(Entries(items, rates)))
         == RoundedOver(items, RateGroups(rates))
  {
    if rates != [] {
      var last := |rates| - 1;
      BasesPlusIvas(items, rates[..last]);
      OneMoreEntry(items, rates[..last], rates[last]);
      assert rates == rates[..last] + [rates[last]];
      assert RateGroups(rates)[..last] == RateGroups(rates[..last]);
    }
  }

  lemma {:induction false} UnoccupiedIsEmpty(items: seq<Item>, g: Group)
    requires g != Everything && !Occupied(items, g)
    ensures GrossIn(items, g) == 0.0
  {
    if items != [] {
      var n := |items| - 1;
      forall i | 0 <= i < n ensures GroupOf(items[..n][i]) != g { assert GroupOf(items[i]) != g; }
      UnoccupiedIsEmpty(items[..n], g);
      assert GroupOf(items[n]) != g;
    }
  }

  lemma RoundedOverOneMore(items: seq<Item>, groups: seq<Group>, g: Group)
    ensures RoundedOver(items, groups + [g]) == RoundedOver(items, groups) + Round(GrossIn(items, g))
  {}

  lemma PartsAreRoundedGroups(items: seq<Item>, split: Split)
    requires split == SplitOf(items) && split.Split?
    ensures split.net + split.iva + Round(GrossIn(items, Exempt)) + Round(GrossIn(items, Untaxed))
         == RoundedOver(items, GroupsOf(items))
  {
    BasesPlusIvas(items, RatesOf(items));
    var rates := RateGroups(RatesOf(items));
    hide GrossIn, Entries, Bases, Ivas, RatesOf, Total, RateGroups, RoundedOver;
    RoundWhole(0);
    if !Occupied(items, Exempt) { UnoccupiedIsEmpty(items, Exempt); }
    if !Occupied(items, Untaxed) { UnoccupiedIsEmpty(items, Untaxed); }
    RoundedOverOneMore(items, rates, Exempt);
    RoundedOverOneMore(items, rates, Untaxed);
    RoundedOverOneMore(items, rates + [Exempt], Untaxed);
    assert rates + [] + [] == rates && rates + [] + [Untaxed] == rates + [Untaxed];
    assert rates + [Exempt] + [] == rates + [Exempt];
  }

  function PartsTotal(a: VoucherAmounts): int {
    a.net + a.iva + a.exempt + a.untaxed + a.tribute
  }

  lemma TotalOf(voucherType: int, items: seq<Item>, tributes: seq<Tribute>)
    requires AmountsOf(voucherType, items, tributes).Some?
    ensures var a := AmountsOf(voucherType, items, tributes).value;
            a.total == Round(GrossIn(items, Everything)) + a.tribute
  {}

  /** For the types that do not report IVA the net is everything but the tributes, to the cent. */
  lemma NonReportingTotalIsExact(voucherType: int, items: seq<Item>, tributes: seq<Tribute>)
    requires !VoucherTypes.ReportsIvaToArca(voucherType)
    ensures var a := AmountsOf(voucherType, items, tributes);
            a.Some? && a.value.total == a.value.net + a.value.tribute && PartsTotal(a.value) == a.value.total
  {}

  /** For the types that report IVA, total and parts differ by at most half a cent per non-empty group. */
  lemma TotalIsNearTheParts(voucherType: int, items: seq<Item>, tributes: seq<Tribute>)
    requires VoucherTypes.ReportsIvaToArca(voucherType) && RatesAreMapped(items)
    ensures AmountsOf(voucherType, items, tributes).Some?
    ensures var a := AmountsOf(voucherType, items, tributes).value;
            -|GroupsOf(items)| <= 2 * (PartsTotal(a) - a.total) <= |GroupsOf(items)|
  {
    SplitsMappedRates(items);
    TotalOf(voucherType, items, tributes);
    PartsAreRoundedGroups(items, SplitOf(items));
    GroupsAreThose(items);
    GroupsCoverEverything(items, |items|, GroupsOf(items));
    assert items[..|items|] == items;
    RoundingDrift(items, GroupsOf(items));
    hide GrossIn, SplitOf, GroupsOf, RoundedOver, GrossOver, TributeEntries, TributeTotal, Distinct;
  }

  lemma {:induction false} DistinctRatesFit(rates: seq<nat>, pool: set<nat>)
    requires forall i, j | 0 <= i < j < |rates| :: rates[i] != rates[j]
    requires forall r | r in rates :: r in pool
    ensures |rates| <= |pool|
  {
    if rates != [] {
      var last := |rates| - 1;
      forall r | r in rates[..last] ensures r in pool - {rates[last]} {}
      DistinctRatesFit(rates[..last], pool - {rates[last]});
    }
  }

  /** ... so never by more than four cents. */
  lemma TotalIsWithinFourCents(voucherType: int, items: seq<Item>, tributes: seq<Tribute>)
    requires VoucherTypes.ReportsIvaToArca(voucherType) && RatesAreMapped(items)
    ensures AmountsOf(voucherType, items, tributes).Some?
    ensures var a := AmountsOf(voucherType, items, tributes).value;
            -4 <= PartsTotal(a) - a.total <= 4
  {
    SplitsMappedRates(items);
    TotalIsNearTheParts(voucherType, items, tributes);
    RatesAreThose(items);
    var pool := set r | r in IVA_RATES;
    assert pool == {0, 25, 50, 105, 210, 270};
    DistinctRatesFit(RatesOf(items), pool);
    hide AmountsOf, RatesOf, SplitOf;
  }

  // Whole cents ----------------------------------------------------------------------------------------

  /** The line's gross is this whole number of cents. */
  predicate Whole(item: Item) {
    Gross(item) == Gross(item).Floor as real
  }

  function WholeIn(items: seq<Item>, g: Group): int {
    if items == [] then 0
    else
      var last := items[|items| - 1];
      WholeIn(items[..|items| - 1], g) + if InGroup(last, g) then Gross(last).Floor else 0
  }

  lemma WholeSum(x: real, n: int, y: real, m: int)
    requires x == n as real && y == m as real
    ensures x + y == (n + m) as real
  {}

  lemma {:induction false} WholeGroups(items: seq<Item>, g: Group)
    requires forall i | 0 <= i < |items| :: Whole(items[i])
    ensures GrossIn(items, g) == WholeIn(items, g) as real && Round(GrossIn(items, g)) == WholeIn(items, g)
  {
    if items != [] {
      var n := |items| - 1;
      WholeGroups(items[..n], g);
      assert Whole(items[n]);
      hide Gross, Round;
      if InGroup(items[n], g) {
        WholeSum(GrossIn(items[..n], g), WholeIn(items[..n], g), Gross(items[n]), Gross(items[n]).Floor);
      }
    }
    RoundWhole(WholeIn(items, g));
  }

  lemma {:induction false} NoDrift(items: seq<Item>, groups: seq<Group>)
    requires forall i | 0 <= i < |items| :: Whole(items[i])
    ensures RoundedOver(items, groups) as real == GrossOver(items, groups)
  {
    if groups != [] {
      var n := |groups| - 1;
      NoDrift(items, groups[..n]);
      WholeGroups(items, groups[n]);
      hide GrossIn, Gross, Round;
      WholeSum(GrossOver(items, groups[..n]), RoundedOver(items, groups[..n]),
               GrossIn(items, groups[n]), WholeIn(items, groups[n]));
    }
  }

  /** When every line is a whole number of cents, total and parts agree exactly. */
  lemma WholeCentsAddUp(voucherType: int, items: seq<Item>, tributes: seq<Tribute>)
    requires VoucherTypes.ReportsIvaToArca(voucherType) && RatesAreMapped(items)
    requires forall i | 0 <= i < |items| :: Whole(items[i])
    ensures AmountsOf(voucherType, items, tributes).Some?
    ensures var a := AmountsOf(voucherType, items, tributes).value;
            PartsTotal(a) == a.total
  {
    SplitsMappedRates(items);
    TotalOf(voucherType, items, tributes);
    PartsAreRoundedGroups(items, SplitOf(items));
    GroupsAreThose(items);
    GroupsCoverEverything(items, |items|, GroupsOf(items));
    assert items[..|items|] == items;
    NoDrift(items, GroupsOf(items));
    WholeGroups(items, Everything);
    hide GrossIn, SplitOf, GroupsOf, RoundedOver, GrossOver, TributeEntries, TributeTotal, Distinct, Gross;
  }
}
