/** The monthly sales book: one entry per authorized voucher, and their totals, in whole cents. */
module SalesBook {
  import opened Common
  import opened Money
  import opened TaxBreakdown
  import opened VoucherTypes

  /** What a voucher says of its recipient, where it says anything. */
  datatype RecipientColumns = RecipientColumns(docType: Option<int>, docNumber: Option<string>, name: Option<string>)

  /** A stored voucher as the book reads it; the amounts are in cents of its currency. */
  datatype BookVoucher = BookVoucher(
    id: string, date: string, number: nat, salesPoint: nat, recipient: RecipientColumns, currency: string,
    cae: Option<string>, tribute: int, total: int, taxed: TaxedVoucher)

  datatype RateRow = RateRow(rate: nat, amount: int)

  datatype BookEntry = BookEntry(
    voucherId: string, date: string, voucherType: int, salesPoint: nat, number: nat, recipient: RecipientColumns,
    currency: string, exchangeRate: real, net: int, exempt: int, untaxed: int, ivaByRate: seq<RateRow>, iva: int,
    tribute: int, total: int, cae: Option<string>)

  datatype BookTotals = BookTotals(
    voucherCount: nat, net: int, exempt: int, untaxed: int, iva: int, tribute: int, total: int)

  datatype Book = Book(entries: seq<BookEntry>, totals: BookTotals)

  // Listing rates from the highest ------------------------------------------------------------------

  function InsertDescending(rates: seq<nat>, rate: nat): seq<nat> {
    if rates == [] || rates[0] < rate then [rate] + rates else [rates[0]] + InsertDescending(rates[1..], rate)
  }

  function SortDescending(rates: seq<nat>): seq<nat> {
    if rates == [] then [] else InsertDescending(SortDescending(rates[1..]), rates[0])
  }

  ghost predicate Descending(rates: seq<nat>) {
    forall i, j | 0 <= i < j < |rates| :: rates[i] >= rates[j]
  }

  lemma {:induction false} InsertedElements(rates: seq<nat>, rate: nat)
    ensures multiset(InsertDescending(rates, rate)) == multiset(rates) + multiset{rate}
  {
    if rates != [] && rates[0] >= rate {
      InsertedElements(rates[1..], rate);
      assert rates == [rates[0]] + rates[1..];
    }
  }

  lemma AboveAll(top: nat, tail: seq<nat>)
    requires Descending(tail) && forall i | 0 <= i < |tail| :: tail[i] <= top
    ensures Descending([top] + tail)
  {}

  lemma {:induction false} InsertedInOrder(rates: seq<nat>, rate: nat)
    requires Descending(rates)
    ensures Descending(InsertDescending(rates, rate))
  {
    if rates != [] && rates[0] >= rate {
      var tail := InsertDescending(rates[1..], rate);
      InsertedInOrder(rates[1..], rate);
      InsertedElements(rates[1..], rate);
      forall i | 0 <= i < |tail| ensures tail[i] <= rates[0] {
        assert tail[i] in multiset(tail);
      }
      hide InsertDescending, Descending;
      AboveAll(rates[0], tail);
    } else {
      AboveAll(rate, rates);
    }
  }

  lemma {:induction false} SortKeeps(rates: seq<nat>)
    ensures Descending(SortDescending(rates)) && multiset(SortDescending(rates)) == multiset(rates)
  {
    if rates != [] {
      SortKeeps(rates[1..]);
      InsertedInOrder(SortDescending(rates[1..]), rates[0]);
      InsertedElements(SortDescending(rates[1..]), rates[0]);
      assert rates == [rates[0]] + rates[1..];
    }
  }

  lemma SortedElements(rates: seq<nat>)
    ensures |SortDescending(rates)| == |rates|
    ensures forall r: nat :: r in SortDescending(rates) <==> r in rates
  {
    SortKeeps(rates);
    assert |multiset(SortDescending(rates))| == |multiset(rates)|;
    forall r: nat ensures r in SortDescending(rates) <==> r in rates {
      assert r in multiset(SortDescending(rates)) <==> r in multiset(rates);
    }
  }

  lemma {:induction false} DistinctCount(rates: seq<nat>, r: nat)
    requires DistinctRates(rates)
    ensures multiset(rates)[r] <= 1
  {
    if rates != [] {
      var last := |rates| - 1;
      DistinctCount(rates[..last], r);
      assert rates == rates[..last] + [rates[last]];
      if rates[last] == r { assert r !in rates[..last]; }
    }
  }

  lemma SameElementsDistinct(rates: seq<nat>, listed: seq<nat>)
    requires DistinctRates(rates) && multiset(listed) == multiset(rates)
    ensures DistinctRates(listed)
  {
    forall i, j | 0 <= i < j < |listed| ensures listed[i] != listed[j] {
      DistinctCount(rates, listed[i]);
      assert listed == listed[..j] + [listed[j]] + listed[j + 1..];
      assert listed[i] in listed[..j];
      assert multiset(listed)[listed[j]] >= 1 + multiset(listed[..j])[listed[j]];
    }
  }

  // Entries ---------------------------------------------------------------------------------------------

  function Signed(sign: int, amount: int): int {
    Round(sign as real * amount as real)
  }

  function SignedPesos(v: BookVoucher, amount: int): int {
    Round(VoucherSign(v.taxed.voucherType) as real * ToPesos(v.taxed.exchangeRate, amount as real))
  }

  function RateRows(sign: int, m: RateMap): seq<RateRow>
    requires forall r | r in m.order :: r in m.amounts
  {
    SortedElements(m.order);
    var rates := SortDescending(m.order);
    seq(|rates|, i requires 0 <= i < |rates| => RateRow(rates[i], Signed(sign, m.amounts[rates[i]])))
  }

  function AmountsOfRows(rows: seq<RateRow>): seq<int> {
    seq(|rows|, i requires 0 <= i < |rows| => rows[i].amount)
  }

  function ToEntry(v: BookVoucher): BookEntry {
    var sign := VoucherSign(v.taxed.voucherType);
    var taxes := BreakdownOf(v.taxed);
    var rows := RateRows(sign, taxes.ivaByRate);
    BookEntry(
      v.id, v.date, v.taxed.voucherType, v.salesPoint, v.number, v.recipient, v.currency,
      if v.taxed.exchangeRate.None? then LOCAL_EXCHANGE_RATE else v.taxed.exchangeRate.value,
      Signed(sign, taxes.net), Signed(sign, taxes.exempt), Signed(sign, taxes.untaxed),
      rows, Round(Total(AmountsOfRows(rows)) as real),
      SignedPesos(v, v.tribute), SignedPesos(v, v.total), v.cae)
  }

  function Entries(vouchers: seq<BookVoucher>): (entries: seq<BookEntry>)
    ensures |entries| == |vouchers|
  {
    seq(|vouchers|, i requires 0 <= i < |vouchers| => ToEntry(vouchers[i]))
  }

  datatype Pick = Net | Exempt | Untaxed | Iva | Tribute | EntryTotal

  function Picked(e: BookEntry, pick: Pick): int {
    match pick
    case Net => e.net
    case Exempt => e.exempt
    case Untaxed => e.untaxed
    case Iva => e.iva
    case Tribute => e.tribute
    case EntryTotal => e.total
  }

  function PickedAll(entries: seq<BookEntry>, pick: Pick): (amounts: seq<int>)
    ensures |amounts| == |entries|
  {
    seq(|entries|, i requires 0 <= i < |entries| => Picked(entries[i], pick))
  }

  function SumOf(entries: seq<BookEntry>, pick: Pick): int {
    Round(Total(PickedAll(entries, pick)) as real)
  }

  function SumEntries(entries: seq<BookEntry>): BookTotals {
    BookTotals(|entries|, SumOf(entries, Net), SumOf(entries, Exempt), SumOf(entries, Untaxed), SumOf(entries, Iva),
               SumOf(entries, Tribute), SumOf(entries, EntryTotal))
  }

  function BuildSalesBook(vouchers: seq<BookVoucher>): Book {
    Book(Entries(vouchers), SumEntries(Entries(vouchers)))
  }

  /** What an entry says of its voucher: its identity and texts as they are, the columns of its breakdown and its
      tributes and total in pesos, all with a credit note's sign turned, the last two to the nearest cent. */
  lemma EntryTellsItsVoucher(v: BookVoucher)
    ensures var e, sign, taxes := ToEntry(v), if IsCreditNote(v.taxed.voucherType) then -1 else 1, BreakdownOf(v.taxed);
            && e.voucherId == v.id && e.date == v.date && e.voucherType == v.taxed.voucherType
            && e.salesPoint == v.salesPoint && e.number == v.number && e.recipient == v.recipient
            && e.currency == v.currency && e.cae == v.cae
            && (v.taxed.exchangeRate == Some(e.exchangeRate) || (v.taxed.exchangeRate.None? && e.exchangeRate == 1.0))
            && e.net == sign * taxes.net && e.exempt == sign * taxes.exempt && e.untaxed == sign * taxes.untaxed
            && e.tribute as real - 0.5 <= sign as real * (v.tribute as real * e.exchangeRate) < e.tribute as real + 0.5
            && e.total as real - 0.5 <= sign as real * (v.total as real * e.exchangeRate) < e.total as real + 0.5
  {
    hide BreakdownOf, RateRows, Total;
  }

  /** Each total of the book is the sum of its own column over the entries. */
  lemma TotalsAreSums(entries: seq<BookEntry>)
    ensures var totals := SumEntries(entries);
            && totals.voucherCount == |entries|
            && totals.net == Total(seq(|entries|, i requires 0 <= i < |entries| => entries[i].net))
            && totals.exempt == Total(seq(|entries|, i requires 0 <= i < |entries| => entries[i].exempt))
            && totals.untaxed == Total(seq(|entries|, i requires 0 <= i < |entries| => entries[i].untaxed))
            && totals.iva == Total(seq(|entries|, i requires 0 <= i < |entries| => entries[i].iva))
            && totals.tribute == Total(seq(|entries|, i requires 0 <= i < |entries| => entries[i].tribute))
            && totals.total == Total(seq(|entries|, i requires 0 <= i < |entries| => entries[i].total))
  {
    hide SumOf, Total, PickedAll, Round;
    ColumnIsSum(entries, Net, seq(|entries|, i requires 0 <= i < |entries| => entries[i].net));
    ColumnIsSum(entries, Exempt, seq(|entries|, i requires 0 <= i < |entries| => entries[i].exempt));
    ColumnIsSum(entries, Untaxed, seq(|entries|, i requires 0 <= i < |entries| => entries[i].untaxed));
    ColumnIsSum(entries, Iva, seq(|entries|, i requires 0 <= i < |entries| => entries[i].iva));
    ColumnIsSum(entries, Tribute, seq(|entries|, i requires 0 <= i < |entries| => entries[i].tribute));
    ColumnIsSum(entries, EntryTotal, seq(|entries|, i requires 0 <= i < |entries| => entries[i].total));
  }

  lemma ColumnIsSum(entries: seq<BookEntry>, pick: Pick, amounts: seq<int>)
    requires |amounts| == |entries| && forall i | 0 <= i < |entries| :: amounts[i] == Picked(entries[i], pick)
    ensures SumOf(entries, pick) == Total(amounts)
  {
    assert PickedAll(entries, pick) == amounts;
    RoundWhole(Total(amounts));
  }

  // What the IVA columns come to -----------------------------------------------------------------------

  /** The IVA a voucher contributes: what it breaks down to, negated for a credit note. */
  function SignedIva(v: TaxedVoucher): int {
    VoucherSign(v.voucherType) * IvaTotal(BreakdownOf(v).ivaByRate)
  }

  function SignedIvaTotal(vouchers: seq<TaxedVoucher>): int {
    if vouchers == [] then 0
    else SignedIvaTotal(vouchers[..|vouchers| - 1]) + SignedIva(vouchers[|vouchers| - 1])
  }

  function Taxed(vouchers: seq<BookVoucher>): (taxed: seq<TaxedVoucher>)
    ensures |taxed| == |vouchers|
  {
    seq(|vouchers|, i requires 0 <= i < |vouchers| => vouchers[i].taxed)
  }

  lemma SignedIs(sign: int, amount: int)
    ensures Signed(sign, amount) == sign * amount
  {}

  /** Any listing of the rates sums to the same: the sum over a sequence of looked-up amounts. */
  function LookupTotal(m: map<nat, int>, rates: seq<nat>): int
    requires forall r | r in rates :: r in m
  {
    if rates == [] then 0 else m[rates[0]] + LookupTotal(m, rates[1..])
  }

  lemma {:induction false} LookupConcat(m: map<nat, int>, xs: seq<nat>, ys: seq<nat>)
    requires (forall r | r in xs :: r in m) && forall r | r in ys :: r in m
    ensures (forall r | r in xs + ys :: r in m) && LookupTotal(m, xs + ys) == LookupTotal(m, xs) + LookupTotal(m, ys)
  {
    assert forall r | r in xs + ys :: r in m;
    if xs == [] {
      assert xs + ys == ys;
    } else {
      LookupConcat(m, xs[1..], ys);
      assert (xs + ys)[1..] == xs[1..] + ys;
    }
  }

  lemma {:induction false} InsertedTotal(m: map<nat, int>, rates: seq<nat>, rate: nat)
    requires Descending(rates) && (forall r | r in rates :: r in m) && rate in m
    ensures forall r | r in InsertDescending(rates, rate) :: r in m
    ensures LookupTotal(m, InsertDescending(rates, rate)) == m[rate] + LookupTotal(m, rates)
  {
    InsertedElements(rates, rate);
    forall r | r in InsertDescending(rates, rate) ensures r in m {
      assert r in multiset(InsertDescending(rates, rate));
    }
    if rates != [] && rates[0] >= rate {
      InsertedTotal(m, rates[1..], rate);
      assert InsertDescending(rates, rate)[1..] == InsertDescending(rates[1..], rate);
    } else {
      assert ([rate] + rates)[1..] == rates;
    }
  }

  lemma {:induction false} SortedTotal(m: map<nat, int>, rates: seq<nat>)
    requires forall r | r in rates :: r in m
    ensures forall r | r in SortDescending(rates) :: r in m
    ensures LookupTotal(m, SortDescending(rates)) == LookupTotal(m, rates)
  {
    if rates != [] {
      SortedTotal(m, rates[1..]);
      SortKeeps(rates[1..]);
      InsertedTotal(m, SortDescending(rates[1..]), rates[0]);
    }
  }

  lemma {:induction false} IvaTotalIsLookup(m: RateMap)
    requires forall r | r in m.order :: r in m.amounts
    ensures IvaTotal(m) == LookupTotal(m.amounts, m.order)
    decreases |m.order|
  {
    if m.order != [] {
      var last := |m.order| - 1;
      IvaTotalIsLookup(RateMap(m.order[..last], m.amounts));
      assert m.order == m.order[..last] + [m.order[last]];
      LookupConcat(m.amounts, m.order[..last], [m.order[last]]);
      assert [m.order[last]][1..] == [];
    }
  }

  lemma {:induction false} RowsTotal(sign: int, m: map<nat, int>, rates: seq<nat>, rows: seq<RateRow>)
    requires forall r | r in rates :: r in m
    requires |rows| == |rates| && forall i | 0 <= i < |rows| :: rows[i].amount == Signed(sign, m[rates[i]])
    ensures Total(AmountsOfRows(rows)) == sign * LookupTotal(m, rates)
    decreases |rates|
  {
    if rates != [] {
      RowsTotal(sign, m, rates[1..], rows[1..]);
      SignedIs(sign, m[rates[0]]);
      assert AmountsOfRows(rows) == [rows[0].amount] + AmountsOfRows(rows[1..]);
      TotalConcat([rows[0].amount], AmountsOfRows(rows[1..]));
      assert Total([rows[0].amount]) == rows[0].amount by { assert [rows[0].amount] == [] + [rows[0].amount]; }
      assert sign * (m[rates[0]] + LookupTotal(m, rates[1..])) == sign * m[rates[0]] + sign * LookupTotal(m, rates[1..]);
    }
  }

  /** An entry's IVA total is its voucher's signed IVA, in whatever order its rates are listed. */
  lemma EntryIva(v: BookVoucher)
    ensures ToEntry(v).iva == SignedIva(v.taxed)
  {
    var m, sign := BreakdownOf(v.taxed).ivaByRate, VoucherSign(v.taxed.voucherType);
    SortedTotal(m.amounts, m.order);
    RowsTotal(sign, m.amounts, SortDescending(m.order), RateRows(sign, m));
    IvaTotalIsLookup(m);
    RoundWhole(Total(AmountsOfRows(RateRows(sign, m))));
    hide BreakdownOf, SortDescending, Signed, SignedPesos, Total, LookupTotal, IvaTotal, Round, RateRows;
  }

  lemma {:induction false} EntriesIva(vouchers: seq<BookVoucher>, picked: seq<int>)
    requires |picked| == |vouchers| && forall i | 0 <= i < |picked| :: picked[i] == SignedIva(vouchers[i].taxed)
    ensures Total(picked) == SignedIvaTotal(Taxed(vouchers))
    decreases |vouchers|
  {
    if vouchers != [] {
      var n := |vouchers| - 1;
      EntriesIva(vouchers[..n], picked[..n]);
      assert Taxed(vouchers)[..n] == Taxed(vouchers[..n]);
      hide SignedIva;
    }
  }

  /** The book's IVA total is the sum of its vouchers' signed IVA. */
  lemma BookIva(vouchers: seq<BookVoucher>)
    ensures BuildSalesBook(vouchers).totals.iva == SignedIvaTotal(Taxed(vouchers))
  {
    hide ToEntry, SignedIva, Total, Round, SignedIvaTotal;
    var picked := PickedAll(Entries(vouchers), Iva);
    forall i | 0 <= i < |picked| ensures picked[i] == SignedIva(vouchers[i].taxed) { EntryIva(vouchers[i]); }
    EntriesIva(vouchers, picked);
    RoundWhole(Total(picked));
  }

  lemma RowsDescend(sign: int, m: RateMap, i: nat)
    requires DistinctRates(m.order) && (forall r | r in m.order :: r in m.amounts) && i < |RateRows(sign, m)|
    ensures var rows := RateRows(sign, m);
            && |rows| == |m.order|
            && rows[i].rate in m.order && rows[i].amount == sign * m.amounts[rows[i].rate]
            && (forall j | i < j < |rows| :: rows[i].rate > rows[j].rate)
  {
    SortKeeps(m.order);
    SortedElements(m.order);
    var rates := SortDescending(m.order);
    hide SortDescending, Signed;
    SameElementsDistinct(m.order, rates);
    assert rates[i] in m.order;
    SignedIs(sign, m.amounts[rates[i]]);
    forall j | i < j < |rates| ensures rates[i] > rates[j] { assert rates[i] >= rates[j] && rates[i] != rates[j]; }
  }

  /** An entry lists each rate of its voucher once, from the highest, with the signed amount. */
  lemma EntryRows(v: BookVoucher, i: nat)
    requires i < |ToEntry(v).ivaByRate|
    ensures var m, rows := BreakdownOf(v.taxed).ivaByRate, ToEntry(v).ivaByRate;
            && |rows| == |m.order|
            && rows[i].rate in m.order
            && rows[i].amount == VoucherSign(v.taxed.voucherType) * Get(m, rows[i].rate)
            && (forall j | i < j < |rows| :: rows[i].rate > rows[j].rate)
  {
    IvaRatesAreThose(v.taxed.voucherType, v.taxed.items);
    hide SignedPesos, Total, Round, VoucherSign, RateRows, ColumnSum, IvaRatesOf;
    RowsDescend(VoucherSign(v.taxed.voucherType), BreakdownOf(v.taxed).ivaByRate, i);
  }

  /** What the rows list at a rate: the amount of the first row with it, or nothing. */
  ghost predicate ListsAt(rows: seq<RateRow>, rate: nat, amount: int) {
    || (exists j | 0 <= j < |rows| ::
          rows[j] == RateRow(rate, amount) && forall i | 0 <= i < j :: rows[i].rate != rate)
    || (amount == 0 && forall j | 0 <= j < |rows| :: rows[j].rate != rate)
  }

  /** ... which at every rate, listed or not, is the IVA of its voucher at that rate, with its sign. */
  lemma EntryListsItsIva(v: BookVoucher, rate: nat, amount: int)
    requires ListsAt(ToEntry(v).ivaByRate, rate, amount)
    ensures amount == VoucherSign(v.taxed.voucherType) * Get(BreakdownOf(v.taxed).ivaByRate, rate)
  {
    var m, rows := BreakdownOf(v.taxed).ivaByRate, ToEntry(v).ivaByRate;
    if j :| 0 <= j < |rows| && rows[j] == RateRow(rate, amount) {
      EntryRows(v, j);
    } else {
      SortedElements(m.order);
      var rates := SortDescending(m.order);
      hide SignedPesos, Total, Round, VoucherSign, ColumnSum, IvaRatesOf, SortDescending;
      assert forall j | 0 <= j < |rates| :: rows[j].rate == rates[j];
      assert rate !in m.order;
    }
  }
}
