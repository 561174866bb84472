/** The order in which a voucher lists its items changes nothing ARCA is told. */
module IvaOrder {
  import opened Common
  import opened Money
  import opened IvaCalculator

  lemma {:induction false} GrossInConcat(xs: seq<Item>, ys: seq<Item>, g: Group)
    ensures GrossIn(xs + ys, g) == GrossIn(xs, g) + GrossIn(ys, g)
  {
    if ys == [] {
      assert xs + ys == xs;
    } else {
      assert (xs + ys)[..|xs + ys| - 1] == xs + ys[..|ys| - 1];
      GrossInConcat(xs, ys[..|ys| - 1], g);
      hide Gross;
    }
  }

  lemma CancelOne<T>(a: multiset<T>, b: multiset<T>, x: T)
    requires a + multiset{x} == b + multiset{x}
    ensures a == b
  {
    assert a == (a + multiset{x}) - multiset{x};
  }

  /** Where the last element of one listing stands in another listing of the same elements. */
  lemma LastElsewhere<T>(xs: seq<T>, ys: seq<T>) returns (k: nat)
    requires xs != [] && multiset(xs) == multiset(ys)
    ensures k < |ys| && ys[k] == xs[|xs| - 1]
    ensures ys == ys[..k] + [ys[k]] + ys[k + 1..]
    ensures multiset(xs[..|xs| - 1]) == multiset(ys[..k] + ys[k + 1..])
  {
    var last, before := xs[|xs| - 1], xs[..|xs| - 1];
    assert xs == before + [last];
    assert last in multiset(ys);
    k :| 0 <= k < |ys| && ys[k] == last;
    assert ys == ys[..k] + [last] + ys[k + 1..];
    assert multiset(ys) == multiset(ys[..k]) + multiset{last} + multiset(ys[k + 1..]);
    assert multiset(xs) == multiset(before) + multiset{last};
    CancelOne(multiset(before), multiset(ys[..k]) + multiset(ys[k + 1..]), last);
  }

  lemma {:induction false} GrossInPermuted(xs: seq<Item>, ys: seq<Item>, g: Group)
    requires multiset(xs) == multiset(ys)
    ensures GrossIn(xs, g) == GrossIn(ys, g)
  {
    if xs == [] {
      assert |ys| == |multiset(ys)|;
    } else {
      var k := LastElsewhere(xs, ys);
      var before, last := xs[..|xs| - 1], xs[|xs| - 1];
      GrossInPermuted(before, ys[..k] + ys[k + 1..], g);
      GrossInConcat(ys[..k], ys[k + 1..], g);
      GrossInConcat(ys[..k] + [last], ys[k + 1..], g);
      GrossInConcat(ys[..k], [last], g);
      assert xs == before + [last];
      GrossInConcat(before, [last], g);
    }
  }

  lemma SameOccupied(xs: seq<Item>, ys: seq<Item>, g: Group)
    requires multiset(xs) == multiset(ys)
    ensures Occupied(xs, g) ==> Occupied(ys, g)
  {
    if Occupied(xs, g) {
      var i :| 0 <= i < |xs| && GroupOf(xs[i]) == g;
      assert xs[i] in multiset(ys);
    }
  }

  lemma {:induction false} DistinctCounts(rates: seq<nat>)
    requires forall i, j | 0 <= i < j < |rates| :: rates[i] != rates[j]
    ensures forall r: nat :: multiset(rates)[r] == if r in rates then 1 else 0
  {
    if rates != [] {
      var last := |rates| - 1;
      DistinctCounts(rates[..last]);
      assert rates == rates[..last] + [rates[last]];
    }
  }

  lemma RatesPermuted(xs: seq<Item>, ys: seq<Item>)
    requires multiset(xs) == multiset(ys)
    ensures multiset(RatesOf(xs)) == multiset(RatesOf(ys))
    ensures forall r: nat :: r in RatesOf(xs) <==> r in RatesOf(ys)
  {
    RatesAreThose(xs);
    RatesAreThose(ys);
    forall r: nat ensures r in RatesOf(xs) <==> r in RatesOf(ys) {
      SameOccupied(xs, ys, AtRate(r));
      SameOccupied(ys, xs, AtRate(r));
      assert r in RatesOf(xs) <==> Occupied(xs, AtRate(r));
      assert r in RatesOf(ys) <==> Occupied(ys, AtRate(r));
    }
    DistinctCounts(RatesOf(xs));
    DistinctCounts(RatesOf(ys));
    hide RatesOf;
    forall r: nat ensures multiset(RatesOf(xs))[r] == multiset(RatesOf(ys))[r] {}
  }

  lemma MovedTotal(xs: seq<int>, ys: seq<int>, x: int)
    ensures Total(xs + [x] + ys) == Total(xs + ys) + x
  {
    TotalConcat(xs + [x], ys);
    TotalConcat(xs, ys);
    TotalLast(xs, x);
  }

  lemma EntryMoved(items: seq<Item>, rs: seq<nat>, ss: seq<nat>, r: nat)
    ensures Entries(items, rs + [r] + ss) == Entries(items, rs) + [EntryFor(items, r)] + Entries(items, ss)
    ensures Entries(items, rs + ss) == Entries(items, rs) + Entries(items, ss)
  {}

  lemma TotalsMoved(a: seq<RateEntry>, e: RateEntry, b: seq<RateEntry>)
    ensures Total(Bases(a + [e] + b)) == Total(Bases(a + b)) + e.taxableBase
    ensures Total(Ivas(a + [e] + b)) == Total(Ivas(a + b)) + e.amount
  {
    assert Bases(a + [e] + b) == Bases(a) + [e.taxableBase] + Bases(b) && Bases(a + b) == Bases(a) + Bases(b);
    assert Ivas(a + [e] + b) == Ivas(a) + [e.amount] + Ivas(b) && Ivas(a + b) == Ivas(a) + Ivas(b);
    MovedTotal(Bases(a), Bases(b), e.taxableBase);
    MovedTotal(Ivas(a), Ivas(b), e.amount);
  }

  /** Listing the same rates in another order lists the same entries in another order. */
  lemma {:induction false} EntriesPermuted(items: seq<Item>, rs: seq<nat>, ss: seq<nat>)
    requires multiset(rs) == multiset(ss)
    ensures multiset(Entries(items, rs)) == multiset(Entries(items, ss))
    ensures Total(Bases(Entries(items, rs))) == Total(Bases(Entries(items, ss)))
    ensures Total(Ivas(Entries(items, rs))) == Total(Ivas(Entries(items, ss)))
  {
    if rs == [] {
      assert |ss| == |multiset(ss)|;
    } else {
      var k := LastElsewhere(rs, ss);
      var last, before := rs[|rs| - 1], rs[..|rs| - 1];
      EntriesPermuted(items, before, ss[..k] + ss[k + 1..]);
      assert rs == before + [last];
      OneMoreEntry(items, before, last);
      EntryMoved(items, ss[..k], ss[k + 1..], last);
      TotalsMoved(Entries(items, ss[..k]), EntryFor(items, last), Entries(items, ss[k + 1..]));
      hide Entries, EntryFor, Bases, Ivas, Total;
    }
  }

  lemma SameEntries(xs: seq<Item>, ys: seq<Item>, rates: seq<nat>)
    requires forall g :: GrossIn(xs, g) == GrossIn(ys, g)
    ensures Entries(xs, rates) == Entries(ys, rates)
  {}

  lemma SplitPermuted(xs: seq<Item>, ys: seq<Item>)
    requires multiset(xs) == multiset(ys)
    ensures SplitOf(xs).Split? <==> SplitOf(ys).Split?
    ensures SplitOf(xs).Split? ==>
              && SplitOf(xs).net == SplitOf(ys).net && SplitOf(xs).iva == SplitOf(ys).iva
              && multiset(SplitOf(xs).rates) == multiset(SplitOf(ys).rates)
  {
    forall g ensures GrossIn(xs, g) == GrossIn(ys, g) { GrossInPermuted(xs, ys, g); }
    RatesPermuted(xs, ys);
    SameEntries(xs, ys, RatesOf(xs));
    EntriesPermuted(ys, RatesOf(xs), RatesOf(ys));
    hide GrossIn, RatesOf, Entries, Bases, Ivas, Total;
  }

  /** Permuting the items changes no amount, and lists the same rate entries. */
  lemma OrderDoesNotMatter(voucherType: int, xs: seq<Item>, ys: seq<Item>, tributes: seq<Tribute>)
    requires multiset(xs) == multiset(ys)
    ensures AmountsOf(voucherType, xs, tributes).Some? <==> AmountsOf(voucherType, ys, tributes).Some?
    ensures AmountsOf(voucherType, xs, tributes).Some? ==>
              var a, b := AmountsOf(voucherType, xs, tributes).value, AmountsOf(voucherType, ys, tributes).value;
              a == b.(rates := a.rates) && multiset(a.rates) == multiset(b.rates)
  {
    GrossInPermuted(xs, ys, Everything);
    GrossInPermuted(xs, ys, Exempt);
    GrossInPermuted(xs, ys, Untaxed);
    SplitPermuted(xs, ys);
    hide GrossIn, SplitOf, TributeEntries, TributeTotal, Round;
  }
}
