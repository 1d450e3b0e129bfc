/** ProfileBuilder: the taste profile a user's bar yields (app.py,
    analyze_user_bar). An empty bar, or one whose products miss a field or
    carry a non-numeric proof or price, yields the fixed default profile; a
    bar entry without a product is a KeyError that escapes. */
module ProfileBuilder {
  import opened Common
  import opened Ranking

  /** The `product` record of a bar entry as the bar-tracking service sends it. */
  datatype Product = Product(proof: NumField, averageMsrp: NumField, brand: Option<string>, spirit: Option<string>)

  /** One entry of a user's bar; the `product` key may be absent. */
  datatype BarEntry = BarEntry(product: Option<Product>)

  /** A product whose four fields were all read successfully. */
  datatype OwnedBottle = OwnedBottle(proof: real, price: real, brand: string, spirit: string)

  datatype TasteProfile = TasteProfile(
    avgProof: real,
    proofRange: Range,
    priceRange: Range,
    spirits: seq<string>,
    favoriteSpirits: seq<string>,
    favoriteBrands: seq<string>)

  const DefaultSpirit := "whiskey"
  const DefaultBrand := "Jameson"
  const DefaultProof := 80.0
  const DefaultPrice := 30.0

  const DefaultProfile := TasteProfile(
    DefaultProof, Range(DefaultProof, DefaultProof), Range(DefaultPrice, DefaultPrice),
    [DefaultSpirit], [DefaultSpirit], [DefaultBrand])

  /** `[b['product'] for b in user_bar]`: None when some entry has no product. */
  function Products(bar: seq<BarEntry>): (r: Option<seq<Product>>)
    ensures r.Some? <==> forall i :: 0 <= i < |bar| ==> bar[i].product.Some?
    ensures r.Some? ==> |r.value| == |bar| && forall i :: 0 <= i < |bar| ==> r.value[i] == bar[i].product.value
  {
    if bar == [] then Some([])
    else
      var rest := Products(bar[1..]);
      assert forall i :: 1 <= i < |bar| ==> bar[i] == bar[1..][i - 1];
      if bar[0].product.Some? && rest.Some? then Some([bar[0].product.value] + rest.value) else None
  }

  /** A product every field of which the code can read. */
  predicate WellFormed(p: Product) {
    p.proof.Num? && p.averageMsrp.Num? && p.brand.Some? && p.spirit.Some?
  }

  function ToBottle(p: Product): OwnedBottle
    requires WellFormed(p)
  {
    OwnedBottle(p.proof.value, p.averageMsrp.value, p.brand.value, p.spirit.value)
  }

  /** The reads inside the `try` of analyze_user_bar: None when one of them
      raises KeyError or ValueError. */
  function Bottles(ps: seq<Product>): (r: Option<seq<OwnedBottle>>)
    ensures r.Some? <==> forall i :: 0 <= i < |ps| ==> WellFormed(ps[i])
    ensures r.Some? ==> |r.value| == |ps| && forall i :: 0 <= i < |ps| ==> r.value[i] == ToBottle(ps[i])
  {
    if ps == [] then Some([])
    else
      var rest := Bottles(ps[1..]);
      assert forall i :: 1 <= i < |ps| ==> ps[i] == ps[1..][i - 1];
      if WellFormed(ps[0]) && rest.Some? then Some([ToBottle(ps[0])] + rest.value) else None
  }

  function Proofs(bs: seq<OwnedBottle>): seq<real> { seq(|bs|, i requires 0 <= i < |bs| => bs[i].proof) }
  function Prices(bs: seq<OwnedBottle>): seq<real> { seq(|bs|, i requires 0 <= i < |bs| => bs[i].price) }
  function Brands(bs: seq<OwnedBottle>): seq<string> { seq(|bs|, i requires 0 <= i < |bs| => bs[i].brand) }
  function Spirits(bs: seq<OwnedBottle>): seq<string> { seq(|bs|, i requires 0 <= i < |bs| => bs[i].spirit) }

  /** `dict.items()` of the counts of xs: each distinct value, first-seen
      order, with its number of occurrences. */
  function CountItems(xs: seq<string>): seq<(string, nat)> {
    var d := Distinct(xs);
    seq(|d|, i requires 0 <= i < |d| => (d[i], Count(xs, d[i])))
  }

  function ItemKey(item: (string, nat)): string { item.0 }
  function ItemCount(item: (string, nat)): int { item.1 }

  /** The occurrence count in xs, as a sort key. */
  function CountIn(xs: seq<string>): string -> int {
    s => Count(xs, s)
  }

  /** The profile of a bar once every field has been read, given the spirit
      and brand count items. */
  function Assemble(bs: seq<OwnedBottle>, spiritItems: seq<(string, nat)>, brandItems: seq<(string, nat)>): TasteProfile {
    var proofs := Proofs(bs);
    var prices := Prices(bs);
    var favoriteSpirits := SortDesc(spiritItems, ItemCount);
    var favoriteBrands := SortDesc(brandItems, ItemCount);
    TasteProfile(
      if proofs != [] then Mean(proofs) else DefaultProof,
      Range(if proofs != [] then Min(proofs) else DefaultProof, if proofs != [] then Max(proofs) else DefaultProof),
      Range(if prices != [] then Min(prices) else DefaultPrice, if prices != [] then Max(prices) else DefaultPrice),
      MapSeq(ItemKey, spiritItems),
      if favoriteSpirits != [] then MapSeq(ItemKey, favoriteSpirits) else [DefaultSpirit],
      if favoriteBrands != [] then MapSeq(ItemKey, favoriteBrands) else [DefaultBrand])
  }

  function Summarize(bs: seq<OwnedBottle>): TasteProfile {
    Assemble(bs, CountItems(Spirits(bs)), CountItems(Brands(bs)))
  }

  /** analyze_user_bar as a function of the bar: every failure inside the
      `try` falls back to the default profile, so the only exception that
      escapes is the KeyError of an entry without a product. */
  function BarProfile(bar: seq<BarEntry>): (r: Result<TasteProfile, Error>)
    ensures r.Failure? <==> exists i :: 0 <= i < |bar| && bar[i].product.None?
    ensures r.Failure? ==> r.error == KeyMissing("product")
  {
    if bar == [] then Success(DefaultProfile)
    else match Products(bar)
      case None => Failure(KeyMissing("product"))
      case Some(ps) =>
        match Bottles(ps)
        case None => Success(DefaultProfile)
        case Some(bs) => Success(Summarize(bs))
  }

  /** The counting loop `counts[x] = counts.get(x, 0) + 1` over xs, returning
      the dict's items in insertion order. */
  method CountOccurrences(xs: seq<string>) returns (items: seq<(string, nat)>)
    ensures items == CountItems(xs)
  {
    var keys: seq<string> := [];
    var counts: map<string, nat> := map[];
    for i := 0 to |xs|
      invariant keys == Distinct(xs[..i])
      invariant forall k :: k in counts <==> k in keys
      invariant forall k :: k in counts ==> counts[k] == Count(xs[..i], k)
    {
      var x := xs[i];
      assert xs[..i + 1][..i] == xs[..i];
      assert forall k :: Count(xs[..i + 1], k) == Count(xs[..i], k) + (if x == k then 1 else 0);
      if x !in counts {
        keys := keys + [x];
      }
      CountPositive(xs[..i], x);
      ghost var before := counts;
      counts := counts[x := (if x in counts then counts[x] else 0) + 1];
      forall k | k in counts ensures counts[k] == Count(xs[..i + 1], k) {
        if k != x {
          assert k in before;
        }
      }
    }
    assert xs[..|xs|] == xs;
    items := seq(|keys|, j requires 0 <= j < |keys| => (keys[j], counts[keys[j]]));
  }

  /** analyze_user_bar, with its two counting loops. */
  method AnalyzeUserBar(bar: seq<BarEntry>) returns (r: Result<TasteProfile, Error>)
    ensures r == BarProfile(bar)
  {
    if bar == [] {
      return Success(DefaultProfile);
    }
    var products := Products(bar);
    if products.None? {
      return Failure(KeyMissing("product"));
    }
    var bottles := Bottles(products.value);
    if bottles.None? {
      return Success(DefaultProfile);
    }
    var bs := bottles.value;
    var spiritCounts := CountOccurrences(Spirits(bs));
    var brandCounts := CountOccurrences(Brands(bs));
    r := Success(Assemble(bs, spiritCounts, brandCounts));
  }

  predicate WellFormedBar(bar: seq<BarEntry>) {
    Products(bar).Some? && Bottles(Products(bar).value).Some?
  }

  /** The fallback and error cases: the empty bar and a bar holding a
      malformed product give exactly the default profile; a bar entry without
      a product is the only failure. */
  lemma FallbackToDefault(bar: seq<BarEntry>)
    ensures bar == [] ==> BarProfile(bar) == Success(DefaultProfile)
    ensures BarProfile(bar).Failure? <==> exists i :: 0 <= i < |bar| && bar[i].product.None?
    ensures BarProfile(bar).Failure? ==> BarProfile(bar).error == KeyMissing("product")
    ensures (forall i :: 0 <= i < |bar| ==> bar[i].product.Some?)
            && (exists i :: 0 <= i < |bar| && !WellFormed(bar[i].product.value))
            ==> BarProfile(bar) == Success(DefaultProfile)
  {
    if exists i :: 0 <= i < |bar| && bar[i].product.None? {
      assert bar != [];
    }
  }

  /** Every profile the builder returns has its average proof inside its
      proof range and an ordered price range. */
  lemma ProfileRangesOrdered(bar: seq<BarEntry>)
    requires BarProfile(bar).Success?
    ensures var p := BarProfile(bar).value;
            p.proofRange.low <= p.avgProof <= p.proofRange.high && p.priceRange.low <= p.priceRange.high
  {
    if bar != [] && WellFormedBar(bar) {
      var bs := Bottles(Products(bar).value).value;
      var proofs, prices := Proofs(bs), Prices(bs);
      assert proofs != [] && prices != [];
      MeanWithin(proofs);
      assert Min(prices) <= prices[0] <= Max(prices);
    }
  }

  /** Sorting the count items by count and keeping the values is sorting
      the distinct values by their count. */
  lemma RankedItemsAreRankedValues(xs: seq<string>)
    ensures MapSeq(ItemKey, SortDesc(CountItems(xs), ItemCount)) == SortDesc(Distinct(xs), CountIn(xs))
  {
    var items := CountItems(xs);
    forall y | y in items ensures ItemCount(y) == CountIn(xs)(ItemKey(y)) {
      var i :| 0 <= i < |items| && items[i] == y;
    }
    SortDescMap(ItemKey, items, ItemCount, CountIn(xs));
    assert MapSeq(ItemKey, items) == Distinct(xs);
  }

  /** The ranking by count: the distinct values of xs, each once, ordered by
      count from highest down, values of equal count in first-seen order, the
      first of maximal count. */
  lemma RankedByCount(xs: seq<string>)
    ensures var r := SortDesc(Distinct(xs), CountIn(xs));
            && multiset(r) == multiset(Distinct(xs))
            && (forall i, j :: 0 <= i < j < |r| ==> Count(xs, r[i]) >= Count(xs, r[j]))
            && (forall c :: WithKey(r, CountIn(xs), c) == WithKey(Distinct(xs), CountIn(xs), c))
            && (xs != [] ==> r != [] && forall x :: x in xs ==> Count(xs, x) <= Count(xs, r[0]))
  {
    var d := Distinct(xs);
    var r := SortDesc(d, CountIn(xs));
    SortDescOrderedPermutation(d, CountIn(xs));
    SortDescStable(d, CountIn(xs));
    assert forall i, j :: 0 <= i < j < |r| ==> CountIn(xs)(r[i]) >= CountIn(xs)(r[j]);
    if xs != [] {
      assert xs[0] in d;
      forall x | x in xs ensures Count(xs, x) <= Count(xs, r[0]) {
        assert x in multiset(d);
        assert x in r;
        var k :| 0 <= k < |r| && r[k] == x;
        if k > 0 {
          assert CountIn(xs)(r[0]) >= CountIn(xs)(r[k]);
        }
      }
    }
  }

  /** A non-empty bar whose products are all complete is summarised from its
      bottles: it does not take the fallback path. */
  lemma WellFormedBarSummary(bar: seq<BarEntry>)
    requires bar != [] && WellFormedBar(bar)
    ensures var bs := Bottles(Products(bar).value).value;
            |bs| == |bar| && BarProfile(bar) == Success(Summarize(bs))
  {
  }

  /** The numbers of a summary: the proof range is the least and greatest
      proof, the average proof is their mean and lies within the range; the
      price range is the least and greatest price. */
  lemma SummaryNumbers(bs: seq<OwnedBottle>)
    requires bs != []
    ensures var p := Summarize(bs);
            && p.proofRange.low in Proofs(bs) && p.proofRange.high in Proofs(bs)
            && (forall b :: b in bs ==> p.proofRange.low <= b.proof <= p.proofRange.high)
            && p.avgProof == Sum(Proofs(bs)) / |bs| as real
            && p.proofRange.low <= p.avgProof <= p.proofRange.high
            && p.priceRange.low in Prices(bs) && p.priceRange.high in Prices(bs)
            && (forall b :: b in bs ==> p.priceRange.low <= b.price <= p.priceRange.high)
  {
    var proofs, prices := Proofs(bs), Prices(bs);
    var p := Summarize(bs);
    assert p.proofRange == Range(Min(proofs), Max(proofs));
    assert p.priceRange == Range(Min(prices), Max(prices));
    assert p.avgProof == Mean(proofs);
    MeanWithin(proofs);
    forall b | b in bs ensures Min(proofs) <= b.proof <= Max(proofs) && Min(prices) <= b.price <= Max(prices) {
      var i :| 0 <= i < |bs| && bs[i] == b;
      assert proofs[i] == b.proof && prices[i] == b.price;
    }
  }

  /** The lists of a summary: `spirits` is the distinct spirits in first-seen
      order and both favourite lists are the distinct values sorted by count,
      highest first, ties in first-seen order (RankedByCount gives the
      properties of that ordering). */
  lemma SummaryRankings(bs: seq<OwnedBottle>)
    requires bs != []
    ensures var p := Summarize(bs);
            && p.spirits == Distinct(Spirits(bs))
            && p.favoriteSpirits == SortDesc(Distinct(Spirits(bs)), CountIn(Spirits(bs)))
            && p.favoriteBrands == SortDesc(Distinct(Brands(bs)), CountIn(Brands(bs)))
  {
    var spirits, brands := Spirits(bs), Brands(bs);
    RankedItemsAreRankedValues(spirits);
    RankedItemsAreRankedValues(brands);
    SortDescOrderedPermutation(CountItems(spirits), ItemCount);
    SortDescOrderedPermutation(CountItems(brands), ItemCount);
    assert MapSeq(ItemKey, CountItems(spirits)) == Distinct(spirits);
    assert spirits[0] in Distinct(spirits);
    assert brands[0] in Distinct(brands);
  }

  /** The record fetch_user_bar falls back to when the service is unreachable. */
  const FetchFallbackBar := [BarEntry(Some(Product(Num(80.0), Num(30.0), Some("Jameson"), Some("whiskey"))))]

  /** A single Jameson bottle (proof 80, price 30) gives average proof 80 and
      favourite spirit whiskey: the very values of the default profile, so the
      two paths cannot be told apart from the result. */
  lemma JamesonBarProfile()
    ensures BarProfile(FetchFallbackBar) == Success(DefaultProfile)
  {
    var bs := Bottles(Products(FetchFallbackBar).value).value;
    assert bs == [OwnedBottle(80.0, 30.0, "Jameson", "whiskey")];
    assert Spirits(bs) == ["whiskey"];
    assert Brands(bs) == ["Jameson"];
    SingleValueRanking("whiskey");
    SingleValueRanking("Jameson");
    assert Proofs(bs) == [80.0];
    assert Prices(bs) == [30.0];
    assert Mean([80.0]) == 80.0;
  }

  /** A single value counts once and ranks alone. */
  lemma SingleValueRanking(x: string)
    ensures CountItems([x]) == [(x, 1)]
    ensures MapSeq(ItemKey, CountItems([x])) == [x]
    ensures MapSeq(ItemKey, SortDesc(CountItems([x]), ItemCount)) == [x]
  {
    assert [x][..0] == [];
    assert Distinct([x]) == [x];
    assert Count([x], x) == 1;
    var items := CountItems([x]);
    assert items == [(x, 1)];
    assert SortDesc(items, ItemCount) == items;
  }
}
