/** LiquorRecommender: the command-line recommender (liquor_recommender.py).
    Its analyze_user_bar has no fallback: an empty bar, a missing field or a
    non-numeric proof or price raises. Its counting dict comprehensions read
    the empty dict they are about to replace, so every count is 1 and the
    "favourite" lists are simply the distinct values in first-seen order.
    Its main derives the target exactly as the web pipeline does and passes
    the prefiltered candidates on with no minimum. */
module LiquorRecommender {
  import opened Common
  import opened Ranking
  import opened ProfileBuilder
  import opened CandidateFilter
  import opened Orchestrator

  /** The four lists read from the products. */
  datatype Readings = Readings(proofs: seq<real>, prices: seq<real>, brands: seq<string>, spirits: seq<string>)

  /** `[float(p[key]) for p in products]`: the first product whose field is
      absent raises KeyError, one that is not a number ValueError. */
  function ReadNumbers(ps: seq<Product>, key: string, field: Product -> NumField): (r: Result<seq<real>, Error>)
    ensures r.Success? <==> forall i :: 0 <= i < |ps| ==> field(ps[i]).Num?
    ensures r.Success? ==> |r.value| == |ps| && forall i :: 0 <= i < |ps| ==> r.value[i] == field(ps[i]).value
    ensures r.Failure? ==> r.error == KeyMissing(key) || r.error == NotANumber(key)
  {
    if ps == [] then Success([])
    else
      assert forall i :: 1 <= i < |ps| ==> ps[i] == ps[1..][i - 1];
      match field(ps[0])
      case Missing => Failure(KeyMissing(key))
      case NotNumeric => Failure(NotANumber(key))
      case Num(v) =>
        match ReadNumbers(ps[1..], key, field)
        case Failure(e) => Failure(e)
        case Success(rest) => Success([v] + rest)
  }

  /** `[p[key] for p in products]`: KeyError on the first product without
      the field. */
  function ReadNames(ps: seq<Product>, key: string, field: Product -> Option<string>): (r: Result<seq<string>, Error>)
    ensures r.Success? <==> forall i :: 0 <= i < |ps| ==> field(ps[i]).Some?
    ensures r.Success? ==> |r.value| == |ps| && forall i :: 0 <= i < |ps| ==> r.value[i] == field(ps[i]).value
    ensures r.Failure? ==> r.error == KeyMissing(key)
  {
    if ps == [] then Success([])
    else
      assert forall i :: 1 <= i < |ps| ==> ps[i] == ps[1..][i - 1];
      match field(ps[0])
      case None => Failure(KeyMissing(key))
      case Some(v) =>
        match ReadNames(ps[1..], key, field)
        case Failure(e) => Failure(e)
        case Success(rest) => Success([v] + rest)
  }

  /** The reads of analyze_user_bar in the order the code makes them: all
      products, then every proof, every price, every brand, every spirit;
      then `min(proofs)` raises on an empty bar. */
  function ReadBar(bar: seq<BarEntry>): (r: Result<Readings, Error>)
    ensures r.Success? ==> var d := r.value;
              && |d.proofs| == |bar| > 0 && |d.prices| == |bar| && |d.brands| == |bar| && |d.spirits| == |bar|
  {
    match Products(bar)
    case None => Failure(KeyMissing("product"))
    case Some(ps) =>
      match ReadNumbers(ps, "proof", (p: Product) => p.proof)
      case Failure(e) => Failure(e)
      case Success(proofs) =>
        match ReadNumbers(ps, "average_msrp", (p: Product) => p.averageMsrp)
        case Failure(e) => Failure(e)
        case Success(prices) =>
          match ReadNames(ps, "brand", (p: Product) => p.brand)
          case Failure(e) => Failure(e)
          case Success(brands) =>
            match ReadNames(ps, "spirit", (p: Product) => p.spirit)
            case Failure(e) => Failure(e)
            case Success(spirits) =>
              if proofs == [] then Failure(EmptyMin) else Success(Readings(proofs, prices, brands, spirits))
  }

  /** `{k: outer.get(k, 0) + 1 for k in xs}`: the keys of xs in first-seen
      order, each mapped to one more than its entry in `outer`. */
  function ComprehensionCounts(xs: seq<string>, outer: map<string, nat>): seq<(string, nat)> {
    var d := Distinct(xs);
    seq(|d|, i requires 0 <= i < |d| => (d[i], (if d[i] in outer then outer[d[i]] else 0) + 1))
  }

  /** The profile once the lists are read, given the spirit and brand count
      items. */
  function ProfileOf(d: Readings, spiritItems: seq<(string, nat)>, brandItems: seq<(string, nat)>): TasteProfile
    requires d.proofs != [] && d.prices != []
  {
    TasteProfile(
      Mean(d.proofs),
      Range(Min(d.proofs), Max(d.proofs)),
      Range(Min(d.prices), Max(d.prices)),
      MapSeq(ItemKey, spiritItems),
      MapSeq(ItemKey, SortDesc(spiritItems, ItemCount)),
      MapSeq(ItemKey, SortDesc(brandItems, ItemCount)))
  }

  /** analyze_user_bar of liquor_recommender.py, as written: the counts come
      from comprehensions over the empty dict. */
  function ScriptProfile(bar: seq<BarEntry>): (r: Result<TasteProfile, Error>)
    ensures r.Success? <==> ReadBar(bar).Success?
    ensures r.Success? ==> var p := r.value;
              p.proofRange.low <= p.avgProof <= p.proofRange.high && p.priceRange.low <= p.priceRange.high
  {
    match ReadBar(bar)
    case Failure(e) => Failure(e)
    case Success(d) =>
      MeanWithin(d.proofs);
      assert Min(d.prices) <= d.prices[0] <= Max(d.prices);
      Success(ProfileOf(d, ComprehensionCounts(d.spirits, map[]), ComprehensionCounts(d.brands, map[])))
  }

  /** The same analysis with each value counted, as the sort by count
      intends. */
  function CountedProfile(bar: seq<BarEntry>): Result<TasteProfile, Error> {
    match ReadBar(bar)
    case Failure(e) => Failure(e)
    case Success(d) => Success(ProfileOf(d, CountItems(d.spirits), CountItems(d.brands)))
  }

  /** The analyzer succeeds exactly on a non-empty bar whose entries all
      have a product with all four fields readable; an empty bar is the
      ValueError of min(), a missing product the KeyError of 'product'. */
  lemma ScriptProfileErrors(bar: seq<BarEntry>)
    ensures ScriptProfile(bar).Success? <==> bar != [] && WellFormedBar(bar)
    ensures bar == [] ==> ScriptProfile(bar) == Failure(EmptyMin)
    ensures (exists i :: 0 <= i < |bar| && bar[i].product.None?) ==> ScriptProfile(bar) == Failure(KeyMissing("product"))
    ensures CountedProfile(bar).Success? <==> ScriptProfile(bar).Success?
  {
    match Products(bar)
    case None =>
    case Some(ps) =>
      var proofs := ReadNumbers(ps, "proof", (p: Product) => p.proof);
      var prices := ReadNumbers(ps, "average_msrp", (p: Product) => p.averageMsrp);
      var brands := ReadNames(ps, "brand", (p: Product) => p.brand);
      var spirits := ReadNames(ps, "spirit", (p: Product) => p.spirit);
      assert (proofs.Success? && prices.Success? && brands.Success? && spirits.Success?)
             <==> forall i :: 0 <= i < |ps| ==> WellFormed(ps[i]);
  }

  /** Every count of the comprehension over the empty dict is 1, and its
      keys are the distinct values in first-seen order. */
  lemma EveryCountIsOne(xs: seq<string>)
    ensures var items := ComprehensionCounts(xs, map[]);
            && MapSeq(ItemKey, items) == Distinct(xs)
            && forall i :: 0 <= i < |items| ==> ItemCount(items[i]) == 1
  {
  }

  /** As written, sorting by those counts changes nothing: the "favourite"
      list is the distinct values in first-seen order, whatever their
      frequency. */
  lemma ScriptRankingIsFirstSeen(xs: seq<string>)
    ensures MapSeq(ItemKey, SortDesc(ComprehensionCounts(xs, map[]), ItemCount)) == Distinct(xs)
  {
    var items := ComprehensionCounts(xs, map[]);
    EveryCountIsOne(xs);
    SortDescConstantKey(items, ItemCount, 1);
  }

  /** What a successful analysis yields: the proof range is the least and
      greatest proof with the average in between, the price range is
      ordered, and `spirits` and `favorite_spirits` are both the distinct
      spirits in first-seen order (and `favorite_brands` the distinct
      brands). */
  lemma ScriptProfileShape(bar: seq<BarEntry>)
    requires ScriptProfile(bar).Success?
    ensures var p := ScriptProfile(bar).value;
            var d := ReadBar(bar).value;
            && p.avgProof == Mean(d.proofs)
            && p.proofRange == Range(Min(d.proofs), Max(d.proofs))
            && p.proofRange.low <= p.avgProof <= p.proofRange.high
            && p.priceRange == Range(Min(d.prices), Max(d.prices))
            && p.priceRange.low <= p.priceRange.high
            && p.spirits == Distinct(d.spirits)
            && p.favoriteSpirits == Distinct(d.spirits)
            && p.favoriteBrands == Distinct(d.brands)
  {
    var d := ReadBar(bar).value;
    MeanWithin(d.proofs);
    assert Min(d.prices) <= d.prices[0] <= Max(d.prices);
    EveryCountIsOne(d.spirits);
    ScriptRankingIsFirstSeen(d.spirits);
    ScriptRankingIsFirstSeen(d.brands);
  }

  /** With the values counted, the favourite spirits are the distinct
      spirits from most to least frequent, ties in first-seen order, and
      the first of them is a most frequent spirit of the bar; everything
      else matches the analysis as written. */
  lemma CountedProfileRanks(bar: seq<BarEntry>)
    requires CountedProfile(bar).Success?
    ensures var p := CountedProfile(bar).value;
            var q := ScriptProfile(bar).value;
            var d := ReadBar(bar).value;
            && ScriptProfile(bar).Success?
            && p.favoriteSpirits == SortDesc(Distinct(d.spirits), CountIn(d.spirits))
            && p.favoriteBrands == SortDesc(Distinct(d.brands), CountIn(d.brands))
            && (forall s :: s in d.spirits ==> Count(d.spirits, s) <= Count(d.spirits, p.favoriteSpirits[0]))
            && p.avgProof == q.avgProof && p.proofRange == q.proofRange && p.priceRange == q.priceRange
            && p.spirits == q.spirits
  {
    var d := ReadBar(bar).value;
    RankedItemsAreRankedValues(d.spirits);
    RankedItemsAreRankedValues(d.brands);
    RankedByCount(d.spirits);
    EveryCountIsOne(d.spirits);
    assert MapSeq(ItemKey, CountItems(d.spirits)) == Distinct(d.spirits);
  }

  /** A bar of one vodka and two whiskeys (all proof 80, price 30). */
  const VodkaFirstBar := [
    BarEntry(Some(Product(Num(80.0), Num(30.0), Some("Tito's"), Some("vodka")))),
    BarEntry(Some(Product(Num(80.0), Num(30.0), Some("Jameson"), Some("whiskey")))),
    BarEntry(Some(Product(Num(80.0), Num(30.0), Some("Jameson"), Some("whiskey"))))
  ]

  /** On that bar the analysis as written names vodka the favourite spirit,
      although whiskey occurs twice as often; with counting it is whiskey. */
  lemma VodkaFirstBarFavorite()
    ensures ScriptProfile(VodkaFirstBar).Success? && ScriptProfile(VodkaFirstBar).value.favoriteSpirits[0] == "vodka"
    ensures CountedProfile(VodkaFirstBar).Success? && CountedProfile(VodkaFirstBar).value.favoriteSpirits[0] == "whiskey"
  {
    VodkaFirstReadings();
    var spirits := ["vodka", "whiskey", "whiskey"];
    VodkaFirstCounts();
    ScriptProfileShape(VodkaFirstBar);
    CountedProfileRanks(VodkaFirstBar);
    var top := CountedProfile(VodkaFirstBar).value.favoriteSpirits[0];
    assert top in spirits by {
      assert top in SortDesc(Distinct(spirits), CountIn(spirits));
      SortDescOrderedPermutation(Distinct(spirits), CountIn(spirits));
      assert top in multiset(Distinct(spirits));
    }
  }

  lemma VodkaFirstReadings()
    ensures ScriptProfile(VodkaFirstBar).Success?
    ensures ReadBar(VodkaFirstBar).value.spirits == ["vodka", "whiskey", "whiskey"]
  {
    var bar := VodkaFirstBar;
    var ps := Products(bar).value;
    assert ps == [bar[0].product.value, bar[1].product.value, bar[2].product.value];
    var proofs := ReadNumbers(ps, "proof", (p: Product) => p.proof);
    var prices := ReadNumbers(ps, "average_msrp", (p: Product) => p.averageMsrp);
    var brands := ReadNames(ps, "brand", (p: Product) => p.brand);
    var spirits := ReadNames(ps, "spirit", (p: Product) => p.spirit);
    assert proofs.Success? && prices.Success? && brands.Success? && spirits.Success?;
    assert |proofs.value| == 3;
    assert spirits.value == ["vodka", "whiskey", "whiskey"];
  }

  lemma VodkaFirstCounts()
    ensures var spirits := ["vodka", "whiskey", "whiskey"];
            Distinct(spirits) == ["vodka", "whiskey"] && Count(spirits, "whiskey") == 2 && Count(spirits, "vodka") == 1
  {
    var spirits := ["vodka", "whiskey", "whiskey"];
    assert spirits[..1] == ["vodka"] && spirits[..2] == ["vodka", "whiskey"];
    assert ["vodka"][..0] == [];
    assert Distinct(["vodka"]) == ["vodka"];
    assert Distinct(spirits[..2]) == ["vodka", "whiskey"];
    assert Count(spirits[..2], "whiskey") == 1;
    assert Count(spirits[..2], "vodka") == 1;
  }

  /** main, from the analysis to the prefilter: the target of the profile
      as written and up to twenty candidates, with no minimum. */
  function MainCandidates(bar: seq<BarEntry>, dataset: seq<CatalogBottle>): (r: Result<seq<CatalogBottle>, Error>)
    ensures r.Success? <==> ReadBar(bar).Success?
    ensures r.Success? ==> |r.value| <= PipelineCandidates && |r.value| <= |dataset|
  {
    CandidatesFor(ScriptProfile(bar), dataset)
  }

  /** Lines 138-142 of main on the outcome of the analysis. */
  function CandidatesFor(analysis: Result<TasteProfile, Error>, dataset: seq<CatalogBottle>): Result<seq<CatalogBottle>, Error> {
    if analysis.Failure? then Failure(analysis.error)
    else
      var target := Target(analysis.value.favoriteSpirits, analysis.value.avgProof);
      Success(Prefilter(dataset, target.0, target.1, PipelineCandidates))
  }

  /** What main hands to the generative stage: up to twenty readable
      catalog bottles, as many as there are when fewer, with no minimum. */
  lemma MainCandidatesShape(bar: seq<BarEntry>, dataset: seq<CatalogBottle>)
    ensures MainCandidates(bar, dataset).Failure? <==> ScriptProfile(bar).Failure?
    ensures MainCandidates(bar, dataset).Success? ==>
              var c := MainCandidates(bar, dataset).value;
              var n := |Filter(Scorable, dataset)|;
              && |c| == (if n < PipelineCandidates then n else PipelineCandidates)
              && forall b :: b in c ==> b in dataset && Scorable(b)
  {
    if ScriptProfile(bar).Success? {
      var p := ScriptProfile(bar).value;
      var t := Target(p.favoriteSpirits, p.avgProof);
      PrefilterLength(dataset, t.0, t.1, PipelineCandidates);
      PrefilterFromCatalog(dataset, t.0, t.1, PipelineCandidates);
    }
  }

  /** The target main filters for: the spirit of the bar's first bottle,
      however often other spirits occur, and half the bar's average proof. */
  lemma MainTarget(bar: seq<BarEntry>, dataset: seq<CatalogBottle>, p: TasteProfile, d: Readings)
    requires ScriptProfile(bar) == Success(p) && ReadBar(bar) == Success(d)
    ensures d.spirits != [] && d.proofs != []
    ensures MainCandidates(bar, dataset) == Success(Prefilter(dataset, d.spirits[0], Mean(d.proofs) / 2.0, PipelineCandidates))
  {
    ScriptTopSpirit(bar);
    FirstSpiritTarget(Success(p), d, dataset);
  }

  /** Candidates exist exactly when the analysis succeeded, and are then
      filtered for its first favourite at half its average proof. */
  lemma CandidatesForFavorite(analysis: Result<TasteProfile, Error>, dataset: seq<CatalogBottle>)
    ensures CandidatesFor(analysis, dataset).Success? <==> analysis.Success?
    ensures analysis.Success? && analysis.value.favoriteSpirits != [] ==>
              CandidatesFor(analysis, dataset).value
              == Prefilter(dataset, analysis.value.favoriteSpirits[0], analysis.value.avgProof / 2.0, PipelineCandidates)
  {
  }

  lemma FirstSpiritTarget(analysis: Result<TasteProfile, Error>, d: Readings, dataset: seq<CatalogBottle>)
    requires analysis.Success? && analysis.value.favoriteSpirits != [] && d.spirits != [] && d.proofs != []
    requires analysis.value.favoriteSpirits[0] == d.spirits[0] && analysis.value.avgProof == Mean(d.proofs)
    ensures CandidatesFor(analysis, dataset) == Success(Prefilter(dataset, d.spirits[0], Mean(d.proofs) / 2.0, PipelineCandidates))
  {
    CandidatesForFavorite(analysis, dataset);
  }

  /** With counting corrected, the favourite spirit is a spirit of the bar
      that no other spirit outnumbers. */
  lemma CountedTopSpirit(bar: seq<BarEntry>)
    requires CountedProfile(bar).Success?
    ensures ReadBar(bar).Success?
    ensures var p, d := CountedProfile(bar).value, ReadBar(bar).value;
            && p.favoriteSpirits != [] && p.favoriteSpirits[0] in d.spirits && p.avgProof == Mean(d.proofs)
            && forall x :: x in d.spirits ==> Count(d.spirits, x) <= Count(d.spirits, p.favoriteSpirits[0])
  {
    var d := ReadBar(bar).value;
    var p := CountedProfile(bar).value;
    CountedProfileRanks(bar);
    ScriptProfileShape(bar);
    var s := p.favoriteSpirits[0];
    assert s in d.spirits by {
      SortDescOrderedPermutation(Distinct(d.spirits), CountIn(d.spirits));
      assert s in multiset(Distinct(d.spirits));
    }
  }

  /** As written, the favourite spirit is the first spirit of the bar. */
  lemma ScriptTopSpirit(bar: seq<BarEntry>)
    requires ScriptProfile(bar).Success?
    ensures ReadBar(bar).Success?
    ensures var p, d := ScriptProfile(bar).value, ReadBar(bar).value;
            p.favoriteSpirits != [] && p.favoriteSpirits[0] == d.spirits[0] && p.avgProof == Mean(d.proofs)
  {
    ScriptProfileShape(bar);
    DistinctHead(ReadBar(bar).value.spirits);
  }

  /** The same derivation from the counted analysis: it filters for a most
      frequent spirit of the bar. */
  function CountedMainCandidates(bar: seq<BarEntry>, dataset: seq<CatalogBottle>): Result<seq<CatalogBottle>, Error> {
    CandidatesFor(CountedProfile(bar), dataset)
  }

  /** Counting changes which spirit is targeted, never whether main gets
      as far as filtering. */
  lemma CountedMainSucceeds(bar: seq<BarEntry>, dataset: seq<CatalogBottle>)
    ensures CountedMainCandidates(bar, dataset).Success? <==> MainCandidates(bar, dataset).Success?
  {
    ScriptProfileErrors(bar);
    CandidatesForFavorite(ScriptProfile(bar), dataset);
    CandidatesForFavorite(CountedProfile(bar), dataset);
  }

  /** With counting corrected, main filters for a spirit no other spirit of
      the bar outnumbers, at the same ABV as written. */
  lemma CountedMainTarget(bar: seq<BarEntry>, dataset: seq<CatalogBottle>, p: TasteProfile, d: Readings)
    requires CountedProfile(bar) == Success(p) && ReadBar(bar) == Success(d)
    ensures d.proofs != []
    ensures exists s :: s in d.spirits && (forall x :: x in d.spirits ==> Count(d.spirits, x) <= Count(d.spirits, s))
                        && CountedMainCandidates(bar, dataset) == Success(Prefilter(dataset, s, Mean(d.proofs) / 2.0, PipelineCandidates))
  {
    CountedTopSpirit(bar);
    MostFrequentTarget(Success(p), d, dataset);
  }

  lemma MostFrequentTarget(analysis: Result<TasteProfile, Error>, d: Readings, dataset: seq<CatalogBottle>)
    requires analysis.Success? && analysis.value.favoriteSpirits != [] && d.proofs != []
    requires analysis.value.favoriteSpirits[0] in d.spirits && analysis.value.avgProof == Mean(d.proofs)
    requires forall x :: x in d.spirits ==> Count(d.spirits, x) <= Count(d.spirits, analysis.value.favoriteSpirits[0])
    ensures exists s :: s in d.spirits && (forall x :: x in d.spirits ==> Count(d.spirits, x) <= Count(d.spirits, s))
                        && CandidatesFor(analysis, dataset) == Success(Prefilter(dataset, s, Mean(d.proofs) / 2.0, PipelineCandidates))
  {
    CandidatesForFavorite(analysis, dataset);
    var top := analysis.value.favoriteSpirits[0];
    assert CandidatesFor(analysis, dataset) == Success(Prefilter(dataset, top, Mean(d.proofs) / 2.0, PipelineCandidates));
    assert top in d.spirits && (forall x :: x in d.spirits ==> Count(d.spirits, x) <= Count(d.spirits, top))
           && CandidatesFor(analysis, dataset) == Success(Prefilter(dataset, top, Mean(d.proofs) / 2.0, PipelineCandidates));
  }

  /** The sample catalog main falls back to. */
  const ScriptCatalog := [
    CatalogBottle(Some("Jameson"), Num(40.0), Some("whiskey"), Num(30.0)),
    CatalogBottle(Some("Maker's Mark"), Num(45.0), Some("whiskey"), Num(35.0)),
    CatalogBottle(Some("Bulleit Bourbon"), Num(45.0), Some("whiskey"), Num(40.0)),
    CatalogBottle(Some("Grey Goose"), Num(40.0), Some("vodka"), Num(45.0))
  ]

  /** With both fallbacks (the Jameson bar and the four-bottle catalog) main
      hands all four bottles, in catalog order, to the generative stage,
      where the web pipeline would stop with too few candidates. */
  lemma MainFallbackCandidates(stage: (TasteProfile, seq<CatalogBottle>) -> seq<Recommendation>)
    ensures MainCandidates(FetchFallbackBar, ScriptCatalog) == Success(ScriptCatalog)
    ensures SinglePipeline(FetchFallbackBar, ScriptCatalog, stage) == Success(Insufficient(4))
  {
    JamesonScriptProfile();
    JamesonBarProfile();
    assert Target(DefaultProfile.favoriteSpirits, DefaultProfile.avgProof) == ("whiskey", 40.0);
    ScriptCatalogRanking();
  }

  lemma ScriptCatalogRanking()
    ensures Prefilter(ScriptCatalog, "whiskey", 40.0, PipelineCandidates) == ScriptCatalog
  {
    var c := ScriptCatalog;
    var valid := ScriptCatalogScored();
    SortDescUnique(valid, valid, CandidateScore);
    assert Ranked(c, "whiskey", 40.0, PipelineCandidates) == valid;
    assert MapSeq(CandidateBottle, valid) == c;
  }

  lemma ScriptCatalogScored() returns (valid: seq<ScoredCandidate>)
    ensures var c := ScriptCatalog;
            && valid == Scored(c, "whiskey", 40.0)
            && valid == [ScoredCandidate(6, c[0]), ScoredCandidate(6, c[1]), ScoredCandidate(6, c[2]), ScoredCandidate(3, c[3])]
  {
    var c := ScriptCatalog;
    var f, t := "whiskey", 40.0;
    assert !SameSpirit("whiskey", "vodka") by {
      assert |Lower("vodka")| == 5;
    }
    assert ScoreOf(c[0], f, t) == 6 && ScoreOf(c[1], f, t) == 6 && ScoreOf(c[2], f, t) == 6 && ScoreOf(c[3], f, t) == 3;
    assert Scored([], f, t) == [];
    assert [] + [c[0]] == [c[0]];
    ScoredAppend([], c[0], f, t);
    assert Scored([c[0]], f, t) == [ScoredCandidate(6, c[0])];
    ScoredAppend([c[0]], c[1], f, t);
    assert [c[0]] + [c[1]] == [c[0], c[1]];
    assert Scored([c[0], c[1]], f, t) == [ScoredCandidate(6, c[0]), ScoredCandidate(6, c[1])];
    ScoredAppend([c[0], c[1]], c[2], f, t);
    assert [c[0], c[1]] + [c[2]] == [c[0], c[1], c[2]];
    ScoredAppend([c[0], c[1], c[2]], c[3], f, t);
    assert [c[0], c[1], c[2]] + [c[3]] == c;
    valid := Scored(c, f, t);
  }

  /** The script's analysis of the Jameson bar, as written and counted
      alike, is the default profile of the web analyzer. */
  lemma JamesonScriptProfile()
    ensures ScriptProfile(FetchFallbackBar) == Success(DefaultProfile)
    ensures CountedProfile(FetchFallbackBar) == Success(DefaultProfile)
  {
    JamesonReadings();
    SingleValueRanking("whiskey");
    SingleValueRanking("Jameson");
    assert ComprehensionCounts(["whiskey"], map[]) == [("whiskey", 1)];
    assert ComprehensionCounts(["Jameson"], map[]) == [("Jameson", 1)];
    assert Mean([80.0]) == 80.0;
  }

  lemma JamesonReadings()
    ensures ReadBar(FetchFallbackBar) == Success(Readings([80.0], [30.0], ["Jameson"], ["whiskey"]))
  {
    var p := Product(Num(80.0), Num(30.0), Some("Jameson"), Some("whiskey"));
    var ps := Products(FetchFallbackBar).value;
    assert ps == [p];
    var proofs := ReadNumbers(ps, "proof", (p: Product) => p.proof).value;
    var prices := ReadNumbers(ps, "average_msrp", (p: Product) => p.averageMsrp).value;
    var brands := ReadNames(ps, "brand", (p: Product) => p.brand).value;
    var spirits := ReadNames(ps, "spirit", (p: Product) => p.spirit).value;
    assert proofs == [80.0];
    assert prices == [30.0];
    assert brands == ["Jameson"];
    assert spirits == ["whiskey"];
  }
}
