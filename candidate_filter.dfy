/** CandidateFilter: scores every catalog bottle against a favourite spirit
    and a target ABV, keeps the bottles it could read, stable-sorts them by
    score from highest down and keeps the first `max_candidates`
    (prefilter_liquors, identical in app.py and liquor_recommender.py). */
module CandidateFilter {
  import opened Common
  import opened Ranking

  /** A catalog row: `name`, `abv`, `spirit_type`, `shelf_price`. */
  datatype CatalogBottle = CatalogBottle(name: Option<string>, abv: NumField, spiritType: Option<string>, shelfPrice: NumField)

  /** The `(score, item)` pair of the `scored` list. */
  datatype ScoredCandidate = ScoredCandidate(score: int, bottle: CatalogBottle)

  const BandWeight := 2
  const SpiritWeight := 3
  const PriceWeight := 1
  const AbvTolerance := 5.0
  const PriceCap := 100.0
  const DefaultMaxCandidates := 20

  /** The reads inside the `try` succeed: abv and shelf price are numbers and
      the spirit type is present. */
  predicate Scorable(b: CatalogBottle) {
    b.abv.Num? && b.spiritType.Some? && b.shelfPrice.Num?
  }

  predicate InBand(abv: real, target: real) {
    target - AbvTolerance <= abv <= target + AbvTolerance
  }

  predicate SameSpirit(a: string, b: string) {
    Lower(a) == Lower(b)
  }

  /** 2 for an ABV within 5 of the target, 3 for the favourite spirit
      (ignoring case), 1 for a shelf price of at most 100. */
  function Score(abv: real, spirit: string, price: real, favorite: string, target: real): (s: int)
    ensures 0 <= s <= BandWeight + SpiritWeight + PriceWeight
    ensures s == BandWeight + SpiritWeight + PriceWeight
            <==> InBand(abv, target) && SameSpirit(favorite, spirit) && price <= PriceCap
    ensures s == 0 <==> !InBand(abv, target) && !SameSpirit(favorite, spirit) && price > PriceCap
  {
    (if InBand(abv, target) then BandWeight else 0)
    + (if SameSpirit(favorite, spirit) then SpiritWeight else 0)
    + (if price <= PriceCap then PriceWeight else 0)
  }

  function ScoreOf(b: CatalogBottle, favorite: string, target: real): int
    requires Scorable(b)
  {
    Score(b.abv.value, b.spiritType.value, b.shelfPrice.value, favorite, target)
  }

  function CandidateScore(c: ScoredCandidate): int { c.score }
  function CandidateBottle(c: ScoredCandidate): CatalogBottle { c.bottle }

  /** The `scored` list after the loop: each readable bottle with its score,
      in catalog order. */
  function Scored(dataset: seq<CatalogBottle>, favorite: string, target: real): (r: seq<ScoredCandidate>)
    ensures |r| <= |dataset|
  {
    if dataset == [] then []
    else
      var item := dataset[|dataset| - 1];
      Scored(dataset[..|dataset| - 1], favorite, target)
      + if Scorable(item) then [ScoredCandidate(ScoreOf(item, favorite, target), item)] else []
  }

  /** The scored list after the in-place sort, cut to `max_candidates`. */
  function Ranked(dataset: seq<CatalogBottle>, favorite: string, target: real, maxCandidates: int): seq<ScoredCandidate> {
    SlicePrefix(SortDesc(Scored(dataset, favorite, target), CandidateScore), maxCandidates)
  }

  /** prefilter_liquors as a function of its arguments: never more bottles
      than the catalog has, nor than `max_candidates` asks for. */
  function Prefilter(dataset: seq<CatalogBottle>, favorite: string, target: real, maxCandidates: int): (r: seq<CatalogBottle>)
    ensures |r| <= |dataset|
    ensures maxCandidates >= 0 ==> |r| <= maxCandidates
  {
    MapSeq(CandidateBottle, Ranked(dataset, favorite, target, maxCandidates))
  }

  /** prefilter_liquors: the scoring loop, the sort and the cut. */
  method PrefilterLiquors(dataset: seq<CatalogBottle>, favorite: string, target: real, maxCandidates: int)
    returns (candidates: seq<CatalogBottle>)
    ensures candidates == Prefilter(dataset, favorite, target, maxCandidates)
  {
    var scored: seq<ScoredCandidate> := [];
    for i := 0 to |dataset|
      invariant scored == Scored(dataset[..i], favorite, target)
    {
      var item := dataset[i];
      assert dataset[..i + 1][..i] == dataset[..i];
      if item.abv.Num? && item.spiritType.Some? && item.shelfPrice.Num? {
        var score := 0;
        if target - AbvTolerance <= item.abv.value <= target + AbvTolerance {
          score := score + BandWeight;
        }
        if Lower(favorite) == Lower(item.spiritType.value) {
          score := score + SpiritWeight;
        }
        if item.shelfPrice.value <= PriceCap {
          score := score + PriceWeight;
        }
        scored := scored + [ScoredCandidate(score, item)];
      }
    }
    assert dataset[..|dataset|] == dataset;
    scored := SortDesc(scored, CandidateScore);
    candidates := MapSeq(CandidateBottle, SlicePrefix(scored, maxCandidates));
  }

  lemma ScoredAppend(init: seq<CatalogBottle>, item: CatalogBottle, favorite: string, target: real)
    ensures Scored(init + [item], favorite, target)
            == Scored(init, favorite, target) + if Scorable(item) then [ScoredCandidate(ScoreOf(item, favorite, target), item)] else []
  {
    assert (init + [item])[..|init|] == init;
  }

  /** Unreadable bottles are dropped, not scored: the scored list holds
      exactly the readable bottles of the catalog, in catalog order, each
      with its score. */
  lemma {:induction false} ScoredKeepsReadable(dataset: seq<CatalogBottle>, favorite: string, target: real)
    ensures var r := Scored(dataset, favorite, target);
            && MapSeq(CandidateBottle, r) == Filter(Scorable, dataset)
            && forall c :: c in r ==> c.bottle in dataset && Scorable(c.bottle)
                                      && c.score == ScoreOf(c.bottle, favorite, target)
  {
    if dataset != [] {
      var init, item := dataset[..|dataset| - 1], dataset[|dataset| - 1];
      ScoredKeepsReadable(init, favorite, target);
      assert dataset == init + [item];
      FilterConcat(Scorable, init, [item]);
      assert Filter(Scorable, [item]) == if Scorable(item) then [item] else [];
      var r := Scored(dataset, favorite, target);
      assert MapSeq(CandidateBottle, r) == Filter(Scorable, dataset);
      assert forall b :: b in init ==> b in dataset;
    }
  }

  /** The length of the result: `max_candidates` readable bottles, or all of
      them when fewer; a negative `max_candidates` drops that many from the
      end, as Python slicing does. */
  lemma PrefilterLength(dataset: seq<CatalogBottle>, favorite: string, target: real, maxCandidates: int)
    ensures var n := |Filter(Scorable, dataset)|;
            var out := Prefilter(dataset, favorite, target, maxCandidates);
            && (maxCandidates >= 0 ==> |out| == if n < maxCandidates then n else maxCandidates)
            && (maxCandidates < 0 ==> |out| == if n + maxCandidates > 0 then n + maxCandidates else 0)
  {
    var valid := Scored(dataset, favorite, target);
    ScoredKeepsReadable(dataset, favorite, target);
    SortDescOrderedPermutation(valid, CandidateScore);
  }

  /** The result holds only readable bottles of the catalog. */
  lemma PrefilterFromCatalog(dataset: seq<CatalogBottle>, favorite: string, target: real, maxCandidates: int)
    ensures forall b :: b in Prefilter(dataset, favorite, target, maxCandidates) ==> b in dataset && Scorable(b)
  {
    var ranked := Ranked(dataset, favorite, target, maxCandidates);
    PrefilterOrder(dataset, favorite, target, maxCandidates);
    forall b | b in Prefilter(dataset, favorite, target, maxCandidates) ensures b in dataset && Scorable(b) {
      var i :| 0 <= i < |ranked| && CandidateBottle(ranked[i]) == b;
      assert ranked[i] in ranked;
    }
  }

  /** The cut keeps a prefix of the sorted scored list. */
  lemma RankedIsSortedPrefix(dataset: seq<CatalogBottle>, favorite: string, target: real, maxCandidates: int)
    ensures var sorted := SortDesc(Scored(dataset, favorite, target), CandidateScore);
            var ranked := Ranked(dataset, favorite, target, maxCandidates);
            |ranked| <= |sorted| && ranked == sorted[..|ranked|]
  {
  }

  /** The order of the result: only readable catalog bottles with their
      scores, from the highest score down. */
  lemma PrefilterOrder(dataset: seq<CatalogBottle>, favorite: string, target: real, maxCandidates: int)
    ensures var ranked := Ranked(dataset, favorite, target, maxCandidates);
            && (forall c :: c in ranked ==> c.bottle in dataset && Scorable(c.bottle)
                                            && c.score == ScoreOf(c.bottle, favorite, target))
            && (forall i, j :: 0 <= i < j < |ranked| ==> ranked[i].score >= ranked[j].score)
  {
    var valid := Scored(dataset, favorite, target);
    ScoredKeepsReadable(dataset, favorite, target);
    var ranked := Ranked(dataset, favorite, target, maxCandidates);
    RankedIsSortedPrefix(dataset, favorite, target, maxCandidates);
    SortedPrefix(valid, CandidateScore, |ranked|);
    assert Descending(ranked, CandidateScore);
    forall i, j | 0 <= i < j < |ranked| ensures ranked[i].score >= ranked[j].score {
      assert CandidateScore(ranked[i]) >= CandidateScore(ranked[j]);
    }
  }

  /** Bottles of equal score stay in catalog order: for every score, the
      kept bottles with that score are the first ones of the catalog. */
  lemma PrefilterStable(dataset: seq<CatalogBottle>, favorite: string, target: real, maxCandidates: int)
    ensures var valid := Scored(dataset, favorite, target);
            var ranked := Ranked(dataset, favorite, target, maxCandidates);
            forall v :: WithKey(ranked, CandidateScore, v) <= WithKey(valid, CandidateScore, v)
  {
    var valid := Scored(dataset, favorite, target);
    var ranked := Ranked(dataset, favorite, target, maxCandidates);
    RankedIsSortedPrefix(dataset, favorite, target, maxCandidates);
    SortedPrefix(valid, CandidateScore, |ranked|);
  }

  /** No readable bottle left out of the cut scores higher than the last one
      kept. */
  lemma PrefilterKeepsBest(dataset: seq<CatalogBottle>, favorite: string, target: real, maxCandidates: int)
    ensures var valid := Scored(dataset, favorite, target);
            var ranked := Ranked(dataset, favorite, target, maxCandidates);
            ranked != [] ==> forall c: ScoredCandidate :: c in multiset(valid) - multiset(ranked)
                               ==> c.score <= ranked[|ranked| - 1].score
  {
    var valid := Scored(dataset, favorite, target);
    var ranked := Ranked(dataset, favorite, target, maxCandidates);
    RankedIsSortedPrefix(dataset, favorite, target, maxCandidates);
    if ranked != [] {
      var n := |ranked|;
      assert n <= |valid|;
      SortedPrefixKeepsLargest(valid, CandidateScore, n);
      assert ranked == SortDesc(valid, CandidateScore)[..n];
      forall c: ScoredCandidate | c in multiset(valid) - multiset(ranked) ensures c.score <= ranked[n - 1].score {
        assert CandidateScore(c) <= CandidateScore(ranked[n - 1]);
      }
    }
  }

  /** The sample catalog load_liquor_dataset falls back to. */
  const FallbackCatalog := [
    CatalogBottle(Some("Jameson"), Num(40.0), Some("whiskey"), Num(30.0)),
    CatalogBottle(Some("Maker's Mark"), Num(45.0), Some("whiskey"), Num(35.0)),
    CatalogBottle(Some("Bulleit Bourbon"), Num(45.0), Some("whiskey"), Num(40.0)),
    CatalogBottle(Some("Woodford Reserve"), Num(45.0), Some("whiskey"), Num(50.0)),
    CatalogBottle(Some("Knob Creek"), Num(50.0), Some("whiskey"), Num(55.0)),
    CatalogBottle(Some("Grey Goose"), Num(40.0), Some("vodka"), Num(45.0))
  ]

  /** Against whiskey at 40% ABV, Jameson scores the maximum 6 and Grey Goose
      3 (ABV band and price, not spirit); all six bottles survive, Grey Goose
      last. */
  lemma FallbackCatalogScores()
    ensures ScoreOf(FallbackCatalog[0], "whiskey", 40.0) == 6
    ensures ScoreOf(FallbackCatalog[5], "whiskey", 40.0) == 3
    ensures var out := Prefilter(FallbackCatalog, "whiskey", 40.0, DefaultMaxCandidates);
            |out| == 6 && out[0] == FallbackCatalog[0] && out[5] == FallbackCatalog[5]
  {
    var c := FallbackCatalog;
    var f, t := "whiskey", 40.0;
    var valid := FallbackCatalogScored();
    SortDescUnique(valid, valid, CandidateScore);
    assert Ranked(c, f, t, DefaultMaxCandidates) == valid;
  }

  lemma FallbackCatalogScored() returns (valid: seq<ScoredCandidate>)
    ensures var c := FallbackCatalog;
            && valid == Scored(c, "whiskey", 40.0)
            && valid == [ScoredCandidate(6, c[0]), ScoredCandidate(6, c[1]), ScoredCandidate(6, c[2]),
                         ScoredCandidate(6, c[3]), ScoredCandidate(4, c[4]), ScoredCandidate(3, c[5])]
  {
    var c := FallbackCatalog;
    var f, t := "whiskey", 40.0;
    var front := FallbackCatalogFront();
    FallbackCatalogScores5();
    ScoredAppend([c[0], c[1], c[2], c[3]], c[4], f, t);
    assert [c[0], c[1], c[2], c[3]] + [c[4]] == [c[0], c[1], c[2], c[3], c[4]];
    ScoredAppend([c[0], c[1], c[2], c[3], c[4]], c[5], f, t);
    assert [c[0], c[1], c[2], c[3], c[4]] + [c[5]] == c;
    valid := Scored(c, f, t);
  }

  lemma FallbackCatalogScores4()
    ensures var c := FallbackCatalog;
            && ScoreOf(c[0], "whiskey", 40.0) == 6 && ScoreOf(c[1], "whiskey", 40.0) == 6
            && ScoreOf(c[2], "whiskey", 40.0) == 6 && ScoreOf(c[3], "whiskey", 40.0) == 6
  {
    assert SameSpirit("whiskey", "whiskey");
  }

  lemma FallbackCatalogScores5()
    ensures var c := FallbackCatalog;
            && ScoreOf(c[4], "whiskey", 40.0) == 4 && ScoreOf(c[5], "whiskey", 40.0) == 3
  {
    assert !SameSpirit("whiskey", "vodka") by {
      assert |Lower("vodka")| == 5;
    }
  }

  /** The four whiskeys at 40 to 45% ABV and at most 50 come first, each
      scoring 6. */
  lemma FallbackCatalogFront() returns (front: seq<ScoredCandidate>)
    ensures var c := FallbackCatalog;
            && front == Scored([c[0], c[1], c[2], c[3]], "whiskey", 40.0)
            && front == [ScoredCandidate(6, c[0]), ScoredCandidate(6, c[1]), ScoredCandidate(6, c[2]), ScoredCandidate(6, c[3])]
  {
    var c := FallbackCatalog;
    var f, t := "whiskey", 40.0;
    FallbackCatalogScores4();
    assert Scored([], f, t) == [];
    assert [] + [c[0]] == [c[0]];
    ScoredAppend([], c[0], f, t);
    ScoredAppend([c[0]], c[1], f, t);
    assert [c[0]] + [c[1]] == [c[0], c[1]];
    ScoredAppend([c[0], c[1]], c[2], f, t);
    assert [c[0], c[1]] + [c[2]] == [c[0], c[1], c[2]];
    ScoredAppend([c[0], c[1], c[2]], c[3], f, t);
    assert [c[0], c[1], c[2]] + [c[3]] == [c[0], c[1], c[2], c[3]];
    front := Scored([c[0], c[1], c[2], c[3]], f, t);
  }
}
