/** ProfileAggregator: the combined profile of a room (app.py,
    aggregate_profiles). Every member's favourite spirits are pooled, the
    spirit occurring most often wins, the average ABV is the mean of the
    members' average ABVs and the price range spans every member's range. */
module ProfileAggregator {
  import opened Common
  import opened ProfileBuilder

  /** The combined profile: three of the six keys of a member profile. */
  datatype GroupProfile = GroupProfile(avgProof: real, priceRange: Range, favoriteSpirits: seq<string>)

  /** `all_spirits` after the extend loop: every member's favourite spirits,
      member after member. */
  function AllFavorites(ps: seq<TasteProfile>): seq<string> {
    if ps == [] then [] else AllFavorites(ps[..|ps| - 1]) + ps[|ps| - 1].favoriteSpirits
  }

  /** The winner of `max(spirit_counts.items(), key=count)`: a candidate with
      the largest count in `all`. Among equal counts the first candidate wins
      (Python leaves the order of the set, hence the tie-break, unspecified). */
  function MostCommon(candidates: seq<string>, all: seq<string>): (m: string)
    requires candidates != []
    ensures m in candidates
    ensures forall i :: 0 <= i < |candidates| ==> Count(all, candidates[i]) <= Count(all, m)
  {
    if |candidates| == 1 then candidates[0]
    else
      var m := MostCommon(candidates[..|candidates| - 1], all);
      var last := candidates[|candidates| - 1];
      if Count(all, last) > Count(all, m) then last else m
  }

  function HalfProofs(ps: seq<TasteProfile>): seq<real> {
    seq(|ps|, i requires 0 <= i < |ps| => ps[i].avgProof / 2.0)
  }

  function AvgProofs(ps: seq<TasteProfile>): seq<real> {
    seq(|ps|, i requires 0 <= i < |ps| => ps[i].avgProof)
  }

  function LowPrices(ps: seq<TasteProfile>): seq<real> {
    seq(|ps|, i requires 0 <= i < |ps| => ps[i].priceRange.low)
  }

  function HighPrices(ps: seq<TasteProfile>): seq<real> {
    seq(|ps|, i requires 0 <= i < |ps| => ps[i].priceRange.high)
  }

  /** The favourite after pooling: the most common pooled spirit, or whiskey
      when no member has a favourite. */
  function GroupFavorite(all: seq<string>): string {
    var d := Distinct(all);
    if d != [] then MostCommon(d, all) else DefaultSpirit
  }

  /** The combined profile once the favourites are pooled. */
  function Combine(ps: seq<TasteProfile>, all: seq<string>): GroupProfile
    requires ps != []
  {
    var avgAbv := Sum(HalfProofs(ps)) / |ps| as real;
    GroupProfile(avgAbv * 2.0, Range(Min(LowPrices(ps)), Max(HighPrices(ps))), [GroupFavorite(all)])
  }

  /** aggregate_profiles as a function of the member profiles. */
  function Aggregate(ps: seq<TasteProfile>): (r: Result<GroupProfile, Error>)
    ensures r.Failure? <==> ps == []
    ensures r.Failure? ==> r.error == NoProfiles
    ensures r.Success? ==> |r.value.favoriteSpirits| == 1
  {
    if ps == [] then Failure(NoProfiles) else Success(Combine(ps, AllFavorites(ps)))
  }

  /** aggregate_profiles, with its extend loop. */
  method AggregateProfiles(ps: seq<TasteProfile>) returns (r: Result<GroupProfile, Error>)
    ensures r == Aggregate(ps)
  {
    if ps == [] {
      return Failure(NoProfiles);
    }
    var all: seq<string> := [];
    for i := 0 to |ps|
      invariant all == AllFavorites(ps[..i])
    {
      assert ps[..i + 1][..i] == ps[..i];
      all := all + ps[i].favoriteSpirits;
    }
    assert ps[..|ps|] == ps;
    r := Success(Combine(ps, all));
  }

  /** The pooled list holds each member's favourites in member order: the
      count of a spirit is the sum of its counts in the members' lists. */
  lemma {:induction false} PooledCount(ps: seq<TasteProfile>, s: string)
    ensures ps != [] ==> (Count(AllFavorites(ps), s)
                          == Count(AllFavorites(ps[..|ps| - 1]), s) + Count(ps[|ps| - 1].favoriteSpirits, s))
    ensures (exists i :: 0 <= i < |ps| && s in ps[i].favoriteSpirits) <==> s in AllFavorites(ps)
  {
    if ps != [] {
      var init := ps[..|ps| - 1];
      PooledCount(init, s);
      CountConcat(AllFavorites(init), ps[|ps| - 1].favoriteSpirits, s);
      if exists i :: 0 <= i < |ps| && s in ps[i].favoriteSpirits {
        var i :| 0 <= i < |ps| && s in ps[i].favoriteSpirits;
        if i < |ps| - 1 {
          assert init[i] == ps[i];
        }
      }
      if s in AllFavorites(init) {
        var i :| 0 <= i < |init| && s in init[i].favoriteSpirits;
        assert ps[i] == init[i];
      }
    }
  }

  lemma {:induction false} CountConcat(a: seq<string>, b: seq<string>, x: string)
    ensures Count(a + b, x) == Count(a, x) + Count(b, x)
  {
    if b != [] {
      CountConcat(a, b[..|b| - 1], x);
      assert (a + b)[..|a + b| - 1] == a + b[..|b| - 1];
    } else {
      assert a + b == a;
    }
  }

  /** The favourite of the group: the single spirit that occurs in some
      member's favourites at least as often, over all members, as any other
      spirit does; whiskey only when no member has a favourite. */
  lemma GroupFavoriteMostCommon(ps: seq<TasteProfile>)
    requires ps != []
    ensures var g := Aggregate(ps).value;
            var all := AllFavorites(ps);
            && |g.favoriteSpirits| == 1
            && (all == [] ==> g.favoriteSpirits[0] == DefaultSpirit)
            && (all != [] ==> (exists i :: 0 <= i < |ps| && g.favoriteSpirits[0] in ps[i].favoriteSpirits)
                              && forall s :: s in all ==> Count(all, s) <= Count(all, g.favoriteSpirits[0]))
  {
    var all := AllFavorites(ps);
    var d := Distinct(all);
    if all != [] {
      assert all[0] in d;
      var m := MostCommon(d, all);
      PooledCount(ps, m);
      forall s | s in all ensures Count(all, s) <= Count(all, m) {
        assert s in d;
        var i :| 0 <= i < |d| && d[i] == s;
      }
    }
  }

  /** The average proof of the group is the mean of the members' average
      proofs, so it lies between the lowest and the highest of them. */
  lemma GroupAverage(ps: seq<TasteProfile>)
    requires ps != []
    ensures var g := Aggregate(ps).value;
            && g.avgProof == Mean(AvgProofs(ps))
            && Min(AvgProofs(ps)) <= g.avgProof <= Max(AvgProofs(ps))
  {
    DoubledMeanOfHalves(ps);
    MeanWithin(AvgProofs(ps));
  }

  /** Doubling the mean of the halved proofs gives back the mean proof. */
  lemma DoubledMeanOfHalves(ps: seq<TasteProfile>)
    requires ps != []
    ensures Sum(HalfProofs(ps)) / |ps| as real * 2.0 == Mean(AvgProofs(ps))
  {
    SumHalves(AvgProofs(ps), HalfProofs(ps));
    HalveThenDouble(Sum(AvgProofs(ps)), |ps| as real);
  }

  /** The price range of the group runs from the lowest member minimum to
      the highest member maximum. */
  lemma GroupPriceRange(ps: seq<TasteProfile>)
    requires ps != []
    ensures var g := Aggregate(ps).value;
            && (exists i :: 0 <= i < |ps| && g.priceRange.low == ps[i].priceRange.low)
            && (forall i :: 0 <= i < |ps| ==> g.priceRange.low <= ps[i].priceRange.low)
            && (exists i :: 0 <= i < |ps| && g.priceRange.high == ps[i].priceRange.high)
            && (forall i :: 0 <= i < |ps| ==> ps[i].priceRange.high <= g.priceRange.high)
  {
    LeastOf(LowPrices(ps), ps);
    GreatestOf(HighPrices(ps), ps);
  }

  lemma LeastOf(lows: seq<real>, ps: seq<TasteProfile>)
    requires ps != [] && lows == LowPrices(ps)
    ensures exists i :: 0 <= i < |ps| && Min(lows) == ps[i].priceRange.low
    ensures forall i :: 0 <= i < |ps| ==> Min(lows) <= ps[i].priceRange.low
  {
    var i :| 0 <= i < |lows| && lows[i] == Min(lows);
    assert Min(lows) == ps[i].priceRange.low;
    forall k | 0 <= k < |ps| ensures Min(lows) <= ps[k].priceRange.low {
      assert lows[k] == ps[k].priceRange.low;
    }
  }

  lemma GreatestOf(highs: seq<real>, ps: seq<TasteProfile>)
    requires ps != [] && highs == HighPrices(ps)
    ensures exists i :: 0 <= i < |ps| && Max(highs) == ps[i].priceRange.high
    ensures forall i :: 0 <= i < |ps| ==> ps[i].priceRange.high <= Max(highs)
  {
    var i :| 0 <= i < |highs| && highs[i] == Max(highs);
    assert Max(highs) == ps[i].priceRange.high;
    forall k | 0 <= k < |ps| ensures ps[k].priceRange.high <= Max(highs) {
      assert highs[k] == ps[k].priceRange.high;
    }
  }

  lemma HalveThenDouble(t: real, n: real)
    requires n > 0.0
    ensures (t / 2.0) / n * 2.0 == t / n
  {
    var q, h := t / n, (t / 2.0) / n;
    assert q * n == t;
    assert h * n == t / 2.0;
    assert (h * 2.0 - q) * n == 0.0;
  }

  /** Reordering the members, or repeating one, does not change the price
      range of the group. */
  lemma PriceRangeOrderFree(ps: seq<TasteProfile>, qs: seq<TasteProfile>)
    requires ps != [] && forall p :: p in ps <==> p in qs
    ensures qs != [] && Aggregate(ps).value.priceRange == Aggregate(qs).value.priceRange
  {
    assert ps[0] in qs;
    SameFieldValues(ps, qs);
    MinMaxOfSameElements(LowPrices(ps), LowPrices(qs));
    MinMaxOfSameElements(HighPrices(ps), HighPrices(qs));
  }

  lemma SameFieldValues(ps: seq<TasteProfile>, qs: seq<TasteProfile>)
    requires forall p :: p in ps <==> p in qs
    ensures forall x :: x in LowPrices(ps) <==> x in LowPrices(qs)
    ensures forall x :: x in HighPrices(ps) <==> x in HighPrices(qs)
  {
    forall x | x in LowPrices(ps) ensures x in LowPrices(qs) {
      var i :| 0 <= i < |ps| && LowPrices(ps)[i] == x;
      assert ps[i] in qs;
      var j :| 0 <= j < |qs| && qs[j] == ps[i];
      assert LowPrices(qs)[j] == x;
    }
    forall x | x in LowPrices(qs) ensures x in LowPrices(ps) {
      var i :| 0 <= i < |qs| && LowPrices(qs)[i] == x;
      assert qs[i] in ps;
      var j :| 0 <= j < |ps| && ps[j] == qs[i];
      assert LowPrices(ps)[j] == x;
    }
    forall x | x in HighPrices(ps) ensures x in HighPrices(qs) {
      var i :| 0 <= i < |ps| && HighPrices(ps)[i] == x;
      assert ps[i] in qs;
      var j :| 0 <= j < |qs| && qs[j] == ps[i];
      assert HighPrices(qs)[j] == x;
    }
    forall x | x in HighPrices(qs) ensures x in HighPrices(ps) {
      var i :| 0 <= i < |qs| && HighPrices(qs)[i] == x;
      assert qs[i] in ps;
      var j :| 0 <= j < |ps| && ps[j] == qs[i];
      assert HighPrices(ps)[j] == x;
    }
  }

  /** Two members with average proofs 90 and 80 make a group of average
      proof 85 (average ABV 42.5). */
  lemma TwoMemberAverage(a: TasteProfile, b: TasteProfile)
    requires a.avgProof == 90.0 && b.avgProof == 80.0
    ensures Aggregate([a, b]).value.avgProof == 85.0
  {
    assert HalfProofs([a, b]) == [45.0, 40.0];
    assert [45.0, 40.0][..1] == [45.0];
    assert Sum([45.0]) == 45.0;
    assert Sum([45.0, 40.0]) == 85.0;
  }
}
