/** InfluenceAttributor: which member of a room a recommended bottle is
    credited to (app.py, find_influential_user). Each member's profile
    scores the bottle, 3 when the bottle's spirit type is the member's top
    favourite spirit and 2 when its ABV is within 5 of the member's average
    ABV; the first member with the highest score is credited. */
module InfluenceAttributor {
  import opened Common
  import opened ProfileBuilder
  import opened CandidateFilter

  const SpiritMatchWeight := 3
  const AbvMatchWeight := 2
  const AbvCloseness := 5.0

  /** `bottle.get('spirit_type', '').lower()`. */
  function BottleSpirit(b: CatalogBottle): string {
    Lower(if b.spiritType.Some? then b.spiritType.value else "")
  }

  /** `float(bottle.get('abv', 0))`: an absent ABV reads as 0, one that is
      not a number raises ValueError. */
  function BottleAbv(b: CatalogBottle): (r: Result<real, Error>)
    ensures b.abv.Missing? ==> r == Success(0.0)
    ensures b.abv.NotNumeric? <==> r.Failure?
    ensures b.abv.Num? ==> r == Success(b.abv.value)
  {
    match b.abv
    case Missing => Success(0.0)
    case NotNumeric => Failure(NotANumber("abv"))
    case Num(v) => Success(v)
  }

  /** The member's first favourite spirit, lower-cased, or '' when the
      member has none. */
  function TopSpirit(p: TasteProfile): string {
    if p.favoriteSpirits != [] then Lower(p.favoriteSpirits[0]) else ""
  }

  predicate SpiritMatches(spirit: string, p: TasteProfile) {
    spirit == TopSpirit(p)
  }

  predicate AbvClose(abv: real, p: TasteProfile) {
    Abs(abv - p.avgProof / 2.0) <= AbvCloseness
  }

  /** How strongly one member's profile matches the bottle: 0, 2, 3 or 5,
      at least 3 exactly on a spirit match, and 2 or 5 exactly when the ABV
      is close. */
  function MemberScore(spirit: string, abv: real, p: TasteProfile): (s: int)
    ensures 0 <= s <= SpiritMatchWeight + AbvMatchWeight
    ensures s >= SpiritMatchWeight <==> SpiritMatches(spirit, p)
    ensures s == AbvMatchWeight || s == SpiritMatchWeight + AbvMatchWeight <==> AbvClose(abv, p)
  {
    (if SpiritMatches(spirit, p) then SpiritMatchWeight else 0)
    + (if AbvClose(abv, p) then AbvMatchWeight else 0)
  }

  /** The index the loop settles on among the first n profiles: the first
      one of highest score. */
  function BestIndex(spirit: string, abv: real, profiles: seq<TasteProfile>, n: nat): (k: nat)
    requires 0 < n <= |profiles|
    ensures k < n
    ensures forall j :: 0 <= j < n ==> MemberScore(spirit, abv, profiles[j]) <= MemberScore(spirit, abv, profiles[k])
    ensures forall j :: 0 <= j < k ==> MemberScore(spirit, abv, profiles[j]) < MemberScore(spirit, abv, profiles[k])
  {
    if n == 1 then 0
    else
      var k := BestIndex(spirit, abv, profiles, n - 1);
      if MemberScore(spirit, abv, profiles[n - 1]) > MemberScore(spirit, abv, profiles[k]) then n - 1 else k
  }

  /** `zip(profiles, usernames)` stops at the shorter list. */
  function Paired(profiles: seq<TasteProfile>, usernames: seq<string>): nat {
    if |profiles| < |usernames| then |profiles| else |usernames|
  }

  /** find_influential_user as a function: the credited member, or the
      ValueError of a non-numeric ABV. `usernames[0]` is read before the
      loop, so the caller must name at least one member. */
  function Influential(bottle: CatalogBottle, profiles: seq<TasteProfile>, usernames: seq<string>): (r: Result<string, Error>)
    requires usernames != []
    ensures r.Failure? <==> bottle.abv.NotNumeric?
    ensures r.Success? ==> r.value in usernames
  {
    match BottleAbv(bottle)
    case Failure(e) => Failure(e)
    case Success(abv) =>
      var n := Paired(profiles, usernames);
      if n == 0 then Success(usernames[0])
      else Success(usernames[BestIndex(BottleSpirit(bottle), abv, profiles, n)])
  }

  /** find_influential_user: reads the bottle, then runs the scoring loop. */
  method FindInfluentialUser(bottle: CatalogBottle, profiles: seq<TasteProfile>, usernames: seq<string>)
    returns (r: Result<string, Error>)
    requires usernames != []
    ensures r == Influential(bottle, profiles, usernames)
  {
    var spirit := Lower(if bottle.spiritType.Some? then bottle.spiritType.value else "");
    var abv: real;
    match bottle.abv {
      case Missing => abv := 0.0;
      case NotNumeric => return Failure(NotANumber("abv"));
      case Num(v) => abv := v;
    }
    var influential := ScanProfiles(spirit, abv, profiles, usernames);
    r := Success(influential);
  }

  /** The scoring loop over `zip(profiles, usernames)`, the best score so far
      starting at -1 so that the first member is always taken. */
  method ScanProfiles(spirit: string, abv: real, profiles: seq<TasteProfile>, usernames: seq<string>)
    returns (influential: string)
    requires usernames != []
    ensures var n := Paired(profiles, usernames);
            influential == if n == 0 then usernames[0] else usernames[BestIndex(spirit, abv, profiles, n)]
  {
    var maxScore := -1;
    influential := usernames[0];
    ghost var best := 0;
    var n := if |profiles| < |usernames| then |profiles| else |usernames|;
    for i := 0 to n
      invariant i == 0 ==> maxScore == -1 && influential == usernames[0]
      invariant i > 0 ==> best == BestIndex(spirit, abv, profiles, i)
                          && maxScore == MemberScore(spirit, abv, profiles[best])
                          && influential == usernames[best]
    {
      var profile := profiles[i];
      var score := 0;
      var favorite := if profile.favoriteSpirits != [] then Lower(profile.favoriteSpirits[0]) else "";
      var avgAbv := profile.avgProof / 2.0;
      if spirit == favorite {
        score := score + SpiritMatchWeight;
      }
      if Abs(abv - avgAbv) <= AbvCloseness {
        score := score + AbvMatchWeight;
      }
      assert score == MemberScore(spirit, abv, profile);
      if score > maxScore {
        maxScore := score;
        influential := usernames[i];
        best := i;
      }
    }
  }

  /** The credited member is one whose profile scores highest among the
      members paired with a profile, and every member listed before it
      scores strictly less; a bottle without an ABV is scored at ABV 0. */
  lemma InfluentialScoresHighest(bottle: CatalogBottle, profiles: seq<TasteProfile>, usernames: seq<string>)
    requires usernames != [] && profiles != [] && !bottle.abv.NotNumeric?
    ensures var n := Paired(profiles, usernames);
            var spirit, abv := BottleSpirit(bottle), BottleAbv(bottle).value;
            exists k :: 0 <= k < n && Influential(bottle, profiles, usernames) == Success(usernames[k])
                        && (forall j :: 0 <= j < n ==> MemberScore(spirit, abv, profiles[j]) <= MemberScore(spirit, abv, profiles[k]))
                        && (forall j :: 0 <= j < k ==> MemberScore(spirit, abv, profiles[j]) < MemberScore(spirit, abv, profiles[k]))
  {
    var n := Paired(profiles, usernames);
    var k := BestIndex(BottleSpirit(bottle), BottleAbv(bottle).value, profiles, n);
    assert Influential(bottle, profiles, usernames) == Success(usernames[k]);
  }

  /** The record `{}` the room pipeline passes for a recommended bottle the
      catalog does not list. */
  const EmptyBottle := CatalogBottle(None, Missing, None, Missing)

  /** `{}` reads as spirit type '' and ABV 0: it scores nothing against
      members whose top favourite is a non-empty name and whose average ABV
      is above 5, so among such members the credit goes to the first. */
  lemma EmptyBottleCredit(profiles: seq<TasteProfile>, usernames: seq<string>)
    requires usernames != []
    requires forall i :: 0 <= i < |profiles| ==> profiles[i].favoriteSpirits != [] && profiles[i].favoriteSpirits[0] != ""
                                                 && profiles[i].avgProof > 10.0
    ensures Influential(EmptyBottle, profiles, usernames) == Success(usernames[0])
  {
    var n := Paired(profiles, usernames);
    if n > 0 {
      forall j | 0 <= j < n ensures MemberScore("", 0.0, profiles[j]) == 0 {
        var p := profiles[j];
        assert |Lower(p.favoriteSpirits[0])| == |p.favoriteSpirits[0]| > 0;
        assert TopSpirit(p) != "";
        assert !AbvClose(0.0, p);
      }
      var k := BestIndex("", 0.0, profiles, n);
      assert MemberScore("", 0.0, profiles[0]) == MemberScore("", 0.0, profiles[k]);
    }
  }

  /** A member without any favourite spirit has top spirit '', which is
      also what a bottle without a spirit type reads as: the `{}` of an
      unlisted bottle goes to the first such member, provided every member
      listed before it names a favourite and all average ABVs exceed 5. */
  lemma EmptyBottleNoFavorite(profiles: seq<TasteProfile>, usernames: seq<string>, k: nat)
    requires usernames != [] && k < Paired(profiles, usernames)
    requires profiles[k].favoriteSpirits == []
    requires forall j :: 0 <= j < k ==> profiles[j].favoriteSpirits != [] && profiles[j].favoriteSpirits[0] != ""
    requires forall i :: 0 <= i < |profiles| ==> profiles[i].avgProof > 10.0
    ensures Influential(EmptyBottle, profiles, usernames) == Success(usernames[k])
  {
    var n := Paired(profiles, usernames);
    forall j | 0 <= j < n ensures MemberScore("", 0.0, profiles[j]) <= SpiritMatchWeight {
      assert !AbvClose(0.0, profiles[j]);
    }
    forall j | 0 <= j < k ensures MemberScore("", 0.0, profiles[j]) == 0 {
      var p := profiles[j];
      assert |Lower(p.favoriteSpirits[0])| == |p.favoriteSpirits[0]| > 0;
      assert TopSpirit(p) != "";
      assert !AbvClose(0.0, p);
    }
    assert TopSpirit(profiles[k]) == "";
    assert MemberScore("", 0.0, profiles[k]) == SpiritMatchWeight;
    var b := BestIndex("", 0.0, profiles, n);
    assert MemberScore("", 0.0, profiles[b]) == SpiritMatchWeight;
    assert b == k;
    assert Influential(EmptyBottle, profiles, usernames) == Success(usernames[b]);
  }
}
