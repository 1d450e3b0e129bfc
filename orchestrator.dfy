/** Orchestrator: the recommendation pipelines of app.py. The single-user
    pipeline profiles one bar, derives the favourite spirit and target ABV,
    prefilters the catalog and hands at least five candidates to the
    generative stage. The room pipeline profiles every member, aggregates the
    profiles, does the same with the group profile and credits each
    recommended bottle to a member. Fetching a bar and the generative stage
    are outside the model: the fetched bars and the stage are parameters. */
module Orchestrator {
  import opened Common
  import opened ProfileBuilder
  import opened CandidateFilter
  import opened ProfileAggregator
  import opened InfluenceAttributor

  /** One entry of the formatted recommendations: `{name, reason}`. */
  datatype Recommendation = Recommendation(name: string, reason: string)

  /** One entry of `influenced_by`. */
  datatype Influence = Influence(bottle: string, influencedBy: string)

  datatype SingleResponse =
    | Insufficient(count: nat)                      // "Insufficient candidates (n) ..."
    | Recommended(bottles: seq<Recommendation>)

  datatype RoomResponse =
    | RoomInsufficient(count: nat)
    | RoomRecommended(bottles: seq<Recommendation>, influencedBy: seq<Influence>)

  /** Fewer candidates than this and the pipelines give up before the
      generative stage. */
  const MinCandidates := 5
  /** The `max_candidates` both pipelines pass to the prefilter. */
  const PipelineCandidates := 20

  /** The favourite spirit and target ABV a profile yields: its first
      favourite spirit (whiskey when it has none) and half its average proof. */
  function Target(favorites: seq<string>, avgProof: real): (t: (string, real))
    ensures favorites != [] ==> t.0 == favorites[0]
    ensures favorites == [] ==> t.0 == DefaultSpirit
    ensures t.1 * 2.0 == avgProof
  {
    (if favorites != [] then favorites[0] else DefaultSpirit, avgProof / 2.0)
  }

  /** run_recommendation_pipeline, given the fetched bar and the generative
      stage. */
  function SinglePipeline(bar: seq<BarEntry>, dataset: seq<CatalogBottle>,
                          stage: (TasteProfile, seq<CatalogBottle>) -> seq<Recommendation>): (r: Result<SingleResponse, Error>)
    ensures r.Failure? <==> exists i :: 0 <= i < |bar| && bar[i].product.None?
    ensures r.Failure? ==> r.error == KeyMissing("product")
    ensures r.Success? && r.value.Insufficient? ==> r.value.count < MinCandidates
  {
    match BarProfile(bar)
    case Failure(e) => Failure(e)
    case Success(profile) => Success(RecommendFor(profile, dataset, stage))
  }

  /** What follows the profiling: the target, the prefilter, the minimum
      check and the generative stage. */
  function RecommendFor(profile: TasteProfile, dataset: seq<CatalogBottle>,
                        stage: (TasteProfile, seq<CatalogBottle>) -> seq<Recommendation>): SingleResponse
  {
    var (favorite, abv) := Target(profile.favoriteSpirits, profile.avgProof);
    var candidates := Prefilter(dataset, favorite, abv, PipelineCandidates);
    if |candidates| < MinCandidates then Insufficient(|candidates|)
    else Recommended(stage(profile, candidates))
  }

  /** run_recommendation_pipeline, step by step. */
  method RunRecommendationPipeline(bar: seq<BarEntry>, dataset: seq<CatalogBottle>,
                                   stage: (TasteProfile, seq<CatalogBottle>) -> seq<Recommendation>)
    returns (r: Result<SingleResponse, Error>)
    ensures r == SinglePipeline(bar, dataset, stage)
  {
    var analyzed := AnalyzeUserBar(bar);
    if analyzed.Failure? {
      return Failure(analyzed.error);
    }
    var response := Recommend(analyzed.value, dataset, stage);
    r := Success(response);
  }

  method Recommend(profile: TasteProfile, dataset: seq<CatalogBottle>,
                   stage: (TasteProfile, seq<CatalogBottle>) -> seq<Recommendation>)
    returns (response: SingleResponse)
    ensures response == RecommendFor(profile, dataset, stage)
  {
    var favorite := if profile.favoriteSpirits != [] then profile.favoriteSpirits[0] else DefaultSpirit;
    var abv := profile.avgProof / 2.0;
    var candidates := PrefilterLiquors(dataset, favorite, abv, PipelineCandidates);
    if |candidates| < MinCandidates {
      return Insufficient(|candidates|);
    }
    response := Recommended(stage(profile, candidates));
  }

  /** The single-user outcome: a missing product is the only error; the
      stage runs exactly when the prefilter finds at least five readable
      bottles, and is then given between five and twenty of them. */
  lemma SingleOutcome(bar: seq<BarEntry>, dataset: seq<CatalogBottle>,
                      stage: (TasteProfile, seq<CatalogBottle>) -> seq<Recommendation>)
    ensures var r := SinglePipeline(bar, dataset, stage);
            && (r.Failure? <==> BarProfile(bar).Failure?)
            && (r.Failure? ==> r.error == KeyMissing("product"))
            && (r.Success? ==>
                  var p := BarProfile(bar).value;
                  var t := Target(p.favoriteSpirits, p.avgProof);
                  var n := |Filter(Scorable, dataset)|;
                  && (r.value.Insufficient? <==> n < MinCandidates)
                  && (r.value.Insufficient? ==> r.value.count == n)
                  && (r.value.Recommended? ==>
                        var c := Prefilter(dataset, t.0, t.1, PipelineCandidates);
                        MinCandidates <= |c| <= PipelineCandidates && r.value.bottles == stage(p, c)))
  {
    FallbackToDefault(bar);
    if BarProfile(bar).Success? {
      var p := BarProfile(bar).value;
      var t := Target(p.favoriteSpirits, p.avgProof);
      PrefilterLength(dataset, t.0, t.1, PipelineCandidates);
    }
  }

  /** `next((item for item in dataset if item['name'] == name), {})`: the
      first catalog bottle of that name, `{}` when none has it, and a
      KeyError when a bottle without a name is met first. */
  function FindByName(dataset: seq<CatalogBottle>, name: string): (r: Result<CatalogBottle, Error>)
    ensures r.Failure? <==> exists i :: 0 <= i < |dataset| && dataset[i].name.None?
                                         && forall j :: 0 <= j < i ==> dataset[j].name != Some(name)
    ensures r.Failure? ==> r.error == KeyMissing("name")
    ensures r.Success? && r.value != EmptyBottle ==>
              exists i :: 0 <= i < |dataset| && dataset[i] == r.value && r.value.name == Some(name)
                          && forall j :: 0 <= j < i ==> dataset[j].name.Some? && dataset[j].name != Some(name)
    ensures r == Success(EmptyBottle) <==> forall i :: 0 <= i < |dataset| ==> dataset[i].name.Some? && dataset[i].name != Some(name)
  {
    if dataset == [] then Success(EmptyBottle)
    else if dataset[0].name.None? then Failure(KeyMissing("name"))
    else if dataset[0].name.value == name then Success(dataset[0])
    else
      var r := FindByName(dataset[1..], name);
      assert forall i :: 1 <= i < |dataset| ==> dataset[i] == dataset[1..][i - 1];
      r
  }

  /** The profiles loop of the room pipeline: the member profiles in member
      order, or the first error. */
  function Profiles(bars: seq<seq<BarEntry>>): (r: Result<seq<TasteProfile>, Error>)
    ensures r.Success? ==> |r.value| == |bars|
  {
    ProfilesWith(BarProfile, bars)
  }

  /** The same loop for any analysis of a bar. */
  function ProfilesWith(analyze: seq<BarEntry> -> Result<TasteProfile, Error>, bars: seq<seq<BarEntry>>)
    : (r: Result<seq<TasteProfile>, Error>)
    ensures r.Success? ==> |r.value| == |bars|
  {
    if bars == [] then Success([])
    else
      match ProfilesWith(analyze, bars[..|bars| - 1])
      case Failure(e) => Failure(e)
      case Success(ps) =>
        match analyze(bars[|bars| - 1])
        case Failure(e) => Failure(e)
        case Success(p) => Success(ps + [p])
  }

  /** The influenced_by loop: one entry per recommended bottle, in order,
      each naming the bottle and the member credited with it. */
  function Influences(recommendations: seq<Recommendation>, dataset: seq<CatalogBottle>,
                      profiles: seq<TasteProfile>, usernames: seq<string>): (r: Result<seq<Influence>, Error>)
    requires usernames != []
    ensures r.Success? ==> |r.value| == |recommendations|
    ensures r.Success? ==> forall i :: 0 <= i < |recommendations| ==>
              r.value[i].bottle == recommendations[i].name && r.value[i].influencedBy in usernames
  {
    if recommendations == [] then Success([])
    else
      var init := recommendations[..|recommendations| - 1];
      var name := recommendations[|recommendations| - 1].name;
      match Influences(init, dataset, profiles, usernames)
      case Failure(e) => Failure(e)
      case Success(entries) =>
        match Credit(name, dataset, profiles, usernames)
        case Failure(e) => Failure(e)
        case Success(user) =>
          var credits := entries + [Influence(name, user)];
          assert credits[..|init|] == entries && recommendations[..|init|] == init;
          Success(credits)
  }

  /** One pass of the influenced_by loop: the catalog lookup by name, then
      `find_influential_user` on the record found. */
  function Credit(name: string, dataset: seq<CatalogBottle>, profiles: seq<TasteProfile>, usernames: seq<string>)
    : (r: Result<string, Error>)
    requires usernames != []
    ensures r.Success? ==> r.value in usernames
  {
    match FindByName(dataset, name)
    case Failure(e) => Failure(e)
    case Success(bottle) => Influential(bottle, profiles, usernames)
  }

  /** run_room_recommendation_pipeline, given each member's fetched bar and
      the generative stage. */
  function RoomPipeline(usernames: seq<string>, bars: seq<seq<BarEntry>>, dataset: seq<CatalogBottle>,
                        stage: (GroupProfile, seq<CatalogBottle>) -> seq<Recommendation>): (r: Result<RoomResponse, Error>)
    requires |bars| == |usernames|
    ensures usernames == [] ==> r == Failure(NoProfiles)
    ensures r.Success? && r.value.RoomInsufficient? ==> r.value.count < MinCandidates
  {
    match Profiles(bars)
    case Failure(e) => Failure(e)
    case Success(profiles) =>
      match Aggregate(profiles)
      case Failure(e) => Failure(e)
      case Success(group) => RoomRecommendFor(group, profiles, usernames, dataset, stage)
  }

  /** What follows the aggregation: the group target, the prefilter, the
      minimum check, the generative stage and the credits. */
  function RoomRecommendFor(group: GroupProfile, profiles: seq<TasteProfile>, usernames: seq<string>,
                            dataset: seq<CatalogBottle>, stage: (GroupProfile, seq<CatalogBottle>) -> seq<Recommendation>)
    : Result<RoomResponse, Error>
    requires usernames != [] && group.favoriteSpirits != []
  {
    var favorite, abv := group.favoriteSpirits[0], group.avgProof / 2.0;
    var candidates := Prefilter(dataset, favorite, abv, PipelineCandidates);
    if |candidates| < MinCandidates then Success(RoomInsufficient(|candidates|))
    else
      var recommendations := stage(group, candidates);
      match Influences(recommendations, dataset, profiles, usernames)
      case Failure(e) => Failure(e)
      case Success(influences) => Success(RoomRecommended(recommendations, influences))
  }

  /** run_room_recommendation_pipeline, step by step. */
  method RunRoomPipeline(usernames: seq<string>, bars: seq<seq<BarEntry>>, dataset: seq<CatalogBottle>,
                         stage: (GroupProfile, seq<CatalogBottle>) -> seq<Recommendation>)
    returns (r: Result<RoomResponse, Error>)
    requires |bars| == |usernames|
    ensures r == RoomPipeline(usernames, bars, dataset, stage)
  {
    var profiles := CollectProfiles(bars);
    if profiles.Failure? {
      return Failure(profiles.error);
    }
    var combined := AggregateProfiles(profiles.value);
    if combined.Failure? {
      return Failure(combined.error);
    }
    r := RoomRecommend(combined.value, profiles.value, usernames, dataset, stage);
  }

  /** The loop that fetches and profiles each member's bar. */
  method CollectProfiles(bars: seq<seq<BarEntry>>) returns (r: Result<seq<TasteProfile>, Error>)
    ensures r == Profiles(bars)
  {
    var profiles: seq<TasteProfile> := [];
    for i := 0 to |bars|
      invariant Profiles(bars[..i]) == Success(profiles)
    {
      assert bars[..i + 1][..i] == bars[..i];
      var profile := AnalyzeUserBar(bars[i]);
      if profile.Failure? {
        ProfilesFailurePersists(BarProfile, bars, i + 1);
        return Failure(profile.error);
      }
      profiles := profiles + [profile.value];
    }
    assert bars[..|bars|] == bars;
    r := Success(profiles);
  }

  method RoomRecommend(group: GroupProfile, profiles: seq<TasteProfile>, usernames: seq<string>,
                       dataset: seq<CatalogBottle>, stage: (GroupProfile, seq<CatalogBottle>) -> seq<Recommendation>)
    returns (r: Result<RoomResponse, Error>)
    requires usernames != [] && group.favoriteSpirits != []
    ensures r == RoomRecommendFor(group, profiles, usernames, dataset, stage)
  {
    var candidates := PrefilterLiquors(dataset, group.favoriteSpirits[0], group.avgProof / 2.0, PipelineCandidates);
    if |candidates| < MinCandidates {
      return Success(RoomInsufficient(|candidates|));
    }
    var recommendations := stage(group, candidates);
    var influences := CreditBottles(recommendations, dataset, profiles, usernames);
    if influences.Failure? {
      return Failure(influences.error);
    }
    r := Success(RoomRecommended(recommendations, influences.value));
  }

  /** The loop that credits each recommended bottle to a member. */
  method CreditBottles(recommendations: seq<Recommendation>, dataset: seq<CatalogBottle>,
                       profiles: seq<TasteProfile>, usernames: seq<string>)
    returns (r: Result<seq<Influence>, Error>)
    requires usernames != []
    ensures r == Influences(recommendations, dataset, profiles, usernames)
  {
    var influences: seq<Influence> := [];
    for i := 0 to |recommendations|
      invariant Influences(recommendations[..i], dataset, profiles, usernames) == Success(influences)
    {
      InfluencesStep(recommendations, dataset, profiles, usernames, i);
      var name := recommendations[i].name;
      var user := CreditBottle(name, dataset, profiles, usernames);
      if user.Failure? {
        InfluencesFailurePersists(recommendations, dataset, profiles, usernames, i + 1);
        return Failure(user.error);
      }
      influences := influences + [Influence(name, user.value)];
    }
    assert recommendations[..|recommendations|] == recommendations;
    r := Success(influences);
  }

  /** The body of the influenced_by loop: look the bottle up by name, then
      credit it. */
  method CreditBottle(name: string, dataset: seq<CatalogBottle>, profiles: seq<TasteProfile>, usernames: seq<string>)
    returns (r: Result<string, Error>)
    requires usernames != []
    ensures r == Credit(name, dataset, profiles, usernames)
  {
    var bottle := FindByName(dataset, name);
    if bottle.Failure? {
      return Failure(bottle.error);
    }
    r := FindInfluentialUser(bottle.value, profiles, usernames);
  }

  /** One more pass of the influenced_by loop extends the credits by the
      credit of the next bottle, or fails with its error. */
  lemma InfluencesStep(recommendations: seq<Recommendation>, dataset: seq<CatalogBottle>,
                       profiles: seq<TasteProfile>, usernames: seq<string>, i: nat)
    requires usernames != [] && i < |recommendations|
    ensures var prefix := Influences(recommendations[..i], dataset, profiles, usernames);
            var credit := Credit(recommendations[i].name, dataset, profiles, usernames);
            Influences(recommendations[..i + 1], dataset, profiles, usernames)
            == if prefix.Failure? then prefix
               else if credit.Failure? then Failure(credit.error)
               else Success(prefix.value + [Influence(recommendations[i].name, credit.value)])
  {
    assert recommendations[..i + 1][..i] == recommendations[..i];
  }

  /** Once a member's bar fails, the whole profiles loop fails with that
      member's (or an earlier member's) error. */
  lemma {:induction false} ProfilesFailurePersists(analyze: seq<BarEntry> -> Result<TasteProfile, Error>,
                                                   bars: seq<seq<BarEntry>>, i: nat)
    requires 0 < i <= |bars| && ProfilesWith(analyze, bars[..i]).Failure?
    ensures ProfilesWith(analyze, bars) == ProfilesWith(analyze, bars[..i])
  {
    if i < |bars| {
      var init := bars[..|bars| - 1];
      assert init[..i] == bars[..i];
      ProfilesFailurePersists(analyze, init, i);
      assert ProfilesWith(analyze, bars) == ProfilesWith(analyze, init);
    } else {
      assert bars[..i] == bars;
    }
  }

  lemma {:induction false} InfluencesFailurePersists(recommendations: seq<Recommendation>, dataset: seq<CatalogBottle>,
                                                     profiles: seq<TasteProfile>, usernames: seq<string>, i: nat)
    requires usernames != []
    requires 0 < i <= |recommendations| && Influences(recommendations[..i], dataset, profiles, usernames).Failure?
    ensures Influences(recommendations, dataset, profiles, usernames) == Influences(recommendations[..i], dataset, profiles, usernames)
  {
    if i < |recommendations| {
      var init := recommendations[..|recommendations| - 1];
      assert init[..i] == recommendations[..i];
      InfluencesFailurePersists(init, dataset, profiles, usernames, i);
    } else {
      assert recommendations[..i] == recommendations;
    }
  }

  /** A member entry without a product is the KeyError of the room. */
  lemma RoomMissingProduct(usernames: seq<string>, bars: seq<seq<BarEntry>>, dataset: seq<CatalogBottle>,
                           stage: (GroupProfile, seq<CatalogBottle>) -> seq<Recommendation>)
    requires |bars| == |usernames|
    ensures (exists i, j :: 0 <= i < |bars| && 0 <= j < |bars[i]| && bars[i][j].product.None?)
            ==> RoomPipeline(usernames, bars, dataset, stage) == Failure(KeyMissing("product"))
  {
    ProfilesOfRoom(bars);
  }

  /** Once every member is profiled, the room is recommended for the
      aggregate of the members' profiles. */
  lemma RoomOutcome(usernames: seq<string>, bars: seq<seq<BarEntry>>, dataset: seq<CatalogBottle>,
                    stage: (GroupProfile, seq<CatalogBottle>) -> seq<Recommendation>)
    requires |bars| == |usernames|
    ensures usernames != [] && Profiles(bars).Success? ==>
              && Aggregate(Profiles(bars).value).Success?
              && RoomPipeline(usernames, bars, dataset, stage)
                 == RoomRecommendFor(Aggregate(Profiles(bars).value).value, Profiles(bars).value, usernames, dataset, stage)
  {
  }

  /** A successful recommendation credits each recommended bottle, in
      order, to one of the room's members. */
  lemma RoomCredits(usernames: seq<string>, bars: seq<seq<BarEntry>>, dataset: seq<CatalogBottle>,
                    stage: (GroupProfile, seq<CatalogBottle>) -> seq<Recommendation>)
    requires |bars| == |usernames|
    ensures var r := RoomPipeline(usernames, bars, dataset, stage);
            r.Success? && r.value.RoomRecommended? ==>
              && |r.value.influencedBy| == |r.value.bottles|
              && forall i :: 0 <= i < |r.value.bottles| ==>
                   r.value.influencedBy[i].bottle == r.value.bottles[i].name
                   && r.value.influencedBy[i].influencedBy in usernames
  {
  }

  /** The group target drives the prefilter exactly as in the single-user
      pipeline: the room is refused with the number of candidates iff fewer
      than five catalog bottles are readable; otherwise the generative stage
      receives the 5 to 20 candidates for the group's favourite spirit and
      half its average proof, and its bottles are credited by the
      influenced_by loop. */
  lemma RoomRecommendOutcome(group: GroupProfile, profiles: seq<TasteProfile>, usernames: seq<string>,
                             dataset: seq<CatalogBottle>, stage: (GroupProfile, seq<CatalogBottle>) -> seq<Recommendation>)
    requires usernames != [] && group.favoriteSpirits != []
    ensures var r := RoomRecommendFor(group, profiles, usernames, dataset, stage);
            var c := Prefilter(dataset, group.favoriteSpirits[0], group.avgProof / 2.0, PipelineCandidates);
            var n := |Filter(Scorable, dataset)|;
            && (n < MinCandidates ==> r == Success(RoomInsufficient(n)))
            && (n >= MinCandidates ==>
                  && MinCandidates <= |c| <= PipelineCandidates
                  && var recs := stage(group, c);
                     var credits := Influences(recs, dataset, profiles, usernames);
                     r == if credits.Success? then Success(RoomRecommended(recs, credits.value))
                          else Failure(credits.error))
  {
    PrefilterLength(dataset, group.favoriteSpirits[0], group.avgProof / 2.0, PipelineCandidates);
  }

  /** A recommended bottle can be credited: the lookup by name does not
      raise, and neither does `find_influential_user` on what it finds. */
  predicate Creditable(rec: Recommendation, dataset: seq<CatalogBottle>, profiles: seq<TasteProfile>, usernames: seq<string>)
    requires usernames != []
  {
    FindByName(dataset, rec.name).Success? && Influential(FindByName(dataset, rec.name).value, profiles, usernames).Success?
  }

  /** The `influenced_by` entry of a creditable bottle. */
  function CreditFor(rec: Recommendation, dataset: seq<CatalogBottle>, profiles: seq<TasteProfile>, usernames: seq<string>): Influence
    requires usernames != [] && Creditable(rec, dataset, profiles, usernames)
  {
    Influence(rec.name, Influential(FindByName(dataset, rec.name).value, profiles, usernames).value)
  }

  /** The influenced_by loop succeeds iff every recommended bottle is
      creditable, and then entry i credits bottle i to `find_influential_user`
      of the first catalog record of that name (`{}` when there is none). */
  lemma {:induction false} InfluencesCredit(recommendations: seq<Recommendation>, dataset: seq<CatalogBottle>,
                                            profiles: seq<TasteProfile>, usernames: seq<string>)
    requires usernames != []
    ensures Influences(recommendations, dataset, profiles, usernames).Success?
            <==> forall i :: 0 <= i < |recommendations| ==> Creditable(recommendations[i], dataset, profiles, usernames)
    ensures Influences(recommendations, dataset, profiles, usernames).Success? ==>
              forall i :: 0 <= i < |recommendations| ==>
                Influences(recommendations, dataset, profiles, usernames).value[i]
                == CreditFor(recommendations[i], dataset, profiles, usernames)
  {
    if recommendations != [] {
      var init := recommendations[..|recommendations| - 1];
      var last := recommendations[|recommendations| - 1];
      InfluencesCredit(init, dataset, profiles, usernames);
      var prior := Influences(init, dataset, profiles, usernames);
      var r := Influences(recommendations, dataset, profiles, usernames);
      if prior.Failure? {
        assert r.Failure?;
        var i :| 0 <= i < |init| && !Creditable(init[i], dataset, profiles, usernames);
        assert init[i] == recommendations[i];
      } else if !Creditable(last, dataset, profiles, usernames) {
        assert r.Failure?;
      } else {
        assert r == Success(prior.value + [CreditFor(last, dataset, profiles, usernames)]);
        forall i | 0 <= i < |recommendations|
          ensures Creditable(recommendations[i], dataset, profiles, usernames)
          ensures r.value[i] == CreditFor(recommendations[i], dataset, profiles, usernames)
        {
          if i < |init| {
            assert init[i] == recommendations[i];
          }
        }
      }
    }
  }

  /** The profiles loop fails exactly when some member's analysis does,
      with the error of the first member that fails. */
  lemma {:induction false} ProfilesWithFailure(analyze: seq<BarEntry> -> Result<TasteProfile, Error>,
                                               bars: seq<seq<BarEntry>>, e: Error)
    requires forall i :: 0 <= i < |bars| && analyze(bars[i]).Failure? ==> analyze(bars[i]).error == e
    ensures ProfilesWith(analyze, bars).Failure? <==> exists i :: 0 <= i < |bars| && analyze(bars[i]).Failure?
    ensures ProfilesWith(analyze, bars).Failure? ==> ProfilesWith(analyze, bars).error == e
  {
    if bars != [] {
      var init := bars[..|bars| - 1];
      assert forall i :: 0 <= i < |init| ==> init[i] == bars[i];
      ProfilesWithFailure(analyze, init, e);
      if exists i :: 0 <= i < |bars| && analyze(bars[i]).Failure? {
        var i :| 0 <= i < |bars| && analyze(bars[i]).Failure?;
        if i < |init| {
          assert analyze(init[i]).Failure?;
        }
      }
    }
  }

  /** When the profiles loop succeeds it holds each member's analysis at the
      member's position. */
  lemma {:induction false} ProfilesWithValues(analyze: seq<BarEntry> -> Result<TasteProfile, Error>,
                                              bars: seq<seq<BarEntry>>)
    requires ProfilesWith(analyze, bars).Success?
    ensures forall i :: 0 <= i < |bars| ==> analyze(bars[i]) == Success(ProfilesWith(analyze, bars).value[i])
  {
    if bars != [] {
      var init := bars[..|bars| - 1];
      ProfilesWithValues(analyze, init);
      var ps := ProfilesWith(analyze, init).value;
      assert ProfilesWith(analyze, bars).value == ps + [analyze(bars[|bars| - 1]).value];
      forall i | 0 <= i < |bars| ensures analyze(bars[i]) == Success(ProfilesWith(analyze, bars).value[i]) {
        if i < |init| {
          assert init[i] == bars[i];
        }
      }
    }
  }

  /** The room's profiles: they fail exactly when a member's bar has an
      entry without a product, with that KeyError; otherwise each member's
      profile is the one the builder gives for the member's bar. */
  lemma ProfilesOfRoom(bars: seq<seq<BarEntry>>)
    ensures Profiles(bars).Failure? <==> exists i, j :: 0 <= i < |bars| && 0 <= j < |bars[i]| && bars[i][j].product.None?
    ensures Profiles(bars).Failure? ==> Profiles(bars).error == KeyMissing("product")
    ensures Profiles(bars).Success? ==> forall i :: 0 <= i < |bars| ==> BarProfile(bars[i]) == Success(Profiles(bars).value[i])
  {
    forall i | 0 <= i < |bars|
      ensures BarProfile(bars[i]).Failure? <==> exists j :: 0 <= j < |bars[i]| && bars[i][j].product.None?
      ensures BarProfile(bars[i]).Failure? ==> BarProfile(bars[i]).error == KeyMissing("product")
    {
      FallbackToDefault(bars[i]);
    }
    ProfilesWithFailure(BarProfile, bars, KeyMissing("product"));
    if Profiles(bars).Success? {
      ProfilesWithValues(BarProfile, bars);
    }
  }
}
