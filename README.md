# Liquor recommender core, modelled in Dafny

The recommender turns the bottles in a user's bar into a taste profile. The
profile holds:

- the average proof;
- the proof and price ranges;
- the spirit categories and brands, ranked by how often they occur.

From the profile the recommender derives a target: the favourite spirit and an
ABV, which is half the average proof. It scores every readable bottle of a
liquor catalog against that target: +2 when the ABV is within 5 of it, +3 when
the spirit matches regardless of case, and +1 when the shelf price is at most
100. It keeps the 20 best-scoring bottles in a stable descending order. If fewer
than 5 bottles remain it refuses to recommend. Otherwise it passes the profile
and the candidates to a generative stage.

For a room of users, each member's bar is analysed separately. The resulting
profiles are merged into one group profile with:

- the most common favourite spirit;
- the mean of the halved average proofs, doubled back;
- the envelope of the price ranges.

After the generative stage answers, each recommended bottle is looked up in
the catalog by name and credited to the member whose profile it fits best.
That is 3 points for a matching top spirit and 2 for an ABV within 5, with the
first maximum winning.

The project has one module per component:

| file | module | component |
|---|---|---|
| `common.dfy` | `Common` | results and errors, the field-reading outcome, and `sum`/`min`/`max`/`count`/`str.lower`/slicing |
| `ranking.dfy` | `Ranking` | Python's stable `sort(key=…, reverse=True)` as a value-level insertion sort, with its specification |
| `profile_builder.dfy` | `ProfileBuilder` | `analyze_user_bar` of `app.py`, with its fallback to the default profile |
| `candidate_filter.dfy` | `CandidateFilter` | `prefilter_liquors` (identical in `app.py` and `liquor_recommender.py`, modelled once) and the fallback catalog |
| `profile_aggregator.dfy` | `ProfileAggregator` | `aggregate_profiles` |
| `influence_attributor.dfy` | `InfluenceAttributor` | `find_influential_user` |
| `orchestrator.dfy` | `Orchestrator` | the single-user and room pipelines |
| `liquor_recommender.dfy` | `LiquorRecommender` | the script's `analyze_user_bar` (no fallback) and the target and candidate derivation in `main` |

Each loop of the source is a method. Its `ensures` ties its result to a
specification function, and the properties of that function are proved as
lemmas. Exceptions become values of `Result`:

- `KeyError` on a record is `KeyMissing`;
- `ValueError` from `float()` is `NotANumber`;
- the `ValueError` raised when aggregating no profiles is `NoProfiles`;
- the `ValueError` raised by `min()` of an empty list is `EmptyMin`.

A record field read with `float(record[key])` is a `NumField`: `Missing`,
`NotNumeric` or `Num(value)`.

The group's favourite spirit is counted over every entry of every member's
`favorite_spirits` list, as `aggregate_profiles` does (app.py:164-166).
Counting only each member's top spirit would be a narrower reading of "the
most common favourite". `ProfileAggregator.AllFavorites` pools every entry, as
the code does.

## Model

| member | source | states |
|---|---|---|
| Common.Min | app.py:77 | `min` of a non-empty list is one of its elements and no element is smaller |
| Common.Max | app.py:78 | `max` of a non-empty list is one of its elements and no element is larger |
| Common.MeanWithin | app.py:79 | the average proof `sum/len` lies between the minimum and the maximum |
| Common.SumHalves | app.py:171 | halving every average proof halves their sum |
| Common.MinMaxOfSameElements | app.py:174-176 | `min`/`max` depend only on which values occur, not on their order or repetition |
| Common.CountPositive | app.py:168 | `all_spirits.count(s)` is positive exactly for the spirits that occur |
| Common.Distinct | app.py:100 | the dict's keys are exactly the values seen, each once |
| Common.DistinctFirstSeen | app.py:100 | the keys come in first-seen order: a key listed earlier occurs for the first time earlier in the input |
| Common.DistinctHead | liquor_recommender.py:60 | the first key of a non-empty input is its first value |
| Ranking.SortDescOrderedPermutation | app.py:123 | the sort with `reverse=True` orders by descending key and is a permutation of its input |
| Ranking.SortDescStable | app.py:123 | the sort is stable: the items sharing a key keep their input order |
| Ranking.SortDescUnique | app.py:123 | descending order plus stability determine the sorted list completely |
| Ranking.SortDescConstantKey | liquor_recommender.py:64-65 | when every key is equal the sort leaves the list unchanged |
| Ranking.SortDescMap | app.py:93-101 | taking `s[0]` of each sorted pair equals sorting the keys by the same count |
| Ranking.SortedPrefix | app.py:124 | `scored[:n]` of the sorted list is descending, drawn from the input, and keeps each score group's input order |
| Ranking.SortedPrefixKeepsLargest | app.py:124 | every item cut off by `[:n]` scores no more than the last item kept |
| ProfileBuilder.Products | app.py:59 | `b['product']` succeeds iff every entry has a product, giving them in bar order |
| ProfileBuilder.Bottles | app.py:61-66 | the four fields are read iff every product has a numeric proof and price, a brand and a spirit |
| ProfileBuilder.CountOccurrences | app.py:85-91 | the counting loop yields each distinct value once, in first-seen order, with its number of occurrences |
| ProfileBuilder.BarProfile | app.py:47-103 | the analyzer raises iff some entry has no product, and then only `KeyError('product')`; every other failure falls back |
| ProfileBuilder.AnalyzeUserBar | app.py:47-103 | the analyzer returns exactly the bar profile, including its default and error outcomes |
| ProfileBuilder.FallbackToDefault | app.py:49-75 | an empty bar or any unreadable field gives the default profile; only an entry without `product` raises, as `KeyError('product')` |
| ProfileBuilder.WellFormedBarSummary | app.py:59-65 | a non-empty readable bar has one bottle per entry and is summarised from those bottles |
| ProfileBuilder.ProfileRangesOrdered | app.py:77-82 | every profile has low ≤ average ≤ high proof and low ≤ high price |
| ProfileBuilder.SummaryNumbers | app.py:77-99 | the ranges are bottle values that bound every bottle, and the average is sum over count |
| ProfileBuilder.RankedItemsAreRankedValues | app.py:93-101 | ranking the (value, count) pairs and taking the values equals ranking the distinct values by count |
| ProfileBuilder.RankedByCount | app.py:93-94 | the favourites are the distinct values, in descending count, with ties in first-seen order, the most frequent first |
| ProfileBuilder.SummaryRankings | app.py:100-102 | `spirits` is first-seen order; favourite spirits and brands are ranked by count |
| ProfileBuilder.JamesonBarProfile | app.py:155-157 | the fallback Jameson bar is analysed to the very values of the default profile |
| CandidateFilter.Score | app.py:114-119 | the score lies in 0..6; it is 6 iff ABV band, spirit and price all match, and 0 iff none does |
| CandidateFilter.Prefilter | app.py:105-124 | the prefilter never returns more bottles than the catalog has, nor more than `max_candidates` |
| CandidateFilter.PrefilterLiquors | app.py:105-124 | the loop, sort and slice compute exactly the prefilter |
| CandidateFilter.ScoredKeepsReadable | app.py:107-122 | `scored` holds the readable bottles in catalog order, each with its own score; unreadable items are skipped |
| CandidateFilter.ScoredAppend | app.py:120-122 | scanning one more item appends it, scored, iff it is readable |
| CandidateFilter.PrefilterLength | app.py:124 | the output has min(readable, max) bottles, or readable+max clipped at 0 for a negative max |
| CandidateFilter.PrefilterFromCatalog | app.py:124 | every candidate is a readable bottle of the catalog |
| CandidateFilter.RankedIsSortedPrefix | app.py:123-124 | the ranked list is a prefix of the sorted scored list |
| CandidateFilter.PrefilterOrder | app.py:123-124 | candidates come in non-increasing score order, each with its own score |
| CandidateFilter.PrefilterStable | app.py:123 | candidates with equal scores keep their catalog order |
| CandidateFilter.PrefilterKeepsBest | app.py:124 | no dropped readable bottle scores above the last candidate kept |
| CandidateFilter.FallbackCatalogScores | app.py:136-143 | for whiskey at ABV 40, Jameson scores 6 and Grey Goose 3; all six come back, Jameson first and Grey Goose last |
| ProfileAggregator.MostCommon | app.py:169 | the winner is one of the candidates, and no candidate is counted more often |
| ProfileAggregator.Aggregate | app.py:159-182 | aggregation fails iff there are no profiles, with the no-profiles error; the result has one favourite spirit |
| ProfileAggregator.AggregateProfiles | app.py:159-182 | the extend loop and the merges compute exactly the aggregate |
| ProfileAggregator.PooledCount | app.py:164-166 | the pooled list counts each spirit as the sum over members, and holds exactly the members' favourites |
| ProfileAggregator.CountConcat | app.py:166 | counting over `extend`ed lists adds the counts |
| ProfileAggregator.GroupFavoriteMostCommon | app.py:164-169 | the group spirit is some member's favourite with the highest pooled count, or whiskey when nobody has one |
| ProfileAggregator.GroupAverage | app.py:171-179 | the group proof is the mean of the members' average proofs and lies between their minimum and maximum |
| ProfileAggregator.GroupPriceRange | app.py:174-176 | the group price range is the lowest member low and the highest member high |
| ProfileAggregator.PriceRangeOrderFree | app.py:174-176 | reordering (or repeating) the profiles leaves the group price range unchanged |
| ProfileAggregator.DoubledMeanOfHalves | app.py:171-179 | doubling the mean of the halved average proofs gives back the mean of the average proofs |
| ProfileAggregator.TwoMemberAverage | app.py:171-179 | members at proof 90 and 80 give a group proof of exactly 85 |
| InfluenceAttributor.BottleAbv | app.py:187 | a missing ABV reads as 0; a non-numeric one raises; a number is kept |
| InfluenceAttributor.MemberScore | app.py:193-200 | the score lies in 0..5; it is at least 3 iff the top spirit matches and it has the 2 iff the ABV is within 5 |
| InfluenceAttributor.BestIndex | app.py:202-204 | the chosen member has the highest score, and every earlier member scores strictly less |
| InfluenceAttributor.ScanProfiles | app.py:189-206 | the loop credits the user of the first highest-scoring zipped pair, or the first username when there is no pair |
| InfluenceAttributor.FindInfluentialUser | app.py:184-206 | the method computes exactly the attribution |
| InfluenceAttributor.Influential | app.py:184-206 | attribution fails iff the ABV is not numeric, and otherwise names one of the usernames |
| InfluenceAttributor.InfluentialScoresHighest | app.py:186-204 | for a bottle whose ABV is a number or missing (read as 0), the credited user is a paired member with the highest score, every earlier one scoring less |
| InfluenceAttributor.EmptyBottleNoFavorite | app.py:186-198 | a member with no favourite compares `''` with the `''` of a bottle without `spirit_type` and scores 3, so after members with named favourites that member is credited |
| InfluenceAttributor.EmptyBottleCredit | app.py:186-190 | a bottle missing from the catalog scores 0 for members with a named favourite and proof above 10, so the first user is credited |
| Orchestrator.Target | app.py:212-213 | the target spirit is the first favourite (or whiskey) and the target ABV is half the average proof |
| Orchestrator.SinglePipeline | app.py:208-217 | the pipeline fails iff an entry has no product, and then only with `KeyError('product')`; an insufficient response reports fewer than 5 candidates |
| Orchestrator.RunRecommendationPipeline | app.py:208-223 | the pipeline computes exactly the single-user outcome |
| Orchestrator.Recommend | app.py:215-223 | the filter-then-generate step computes exactly the recommendation for a profile |
| Orchestrator.SingleOutcome | app.py:208-217 | the pipeline fails only on a missing product; it is insufficient iff fewer than 5 readable bottles, and otherwise hands 5-20 prefiltered candidates to the stage |
| Orchestrator.FindByName | app.py:248 | lookup raises on a nameless item met before a match, returns the first match, and returns the empty bottle iff nothing matches |
| Orchestrator.ProfilesWith | app.py:227-231 | collecting profiles yields one profile per bar |
| Orchestrator.Profiles | app.py:227-231 | the analyzer applied to every bar yields one profile per bar |
| Orchestrator.Influences | app.py:246-250 | there is one credit per recommended bottle, naming that bottle and one of the usernames |
| Orchestrator.Credit | app.py:248-249 | a bottle that is looked up and attributed is credited to one of the usernames |
| Orchestrator.CreditBottle | app.py:248-249 | the loop body computes exactly the credit of one bottle |
| Orchestrator.InfluencesStep | app.py:247-250 | one more pass appends the next bottle's credit, or fails with the error of its lookup or attribution |
| Orchestrator.InfluencesCredit | app.py:246-250 | crediting succeeds iff every bottle's lookup and attribution succeed; entry i credits bottle i to `find_influential_user` of the first catalog record of that name, or of `{}` |
| Orchestrator.RoomPipeline | app.py:225-239 | an empty room fails with the no-profiles error of the aggregation; an insufficient room reports fewer than 5 candidates |
| Orchestrator.RunRoomPipeline | app.py:225-255 | the room pipeline computes exactly the room outcome |
| Orchestrator.CollectProfiles | app.py:227-231 | the per-user loop collects exactly the profiles |
| Orchestrator.RoomRecommend | app.py:233-255 | aggregate, filter, generate and credit compute exactly the room recommendation |
| Orchestrator.CreditBottles | app.py:246-250 | the crediting loop computes exactly the influences |
| Orchestrator.ProfilesFailurePersists | app.py:228-231 | once a member's analysis raises, later members do not change the outcome |
| Orchestrator.InfluencesFailurePersists | app.py:247-250 | once a lookup or attribution raises, later bottles do not change the outcome |
| Orchestrator.ProfilesWithFailure | app.py:227-231 | collecting fails iff some bar's analysis fails, and then with that bar's error |
| Orchestrator.ProfilesWithValues | app.py:227-231 | the i-th collected profile is the analysis of the i-th bar |
| Orchestrator.ProfilesOfRoom | app.py:227-231 | the room's profiles fail iff some entry lacks a product, and otherwise are each bar's profile |
| Orchestrator.RoomMissingProduct | app.py:227-231 | an entry without a product in any member's bar makes the room fail with `KeyError('product')` |
| Orchestrator.RoomOutcome | app.py:225-237 | once every member is profiled, aggregation succeeds and the room's outcome is the recommendation for the aggregate of those profiles |
| Orchestrator.RoomRecommendOutcome | app.py:234-255 | the room is insufficient with n candidates iff fewer than 5 catalog bottles are readable; otherwise the stage gets 5 to 20 candidates for the group target, and the response holds its bottles with their credits, or the crediting error |
| Orchestrator.RoomCredits | app.py:246-255 | a recommended room has one credit per bottle, in order, naming that bottle and one of the usernames |
| LiquorRecommender.ReadNumbers | liquor_recommender.py:47-48 | reading a numeric field succeeds iff every product has it numeric, keeping order; otherwise it raises KeyError or ValueError for that key |
| LiquorRecommender.ReadNames | liquor_recommender.py:49-50 | reading a name field succeeds iff every product has it, keeping order; otherwise it raises KeyError for that key |
| LiquorRecommender.ReadBar | liquor_recommender.py:45-52 | a successful read has one value per bar entry in each list, and the bar is non-empty |
| LiquorRecommender.ScriptProfile | liquor_recommender.py:43-74 | the script analyzer succeeds iff every read succeeds, and the proof range encloses the average while the price range is ordered |
| LiquorRecommender.ScriptProfileErrors | liquor_recommender.py:45-56 | the script analyzer succeeds iff the bar is non-empty and readable; empty raises from `min`, and a missing product raises KeyError |
| LiquorRecommender.EveryCountIsOne | liquor_recommender.py:59-62 | the comprehension over the empty dict gives each distinct value a count of 1 |
| LiquorRecommender.ScriptRankingIsFirstSeen | liquor_recommender.py:59-65 | as written, the ranking is first-seen order, whatever the frequencies |
| LiquorRecommender.ScriptProfileShape | liquor_recommender.py:52-73 | the average is the mean of the proofs and lies within their range; both ranges run from min to max; spirits, favourite spirits and brands are in first-seen order |
| LiquorRecommender.ScriptTopSpirit | liquor_recommender.py:59-72 | as written, the first favourite spirit is the spirit of the bar's first bottle |
| LiquorRecommender.VodkaFirstBarFavorite | liquor_recommender.py:59-72 | one vodka before two whiskeys: as written the favourite is vodka, counted it is whiskey |
| LiquorRecommender.CountedProfileRanks | liquor_recommender.py:59-65 | with counting corrected, favourites are ranked by count with the most frequent first; numbers and `spirits` are unchanged |
| LiquorRecommender.MainCandidates | liquor_recommender.py:137-142 | main gets candidates iff the bar reads, never more than 20 nor more than the catalog has |
| LiquorRecommender.MainCandidatesShape | liquor_recommender.py:137-142 | from the analysis as written, main's candidates exist iff the bar is analysable, number min(readable, 20), and are readable catalog bottles |
| LiquorRecommender.CandidatesForFavorite | liquor_recommender.py:138-142 | candidates exist iff the analysis succeeded, and are the prefilter for its first favourite at half its average proof |
| LiquorRecommender.MainTarget | liquor_recommender.py:137-142 | as written, main filters for the spirit of the bar's first bottle at half the mean proof |
| LiquorRecommender.CountedTopSpirit | liquor_recommender.py:59-65 | with counting corrected, the first favourite is a spirit of the bar that no other spirit outnumbers |
| LiquorRecommender.CountedMainSucceeds | liquor_recommender.py:137-142 | correcting the counts never changes whether main gets as far as filtering |
| LiquorRecommender.CountedMainTarget | liquor_recommender.py:137-142 | with counting corrected, main filters for a spirit that no other spirit of the bar outnumbers, at the same ABV |
| LiquorRecommender.MainFallbackCandidates | liquor_recommender.py:116-142 | the fallback bar against the four-bottle catalog yields all four bottles, which the web pipeline would call insufficient |
| LiquorRecommender.ScriptCatalogRanking | liquor_recommender.py:129-134 | for whiskey at ABV 40 the four-bottle catalog comes back in its own order |
| LiquorRecommender.JamesonScriptProfile | liquor_recommender.py:116-118 | the fallback Jameson bar is analysed, as written and with counting corrected alike, to the web analyzer's default profile |

## Left out

- Fetching a bar over HTTP (`fetch_user_bar`, and the request in `main`) is left out. Bars are parameters, and the room pipeline takes one bar per username in the same order.
- Reading `liquors.csv` is left out. The catalog is a parameter, and the two fallback lists are constants.
- The generative agent chain (`analyze_bar_profile`, `enhanced_recommender`, `format_recommendations`) is an external model. It is a function parameter from the profile and candidates to a list of `(name, reason)` bottles.
- The Flask endpoints, their request validation, asyncio and `print` are left out. `main.py` is not part of this model.
- `main`'s reading of argv and the environment is left out.
- Numbers are exact reals, not IEEE doubles. `float()` parsing of strings is reduced to the three outcomes of `NumField`.
- `str.lower` is modelled on ASCII letters only.
- A field holding `None` or a non-string (a `TypeError` in Python) is not modelled. Names are present strings or missing.
- The group winner breaks ties by first-seen order in the pooled list. Python iterates a `set`, whose order is unspecified. `ProfileAggregator.GroupFavoriteMostCommon` states only what holds for every tie-break.
- InfluenceAttributor.Influential requires at least one username. The `IndexError` of `usernames[0]` on an empty list is not modelled. The room pipeline never gets that far with no users, because aggregation raises first, and the endpoint rejects an empty list.
- The in-place `scored.sort` is modelled on values, by the function `Ranking.SortDesc`. Aliasing of the sorted list is not captured.
- Orchestrator.RoomRecommend requires a non-empty favourite list in the group profile. `aggregate_profiles` always produces exactly one favourite (`ProfileAggregator.Aggregate`).

## Findings

| source | as written | input that shows it | evidently intended | confidence | as-written member | corrected member |
|---|---|---|---|---|---|---|
| liquor_recommender.py:59-62 | each comprehension reads the empty dict bound on the line before, so every spirit and brand gets count 1 and the "favourite" ranking is just first-seen order | a bar of one vodka (Tito's) followed by two whiskeys (Jameson): the favourite spirit comes out as vodka | count each value's occurrences, as `app.py:85-91` does, so that the favourite is whiskey | not executed | LiquorRecommender.VodkaFirstBarFavorite | LiquorRecommender.CountedProfileRanks |

`LiquorRecommender.ScriptRankingIsFirstSeen` shows the as-written ranking for
every input. `LiquorRecommender.MainTarget` shows its effect on `main`: the
candidates are filtered for the spirit of the bar's first bottle.
`LiquorRecommender.MainCandidates` models `main` as written.
`LiquorRecommender.CountedMainCandidates` is the same derivation from the
corrected analysis `LiquorRecommender.CountedProfile`.
`LiquorRecommender.CountedMainTarget` proves that it filters for a most
frequent spirit of the bar.
