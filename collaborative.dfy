// CollaborativeFilteringAlgorithm: the Jaccard index over purchase maps, the
// confidence and reason given to a recommendation, the cold-start conversion
// of trending products, and GetRecommendationsAsync, which sequences four
// repository reads.

module Collaborative {
  import opened Common
  import opened RecommendationDtos
  import opened Graph
  import opened RepositorySpec
  import opened Repository

  // ------------------------------------------------------------ similarity

  /**
   * CalculateUserSimilarity: the Jaccard index of the two key sets, 0 when
   * either map is empty; the purchase counts stored as values play no part.
   */
  function CalculateUserSimilarity(a: map<string, int>, b: map<string, int>): (r: real)
    ensures 0.0 <= r <= 1.0
    ensures |a| == 0 || |b| == 0 ==> r == 0.0
  {
    if |a| == 0 || |b| == 0 then 0.0
    else
      var common := |a.Keys * b.Keys|;
      var total := |a.Keys + b.Keys|;
      JaccardParts(a.Keys, b.Keys);
      if total > 0 then common as real / total as real else 0.0
  }

  /** The intersection is no larger than the union, and as large exactly when the sets are equal. */
  lemma JaccardParts(x: set<string>, y: set<string>)
    ensures |x * y| <= |x + y|
    ensures |x * y| == |x + y| <==> x == y
    ensures x != {} ==> |x + y| > 0
  {
    assert |x - y| + |y - x| + |x * y| == |x + y|;
    if |x * y| == |x + y| {
      assert x - y == {} && y - x == {};
      assert forall e :: e in x ==> e in y;
      assert forall e :: e in y ==> e in x;
    }
    if x != {} {
      var e :| e in x;
      assert e in x + y;
    }
  }

  /** For two non-empty maps the similarity is the share of their products they have in common. */
  lemma SimilarityIsJaccard(a: map<string, int>, b: map<string, int>)
    requires |a| > 0 && |b| > 0
    ensures CalculateUserSimilarity(a, b) * (|a.Keys + b.Keys| as real) == |a.Keys * b.Keys| as real
  {
    JaccardParts(a.Keys, b.Keys);
  }

  /** Swapping the two users does not change their similarity. */
  lemma SimilaritySymmetric(a: map<string, int>, b: map<string, int>)
    ensures CalculateUserSimilarity(a, b) == CalculateUserSimilarity(b, a)
  {
    if |a| != 0 && |b| != 0 {
      assert |a.Keys * b.Keys| == |b.Keys * a.Keys| by { assert a.Keys * b.Keys == b.Keys * a.Keys; }
      assert |a.Keys + b.Keys| == |b.Keys + a.Keys| by { assert a.Keys + b.Keys == b.Keys + a.Keys; }
    }
  }

  /** Only the product ids count: maps with the same keys are equally similar to anything. */
  lemma SimilarityIgnoresCounts(a: map<string, int>, a': map<string, int>, b: map<string, int>)
    requires a.Keys == a'.Keys
    ensures CalculateUserSimilarity(a, b) == CalculateUserSimilarity(a', b)
  {
    assert |a| == |a.Keys| && |a'| == |a'.Keys|;
  }

  /** Two non-empty histories are fully similar exactly when they cover the same products. */
  lemma SimilarityOneIffSameProducts(a: map<string, int>, b: map<string, int>)
    requires |a| > 0 && |b| > 0
    ensures CalculateUserSimilarity(a, b) == 1.0 <==> a.Keys == b.Keys
  {
    JaccardParts(a.Keys, b.Keys);
    assert a.Keys != {} by { assert |a.Keys| == |a|; }
    var common := |a.Keys * b.Keys|;
    var total := |a.Keys + b.Keys|;
    if common as real / total as real == 1.0 {
      assert common as real == total as real;
    }
  }

  /** Two non-empty histories have similarity 0 exactly when they share no product. */
  lemma SimilarityZeroIffDisjoint(a: map<string, int>, b: map<string, int>)
    requires |a| > 0 && |b| > 0
    ensures CalculateUserSimilarity(a, b) == 0.0 <==> a.Keys * b.Keys == {}
  {
    JaccardParts(a.Keys, b.Keys);
    assert a.Keys != {} by { assert |a.Keys| == |a|; }
    var common := |a.Keys * b.Keys|;
    var total := |a.Keys + b.Keys|;
    if common as real / total as real == 0.0 {
      assert common as real == 0.0 * total as real;
    }
  }

  /** {p1, p2, p3} against {p1, p2, p4}: two shared products out of four. */
  lemma SimilarityExample()
    ensures CalculateUserSimilarity(map["p1" := 1, "p2" := 1, "p3" := 1], map["p1" := 1, "p2" := 1, "p4" := 1]) == 0.5
  {
    var a := map["p1" := 1, "p2" := 1, "p3" := 1];
    var b := map["p1" := 1, "p2" := 1, "p4" := 1];
    assert a.Keys == {"p1", "p2", "p3"} && b.Keys == {"p1", "p2", "p4"};
    assert |a.Keys * b.Keys| == 2 by { assert a.Keys * b.Keys == {"p1", "p2"}; }
    assert |a.Keys + b.Keys| == 4 by { assert a.Keys + b.Keys == {"p1", "p2", "p3", "p4"}; }
    assert |a| == 3 && |b| == 3;
  }

  // ------------------------------------------------------------ confidence and reasons

  /** `Math.Min(count / 20.0, 1.0)`: the share of 20 similar users, capped at 1. */
  function CalculateConfidence(count: nat): (r: real)
    ensures 0.0 <= r <= 1.0
    ensures count < 20 ==> r == count as real / 20.0
    ensures r == 1.0 <==> count >= 20
  {
    MinReal(count as real / 20.0, 1.0)
  }

  const ManySimilarSuffix: string := " utilisateurs similaires ont acheté ce produit"
  const SimilarTasteReason: string := "Populaire parmi les utilisateurs " + "ayant des goûts similaires"
  const HistoryReason: string := "Basé sur votre historique d'achats"

  /**
   * The reason text: above 10 similar users it states their number, above 5
   * it is the similar-taste phrase, and otherwise the history phrase; each
   * fixed phrase is given exactly in its own band.
   */
  function GenerateReason(count: nat): (r: string)
    ensures count > 10 ==> CountedText(r, count, ManySimilarSuffix)
    ensures r == SimilarTasteReason <==> 5 < count <= 10
    ensures r == HistoryReason <==> count <= 5
  {
    if count > 10 then
      var r := NatToString(count) + ManySimilarSuffix;
      CountedTextOf(count, ManySimilarSuffix);
      NatToStringValue(count);
      assert '0' <= r[0] <= '9';
      assert SimilarTasteReason[0] == 'P' && HistoryReason[0] == 'B';
      r
    else if count > 5 then SimilarTasteReason
    else HistoryReason
  }

  const PopularReason: string := "Produit populaire"
  const ColdStartConfidence: real := 0.5

  /** ConvertTrendingToRecommended: the trend score becomes the score; the other properties keep their defaults. */
  function ConvertTrendingToRecommended(trending: seq<TrendingProduct>): (r: seq<RecommendedProduct>)
    ensures |r| == |trending|
    ensures forall i :: 0 <= i < |r| ==>
      && r[i].productId == trending[i].productId && r[i].name == trending[i].name
      && r[i].category == trending[i].category && r[i].price == trending[i].price
      && r[i].score == trending[i].trendScore && r[i].reason == PopularReason
      && r[i].confidence == ColdStartConfidence && r[i].rating == 0.0 && r[i].imageUrl == ""
    decreases |trending|
  {
    if trending == [] then []
    else
      var t := trending[|trending| - 1];
      ConvertTrendingToRecommended(trending[..|trending| - 1])
        + [RecommendedProduct(t.productId, t.name, t.category, t.price, "", 0.0, t.trendScore, PopularReason, ColdStartConfidence)]
  }

  /** Step 5 of GetRecommendationsAsync: every recommendation gets the confidence and reason of `count` similar users. */
  function Annotate(recs: seq<RecommendedProduct>, count: nat): (r: seq<RecommendedProduct>)
    ensures |r| == |recs|
    ensures forall i :: 0 <= i < |r| ==>
      r[i] == recs[i].(confidence := CalculateConfidence(count), reason := GenerateReason(count))
    decreases |recs|
  {
    if recs == [] then []
    else
      Annotate(recs[..|recs| - 1], count)
        + [recs[|recs| - 1].(confidence := CalculateConfidence(count), reason := GenerateReason(count))]
  }

  // ------------------------------------------------------------ GetRecommendationsAsync

  const SimilarUserLimit: Int32 := 20
  const ColdStartDays: Int32 := 30

  /** How many candidate ids step 3 asks for: `limit * 3` in unchecked `int` arithmetic. */
  function CandidateLimit(limit: Int32): (r: Int32)
    ensures -0x8000_0000 <= limit as int * 3 <= 0x7fff_ffff ==> r == limit * 3
  {
    Wrap32(limit as int * 3)
  }

  /** The cold start: the 30-day trending list, converted. */
  function ColdStartCall(g: Graph, faults: set<nat>, n: nat, limit: Int32, now: Time): Run<seq<RecommendedProduct>>
  {
    var t := TrendingCall(g, faults, n, now, ColdStartDays, limit);
    Run(if t.result.Err? then Err(t.result.error) else Ok(ConvertTrendingToRecommended(t.result.value)), t.issued, t.after)
  }

  /** Steps 4 and 5: the personalized list, annotated with the similar-user count. */
  function AnnotatedCall(g: Graph, faults: set<nat>, n: nat, uid: string, limit: Int32, count: nat): Run<seq<RecommendedProduct>>
  {
    var p := PersonalizedCall(g, faults, n, uid, limit);
    Run(if p.result.Err? then Err(p.result.error) else Ok(Annotate(p.result.value, count)), p.issued, p.after)
  }

  /** Step 3 and on: the candidate ids of `similar` (their value is not used further), then steps 4 and 5. */
  function CandidatesCall(g: Graph, faults: set<nat>, n: nat, uid: string, similar: seq<string>, limit: Int32): Run<seq<RecommendedProduct>>
  {
    var c := CandidateIdsCall(g, faults, n, uid, similar, CandidateLimit(limit));
    if c.result.Err? then Run(Err(c.result.error), c.issued, c.after)
    else
      var a := AnnotatedCall(c.after, faults, n + 1, uid, limit, |similar|);
      Run(a.result, c.issued + a.issued, a.after)
  }

  /** Step 2 and on: no similar users gives an empty list. */
  function WarmStartCall(g: Graph, faults: set<nat>, n: nat, uid: string, limit: Int32): Run<seq<RecommendedProduct>>
  {
    var s := SimilarUsersCall(g, faults, n, uid, SimilarUserLimit);
    if s.result.Err? then Run(Err(s.result.error), s.issued, s.after)
    else if s.result.value == [] then Run(Ok([]), s.issued, s.after)
    else
      var c := CandidatesCall(s.after, faults, n + 1, uid, s.result.value, limit);
      Run(c.result, s.issued + c.issued, c.after)
  }

  /**
   * GetRecommendationsAsync as a sequence of repository calls: the purchase
   * history first; an empty history falls back to the 30-day trending list;
   * otherwise similar users, candidate ids and the personalized list, whose
   * entries get the confidence and reason of the similar-user count. The
   * first call that raises ends the sequence.
   */
  function RecommendationsCall(g: Graph, faults: set<nat>, n: nat, uid: string, limit: Int32, now: Time): Run<seq<RecommendedProduct>>
  {
    var h := CategoryCountsCall(g, faults, n, uid);
    if h.result.Err? then Run(Err(h.result.error), h.issued, h.after)
    else
      var w := if h.result.value == map[] then ColdStartCall(h.after, faults, n + 1, limit, now)
               else WarmStartCall(h.after, faults, n + 1, uid, limit);
      Run(w.result, h.issued + w.issued, w.after)
  }

  /** GetSimilarUsersAsync: the repository's similar users, unchanged. */
  method GetSimilarUsers(repo: RecommendationRepository, uid: string, limit: Int32 := SimilarUserLimit)
    returns (r: Result<seq<string>, Failure>)
    requires repo.Valid()
    modifies repo`log
    ensures var run := SimilarUsersCall(old(repo.Snapshot()), repo.faults, old(|repo.log|), uid, limit);
      r == run.result && repo.log == old(repo.log) + run.issued && repo.Snapshot() == run.after
  {
    r := repo.GetSimilarUsers(uid, limit);
  }

  /** The `foreach` of step 5, which sets Confidence and Reason on each recommendation. */
  method AnnotateAll(recs: seq<RecommendedProduct>, count: nat) returns (out: seq<RecommendedProduct>)
    ensures out == Annotate(recs, count)
  {
    out := recs;
    var i := 0;
    while i < |out|
      invariant 0 <= i <= |out| == |recs|
      invariant out[..i] == Annotate(recs[..i], count)
      invariant out[i..] == recs[i..]
    {
      assert recs[..i + 1][..i] == recs[..i];
      assert out[i] == recs[i];
      out := out[i := out[i].(confidence := CalculateConfidence(count), reason := GenerateReason(count))];
      assert out[..i + 1] == out[..i] + [out[i]];
      i := i + 1;
    }
    assert recs[..|recs|] == recs;
  }

  method ColdStart(repo: RecommendationRepository, limit: Int32, now: Time)
    returns (r: Result<seq<RecommendedProduct>, Failure>)
    requires repo.Valid()
    modifies repo`log
    ensures var run := ColdStartCall(old(repo.Snapshot()), repo.faults, old(|repo.log|), limit, now);
      r == run.result && repo.log == old(repo.log) + run.issued && repo.Snapshot() == run.after
  {
    var trending := repo.GetTrendingProducts(ColdStartDays, limit, now);
    if trending.Err? {
      r := Err(trending.error);
    } else {
      r := Ok(ConvertTrendingToRecommended(trending.value));
    }
  }

  method Annotated(repo: RecommendationRepository, uid: string, limit: Int32, count: nat)
    returns (r: Result<seq<RecommendedProduct>, Failure>)
    requires repo.Valid()
    modifies repo
    ensures repo.Valid()
    ensures var run := AnnotatedCall(old(repo.Snapshot()), repo.faults, old(|repo.log|), uid, limit, count);
      r == run.result && repo.log == old(repo.log) + run.issued && repo.Snapshot() == run.after
  {
    var recommendations := repo.GetPersonalizedRecommendations(uid, limit);
    if recommendations.Err? {
      r := Err(recommendations.error);
    } else {
      var annotated := AnnotateAll(recommendations.value, count);
      r := Ok(annotated);
    }
  }

  method FromCandidates(repo: RecommendationRepository, uid: string, similar: seq<string>, limit: Int32)
    returns (r: Result<seq<RecommendedProduct>, Failure>)
    requires repo.Valid()
    modifies repo
    ensures repo.Valid()
    ensures var run := CandidatesCall(old(repo.Snapshot()), repo.faults, old(|repo.log|), uid, similar, limit);
      r == run.result && repo.log == old(repo.log) + run.issued && repo.Snapshot() == run.after
  {
    ghost var log0 := repo.log;
    var candidateProductIds := repo.GetRecommendedProductIds(uid, similar, CandidateLimit(limit));
    if candidateProductIds.Err? {
      r := Err(candidateProductIds.error);
      return;
    }
    ghost var log1 := repo.log;
    r := Annotated(repo, uid, limit, |similar|);
    ConcatAssoc(log0, log1[|log0|..], repo.log[|log1|..]);
  }

  method WarmStart(repo: RecommendationRepository, uid: string, limit: Int32)
    returns (r: Result<seq<RecommendedProduct>, Failure>)
    requires repo.Valid()
    modifies repo
    ensures repo.Valid()
    ensures var run := WarmStartCall(old(repo.Snapshot()), repo.faults, old(|repo.log|), uid, limit);
      r == run.result && repo.log == old(repo.log) + run.issued && repo.Snapshot() == run.after
  {
    ghost var log0 := repo.log;
    var similarUsers := GetSimilarUsers(repo, uid, SimilarUserLimit);
    if similarUsers.Err? {
      r := Err(similarUsers.error);
      return;
    }
    if similarUsers.value == [] {
      r := Ok([]);
      return;
    }
    ghost var log1 := repo.log;
    r := FromCandidates(repo, uid, similarUsers.value, limit);
    ConcatAssoc(log0, log1[|log0|..], repo.log[|log1|..]);
  }

  /** GetRecommendationsAsync. */
  method GetRecommendations(repo: RecommendationRepository, uid: string, now: Time, limit: Int32 := 10)
    returns (r: Result<seq<RecommendedProduct>, Failure>)
    requires repo.Valid()
    modifies repo
    ensures repo.Valid()
    ensures var run := RecommendationsCall(old(repo.Snapshot()), repo.faults, old(|repo.log|), uid, limit, now);
      r == run.result && repo.log == old(repo.log) + run.issued && repo.Snapshot() == run.after
  {
    ghost var log0 := repo.log;
    var history := repo.GetUserPurchaseHistory(uid);
    if history.Err? {
      r := Err(history.error);
      return;
    }
    ghost var log1 := repo.log;
    if history.value == map[] {
      r := ColdStart(repo, limit, now);
    } else {
      r := WarmStart(repo, uid, limit);
    }
    ConcatAssoc(log0, log1[|log0|..], repo.log[|log1|..]);
  }
}
