// RecommendationService: six operations over the repository and the two
// algorithms. Reads and purchases pass errors on; views never raise.

module Service {
  import opened Common
  import opened RecommendationDtos
  import opened Graph
  import opened GraphFacts
  import opened RepositorySpec
  import opened RepositoryFacts
  import opened Repository
  import opened Collaborative
  import opened CollaborativeFacts
  import opened ContentBased

  const PersonalizedLimit: Int32 := 10
  const TrendingDays: Int32 := 7
  const TrendingLimit: Int32 := 10
  const HistoryLimit: Int32 := 20
  const DefaultDuration: Int32 := 0

  /** GetPersonalizedRecommendationsAsync: the last-active stamp, then collaborative filtering. */
  function PersonalizedServiceCall(g: Graph, faults: set<nat>, n: nat, uid: string, limit: Int32, now: Time): Run<seq<RecommendedProduct>>
  {
    var t := TouchCall(g, faults, n, uid, now);
    var rec := RecommendationsCall(t.after, faults, n + 1, uid, limit, now);
    Run(rec.result, t.issued + rec.issued, rec.after)
  }

  /**
   * The last-active stamp goes out first and exactly once, and cannot change
   * the answer: whether the store accepts it or not, the caller gets what
   * collaborative filtering gives on the graph as it was.
   */
  lemma TouchCannotAbort(g: Graph, faults: set<nat>, n: nat, uid: string, limit: Int32, now: Time)
    ensures var run := PersonalizedServiceCall(g, faults, n, uid, limit, now);
      var rec := RecommendationsCall(g, faults, n + 1, uid, limit, now);
      && run.result == rec.result
      && run.issued == [TouchStmt(uid)] + rec.issued
      && run.after.net == rec.after.net
  {
    TouchCallFacts(g, faults, n, uid, now);
    RecommendationsNetOnly(TouchCall(g, faults, n, uid, now).after, g, faults, n + 1, uid, limit, now);
  }

  method GetPersonalizedRecommendations(repo: RecommendationRepository, uid: string, now: Time, limit: Int32 := PersonalizedLimit)
    returns (r: Result<seq<RecommendedProduct>, Failure>)
    requires repo.Valid()
    modifies repo
    ensures repo.Valid()
    ensures var run := PersonalizedServiceCall(old(repo.Snapshot()), repo.faults, old(|repo.log|), uid, limit, now);
      r == run.result && repo.log == old(repo.log) + run.issued && repo.Snapshot() == run.after
  {
    ghost var log0 := repo.log;
    ghost var t := TouchCall(repo.Snapshot(), repo.faults, |log0|, uid, now);
    repo.UpdateUserLastActive(uid, now);
    assert |t.issued| == 1;
    ghost var rec := RecommendationsCall(t.after, repo.faults, |log0| + 1, uid, limit, now);
    r := GetRecommendations(repo, uid, now, limit);
    ConcatAssoc(log0, t.issued, rec.issued);
  }

  /** GetSimilarProductsAsync: the content-based lookup, unchanged. */
  method GetSimilarProducts(repo: RecommendationRepository, pid: string, limit: Int32 := SimilarProductLimit)
    returns (r: Result<seq<SimilarProduct>, Failure>)
    requires repo.Valid()
    modifies repo`log
    ensures var run := SimilarProductsCall(old(repo.Snapshot()), repo.faults, old(|repo.log|), pid, limit);
      r == run.result && repo.log == old(repo.log) + run.issued && repo.Snapshot() == run.after
  {
    r := FindSimilarByCategory(repo, pid, limit);
  }

  /** GetTrendingProductsAsync: the repository's trending list, unchanged. */
  method GetTrendingProducts(repo: RecommendationRepository, now: Time, days: Int32 := TrendingDays, limit: Int32 := TrendingLimit)
    returns (r: Result<seq<TrendingProduct>, Failure>)
    requires repo.Valid()
    modifies repo`log
    ensures var run := TrendingCall(old(repo.Snapshot()), repo.faults, old(|repo.log|), now, days, limit);
      r == run.result && repo.log == old(repo.log) + run.issued && repo.Snapshot() == run.after
  {
    r := repo.GetTrendingProducts(days, limit, now);
  }

  /** RecordPurchaseAsync: one repository call with the same arguments; its failure is the caller's. */
  method RecordPurchase(repo: RecommendationRepository, uid: string, orderId: string, items: seq<PurchaseItem>, now: Time)
    returns (r: Result<(), Failure>)
    requires repo.Valid()
    modifies repo
    ensures repo.Valid()
    ensures var run := PurchaseCall(old(repo.Snapshot()), repo.faults, old(|repo.log|), uid, orderId, items, now);
      r == run.result && repo.log == old(repo.log) + run.issued && repo.Snapshot() == run.after
  {
    r := repo.RecordPurchase(uid, orderId, items, now);
  }

  /**
   * RecordViewAsync: one repository call with the same arguments. The
   * repository already swallows store errors, so nothing reaches the caller.
   */
  method RecordView(repo: RecommendationRepository, uid: string, pid: string, now: Time,
                    duration: Int32 := DefaultDuration, source: Option<string> := Some(DefaultSource))
    requires repo.Valid()
    modifies repo
    ensures repo.Valid()
    ensures var run := ViewCall(old(repo.Snapshot()), repo.faults, old(|repo.log|), uid, pid, duration, source, now);
      repo.log == old(repo.log) + run.issued && repo.Snapshot() == run.after
  {
    repo.RecordView(uid, pid, duration, source, now);
  }

  /** GetUserHistoryAsync: the repository's history, unchanged. */
  method GetUserHistory(repo: RecommendationRepository, uid: string, now: Time, limit: Int32 := HistoryLimit)
    returns (r: Result<seq<HistoryEntry>, Failure>)
    requires repo.Valid()
    modifies repo
    ensures repo.Valid()
    ensures var run := HistoryCall(old(repo.Snapshot()), repo.faults, old(|repo.log|), uid, limit, now);
      r == run.result && repo.log == old(repo.log) + run.issued && repo.Snapshot() == run.after
  {
    r := repo.GetUserHistory(uid, limit, now);
  }
}
