// What GetRecommendationsAsync returns on each of its paths: the cold start,
// the user with no similar users, and the full collaborative path.

module CollaborativeFacts {
  import opened Common
  import opened RecommendationDtos
  import opened Graph
  import opened RepositorySpec
  import opened QueryFacts
  import opened RepositoryFacts
  import opened Collaborative

  /** Every product the user bought has a category, so the purchase-history dictionary can be filled. */
  predicate CategoriesKnown(n: Network, uid: string)
  {
    forall p :: p in PurchasedIds(n, uid) ==> ProductOf(n, p).category.Some?
  }

  /** A user with a purchase history whose categories are all known gets past step 1. */
  lemma HistoryStep(g: Graph, faults: set<nat>, n: nat, uid: string)
    requires n !in faults && PurchasedIds(g.net, uid) != [] && CategoriesKnown(g.net, uid)
    ensures var h := CategoryCountsCall(g, faults, n, uid);
      h.result.Ok? && h.result.value != map[] && h.issued == [CategoryCountsStmt(uid)] && h.after == g
  {
    CategoryCountsCallFacts(g, faults, n, uid);
    CategoryCountsContents(g, faults, n, uid);
  }

  /**
   * A user who bought nothing gets the trending products of the last 30 days,
   * each as a "Produit populaire" recommendation; no similarity query is sent.
   */
  lemma ColdStartPath(g: Graph, faults: set<nat>, n: nat, uid: string, limit: Int32, now: Time)
    requires n !in faults && PurchasedIds(g.net, uid) == []
    ensures var run := RecommendationsCall(g, faults, n, uid, limit, now);
      && run.issued == [CategoryCountsStmt(uid), TrendingStmt(ColdStartDays, limit)]
      && run.after == g
      && (run.result.Ok? <==> n + 1 !in faults && limit >= 0)
      && (run.result.Ok? ==>
            run.result.value == ConvertTrendingToRecommended(TrendingList(TrendingRows(g.net, now, ColdStartDays, limit as nat))))
  {
    CategoryCountsCallFacts(g, faults, n, uid);
    CategoryCountsContents(g, faults, n, uid);
  }

  /** Step 1 returns a non-empty dictionary, so the call goes on with the similar users. */
  predicate PastHistory(g: Graph, faults: set<nat>, n: nat, uid: string)
  {
    var h := CategoryCountsCall(g, faults, n, uid);
    h.result.Ok? && h.result.value != map[]
  }

  /** Step 2 is accepted and finds someone, so the call goes on with the candidate ids. */
  predicate PastSimilarUsers(g: Graph, faults: set<nat>, n: nat, uid: string)
  {
    n !in faults && SimilarUserIds(g.net, uid, SimilarUserLimit as nat) != []
  }

  /** Past step 1 with a non-empty dictionary, the rest is step 2 on. */
  lemma WarmStartAfterHistory(g: Graph, faults: set<nat>, n: nat, uid: string, limit: Int32, now: Time)
    requires PastHistory(g, faults, n, uid)
    ensures var w := WarmStartCall(g, faults, n + 1, uid, limit);
      RecommendationsCall(g, faults, n, uid, limit, now) == Run(w.result, [CategoryCountsStmt(uid)] + w.issued, w.after)
  {
  }

  /** Step 2 finding nobody: an empty list and no further statement. */
  lemma NoSimilarUsersStep(g: Graph, faults: set<nat>, n: nat, uid: string, limit: Int32)
    requires n !in faults
    requires forall v :: v in g.net.users ==> !SimilarUser(g.net, uid, v)
    ensures WarmStartCall(g, faults, n, uid, limit) == Run(Ok([]), [SimilarUsersStmt(uid, SimilarUserLimit)], g)
  {
    SimilarUserIdsEmpty(g.net, uid, SimilarUserLimit as nat);
  }

  /** A user with purchases but no other user sharing one of them gets an empty list after two statements. */
  lemma NoSimilarUsersPath(g: Graph, faults: set<nat>, n: nat, uid: string, limit: Int32, now: Time)
    requires n !in faults && n + 1 !in faults
    requires PurchasedIds(g.net, uid) != [] && CategoriesKnown(g.net, uid)
    requires forall v :: v in g.net.users ==> !SimilarUser(g.net, uid, v)
    ensures var run := RecommendationsCall(g, faults, n, uid, limit, now);
      && run.result == Ok([])
      && run.issued == [CategoryCountsStmt(uid), SimilarUsersStmt(uid, SimilarUserLimit)]
      && run.after == g
  {
    HistoryStep(g, faults, n, uid);
    WarmStartAfterHistory(g, faults, n, uid, limit, now);
    NoSimilarUsersStep(g, faults, n + 1, uid, limit);
  }

  /** Steps 4 and 5 on their own: the personalized list, annotated. */
  lemma AnnotatedStep(g: Graph, faults: set<nat>, n: nat, uid: string, limit: Int32, count: nat)
    requires n !in faults && limit >= 0
    ensures var a := AnnotatedCall(g, faults, n, uid, limit, count);
      var net := MergeUser(g.net, uid);
      var ids := PersonalizedIds(net, uid, limit as nat);
      && a.issued == [PersonalizedStmt(uid, limit)]
      && a.after == g.(net := net)
      && a.result.Ok? && |a.result.value| == |ids|
      && forall i :: 0 <= i < |ids| ==>
           a.result.value[i] == Recommended(PersonalRowOf(net, uid, ids[i])).(
             confidence := CalculateConfidence(count), reason := GenerateReason(count))
  {
    PersonalizedCallFacts(g, faults, n, uid, limit);
  }

  /** Steps 4 and 5 accepted: one statement, and the user merged into the graph. */
  lemma AnnotatedEffects(g: Graph, faults: set<nat>, n: nat, uid: string, limit: Int32, count: nat)
    requires n !in faults && limit >= 0
    ensures var a := AnnotatedCall(g, faults, n, uid, limit, count);
      && a.issued == [PersonalizedStmt(uid, limit)]
      && a.after == g.(net := MergeUser(g.net, uid))
  {
    AnnotatedStep(g, faults, n, uid, limit, count);
  }

  /** Step 3 accepted: its statement goes out and the rest is steps 4 and 5. */
  lemma CandidatesStep(g: Graph, faults: set<nat>, n: nat, uid: string, similar: seq<string>, limit: Int32)
    requires n !in faults && CandidateLimit(limit) >= 0
    ensures var c := CandidatesCall(g, faults, n, uid, similar, limit);
      var a := AnnotatedCall(g, faults, n + 1, uid, limit, |similar|);
      c == Run(a.result, [CandidateIdsStmt(uid, similar, CandidateLimit(limit))] + a.issued, a.after)
  {
  }

  /** Step 2 with similar users: its statement goes out and the rest is step 3 on. */
  lemma WarmStartStep(g: Graph, faults: set<nat>, n: nat, uid: string, limit: Int32)
    requires PastSimilarUsers(g, faults, n, uid)
    ensures var c := CandidatesCall(g, faults, n + 1, uid, SimilarUserIds(g.net, uid, SimilarUserLimit as nat), limit);
      WarmStartCall(g, faults, n, uid, limit) == Run(c.result, [SimilarUsersStmt(uid, SimilarUserLimit)] + c.issued, c.after)
  {
  }

  /** With similar users and the first two statements accepted, the call goes on with step 3. */
  lemma ReachesCandidates(g: Graph, faults: set<nat>, n: nat, uid: string, limit: Int32, now: Time)
    requires PastHistory(g, faults, n, uid) && PastSimilarUsers(g, faults, n + 1, uid)
    ensures var c := CandidatesCall(g, faults, n + 2, uid, SimilarUserIds(g.net, uid, SimilarUserLimit as nat), limit);
      RecommendationsCall(g, faults, n, uid, limit, now)
      == Run(c.result, [CategoryCountsStmt(uid), SimilarUsersStmt(uid, SimilarUserLimit)] + c.issued, c.after)
  {
    WarmStartAfterHistory(g, faults, n, uid, limit, now);
    WarmStartStep(g, faults, n + 1, uid, limit);
    var c := CandidatesCall(g, faults, n + 2, uid, SimilarUserIds(g.net, uid, SimilarUserLimit as nat), limit);
    var w := WarmStartCall(g, faults, n + 1, uid, limit);
    assert w.issued == [SimilarUsersStmt(uid, SimilarUserLimit)] + c.issued;
    ConcatAssoc([CategoryCountsStmt(uid)], [SimilarUsersStmt(uid, SimilarUserLimit)], c.issued);
    assert [CategoryCountsStmt(uid)] + [SimilarUsersStmt(uid, SimilarUserLimit)] == [CategoryCountsStmt(uid), SimilarUsersStmt(uid, SimilarUserLimit)];
  }

  /** With similar users and the first three statements accepted, the call ends with steps 4 and 5. */
  lemma CollaborativeRun(g: Graph, faults: set<nat>, n: nat, uid: string, limit: Int32, now: Time)
    requires PastHistory(g, faults, n, uid) && PastSimilarUsers(g, faults, n + 1, uid)
    requires n + 2 !in faults && CandidateLimit(limit) >= 0
    ensures var similar := SimilarUserIds(g.net, uid, SimilarUserLimit as nat);
      var a := AnnotatedCall(g, faults, n + 3, uid, limit, |similar|);
      RecommendationsCall(g, faults, n, uid, limit, now)
      == Run(a.result, [CategoryCountsStmt(uid), SimilarUsersStmt(uid, SimilarUserLimit),
                        CandidateIdsStmt(uid, similar, CandidateLimit(limit))] + a.issued, a.after)
  {
    ReachesCandidates(g, faults, n, uid, limit, now);
    var similar := SimilarUserIds(g.net, uid, SimilarUserLimit as nat);
    CandidatesStep(g, faults, n + 2, uid, similar, limit);
    var a := AnnotatedCall(g, faults, n + 3, uid, limit, |similar|);
    ConcatAssoc([CategoryCountsStmt(uid), SimilarUsersStmt(uid, SimilarUserLimit)],
                [CandidateIdsStmt(uid, similar, CandidateLimit(limit))], a.issued);
  }

  /** The user-level conditions of the collaborative path bring the call past steps 1 and 2. */
  lemma ReachesCollaborative(g: Graph, faults: set<nat>, n: nat, uid: string)
    requires n !in faults && n + 1 !in faults
    requires PurchasedIds(g.net, uid) != [] && CategoriesKnown(g.net, uid)
    requires exists v :: v in g.net.users && SimilarUser(g.net, uid, v)
    ensures PastHistory(g, faults, n, uid) && PastSimilarUsers(g, faults, n + 1, uid)
  {
    HistoryStep(g, faults, n, uid);
    SimilarUserIdsEmpty(g.net, uid, SimilarUserLimit as nat);
  }

  /** Past steps 1 and 2, with steps 3 and 4 accepted: the four statements and the merged user. */
  lemma CollaborativeRunStatements(g: Graph, faults: set<nat>, n: nat, uid: string, limit: Int32, now: Time)
    requires PastHistory(g, faults, n, uid) && PastSimilarUsers(g, faults, n + 1, uid)
    requires n + 2 !in faults && n + 3 !in faults && limit >= 0 && CandidateLimit(limit) >= 0
    ensures var run := RecommendationsCall(g, faults, n, uid, limit, now);
      var similar := SimilarUserIds(g.net, uid, SimilarUserLimit as nat);
      && run.issued == [CategoryCountsStmt(uid), SimilarUsersStmt(uid, SimilarUserLimit),
                        CandidateIdsStmt(uid, similar, CandidateLimit(limit)), PersonalizedStmt(uid, limit)]
      && run.after == g.(net := MergeUser(g.net, uid))
  {
    CollaborativeRun(g, faults, n, uid, limit, now);
    var similar := SimilarUserIds(g.net, uid, SimilarUserLimit as nat);
    AnnotatedEffects(g, faults, n + 3, uid, limit, |similar|);
    AppendFourth(CategoryCountsStmt(uid), SimilarUsersStmt(uid, SimilarUserLimit),
                 CandidateIdsStmt(uid, similar, CandidateLimit(limit)), PersonalizedStmt(uid, limit));
  }

  /** Past steps 1 and 2, with steps 3 and 4 accepted: the annotated personalized list. */
  lemma CollaborativeRunResult(g: Graph, faults: set<nat>, n: nat, uid: string, limit: Int32, now: Time)
    requires PastHistory(g, faults, n, uid) && PastSimilarUsers(g, faults, n + 1, uid)
    requires n + 2 !in faults && n + 3 !in faults && limit >= 0 && CandidateLimit(limit) >= 0
    ensures var r := RecommendationsCall(g, faults, n, uid, limit, now).result;
      var count := |SimilarUserIds(g.net, uid, SimilarUserLimit as nat)|;
      var net := MergeUser(g.net, uid);
      var ids := PersonalizedIds(net, uid, limit as nat);
      && r.Ok? && |r.value| == |ids|
      && forall i :: 0 <= i < |ids| ==>
           r.value[i] == Recommended(PersonalRowOf(net, uid, ids[i])).(
             confidence := CalculateConfidence(count), reason := GenerateReason(count))
  {
    CollaborativeRun(g, faults, n, uid, limit, now);
    AnnotatedStep(g, faults, n + 3, uid, limit, |SimilarUserIds(g.net, uid, SimilarUserLimit as nat)|);
  }

  /**
   * With similar users and every statement accepted, four statements go out
   * and the only change to the graph is the MERGE of the user.
   */
  lemma CollaborativeStatements(g: Graph, faults: set<nat>, n: nat, uid: string, limit: Int32, now: Time)
    requires n !in faults && n + 1 !in faults && n + 2 !in faults && n + 3 !in faults
    requires PurchasedIds(g.net, uid) != [] && CategoriesKnown(g.net, uid)
    requires exists v :: v in g.net.users && SimilarUser(g.net, uid, v)
    requires limit >= 0 && CandidateLimit(limit) >= 0
    ensures var run := RecommendationsCall(g, faults, n, uid, limit, now);
      var similar := SimilarUserIds(g.net, uid, SimilarUserLimit as nat);
      && similar != []
      && run.issued == [CategoryCountsStmt(uid), SimilarUsersStmt(uid, SimilarUserLimit),
                        CandidateIdsStmt(uid, similar, CandidateLimit(limit)), PersonalizedStmt(uid, limit)]
      && run.after == g.(net := MergeUser(g.net, uid))
  {
    ReachesCollaborative(g, faults, n, uid);
    CollaborativeRunStatements(g, faults, n, uid, limit, now);
  }

  /**
   * With similar users and every statement accepted, the result is the
   * personalized list of the user (merged into the graph), each entry carrying
   * the confidence and reason of the similar-user count; the candidate ids are
   * fetched and then not used.
   */
  lemma CollaborativeResult(g: Graph, faults: set<nat>, n: nat, uid: string, limit: Int32, now: Time)
    requires n !in faults && n + 1 !in faults && n + 2 !in faults && n + 3 !in faults
    requires PurchasedIds(g.net, uid) != [] && CategoriesKnown(g.net, uid)
    requires exists v :: v in g.net.users && SimilarUser(g.net, uid, v)
    requires limit >= 0 && CandidateLimit(limit) >= 0
    ensures var r := RecommendationsCall(g, faults, n, uid, limit, now).result;
      var count := |SimilarUserIds(g.net, uid, SimilarUserLimit as nat)|;
      var net := MergeUser(g.net, uid);
      var ids := PersonalizedIds(net, uid, limit as nat);
      && r.Ok? && |r.value| == |ids|
      && forall i :: 0 <= i < |ids| ==>
           r.value[i] == Recommended(PersonalRowOf(net, uid, ids[i])).(
             confidence := CalculateConfidence(count), reason := GenerateReason(count))
  {
    ReachesCollaborative(g, faults, n, uid);
    CollaborativeRunResult(g, faults, n, uid, limit, now);
  }

  /** Steps 3 to 5 change the graph only by merging the user, with two statements at most. */
  lemma CandidatesOnlyMergeUser(g: Graph, faults: set<nat>, n: nat, uid: string, similar: seq<string>, limit: Int32)
    ensures var c := CandidatesCall(g, faults, n, uid, similar, limit);
      && (c.after == g || c.after == g.(net := MergeUser(g.net, uid)))
      && 1 <= |c.issued| <= 2
  {
  }

  /** Whatever happens, the only change to the graph is the MERGE of the user by the personalized query. */
  lemma RecommendationsOnlyMergeUser(g: Graph, faults: set<nat>, n: nat, uid: string, limit: Int32, now: Time)
    ensures var run := RecommendationsCall(g, faults, n, uid, limit, now);
      && (run.after == g || run.after == g.(net := MergeUser(g.net, uid)))
      && 1 <= |run.issued| <= 4 && run.issued[0] == CategoryCountsStmt(uid)
  {
    var h := CategoryCountsCall(g, faults, n, uid);
    assert h.after == g && h.issued == [CategoryCountsStmt(uid)];
    if h.result.Ok? && h.result.value != map[] {
      var s := SimilarUsersCall(g, faults, n + 1, uid, SimilarUserLimit);
      if s.result.Ok? && s.result.value != [] {
        CandidatesOnlyMergeUser(g, faults, n + 2, uid, s.result.value, limit);
      }
    }
  }

  /** `limit * 3` in unchecked `int` arithmetic: 0x3000_0000 * 3 is past the largest `int` and wraps to a negative number. */
  lemma CandidateLimitWraps()
    ensures CandidateLimit(0x3000_0000) == -0x7000_0000
  {
    assert (0x3000_0000 * 3) % TwoTo32 == 0x9000_0000;
  }

  /** Step 3 with a negative LIMIT is refused, whatever the similar users are. */
  lemma CandidatesRefused(g: Graph, faults: set<nat>, n: nat, uid: string, similar: seq<string>, limit: Int32)
    requires n !in faults && CandidateLimit(limit) < 0
    ensures CandidatesCall(g, faults, n, uid, similar, limit).result == Err(NegativeLimit)
  {
  }

  /**
   * A user with similar users who asks for 0x3000_0000 recommendations gets a
   * refusal instead: the candidate query carries a negative LIMIT.
   */
  lemma LargeLimitRefused(g: Graph, faults: set<nat>, n: nat, uid: string, now: Time)
    requires n !in faults && n + 1 !in faults && n + 2 !in faults
    requires PurchasedIds(g.net, uid) != [] && CategoriesKnown(g.net, uid)
    requires exists v :: v in g.net.users && SimilarUser(g.net, uid, v)
    ensures RecommendationsCall(g, faults, n, uid, 0x3000_0000, now).result == Err(NegativeLimit)
  {
    ReachesCollaborative(g, faults, n, uid);
    ReachesCandidates(g, faults, n, uid, 0x3000_0000, now);
    CandidateLimitWraps();
    CandidatesRefused(g, faults, n + 2, uid, SimilarUserIds(g.net, uid, SimilarUserLimit as nat), 0x3000_0000);
  }

  // ------------------------------------------------------------ user properties play no part

  /** Two graphs with the same network: the same answer and statements, and networks that stay equal. */
  predicate SameOutcome<T(==)>(r1: Run<T>, r2: Run<T>)
  {
    r1.result == r2.result && r1.issued == r2.issued && r1.after.net == r2.after.net
  }

  lemma HistoryNetOnly(g1: Graph, g2: Graph, faults: set<nat>, n: nat, uid: string)
    requires g1.net == g2.net
    ensures SameOutcome(CategoryCountsCall(g1, faults, n, uid), CategoryCountsCall(g2, faults, n, uid))
    ensures CategoryCountsCall(g1, faults, n, uid).after == g1 && CategoryCountsCall(g2, faults, n, uid).after == g2
  {
  }

  lemma ColdStartNetOnly(g1: Graph, g2: Graph, faults: set<nat>, n: nat, limit: Int32, now: Time)
    requires g1.net == g2.net
    ensures SameOutcome(ColdStartCall(g1, faults, n, limit, now), ColdStartCall(g2, faults, n, limit, now))
  {
  }

  lemma AnnotatedNetOnly(g1: Graph, g2: Graph, faults: set<nat>, n: nat, uid: string, limit: Int32, count: nat)
    requires g1.net == g2.net
    ensures SameOutcome(AnnotatedCall(g1, faults, n, uid, limit, count), AnnotatedCall(g2, faults, n, uid, limit, count))
  {
  }

  lemma CandidatesNetOnly(g1: Graph, g2: Graph, faults: set<nat>, n: nat, uid: string, similar: seq<string>, limit: Int32)
    requires g1.net == g2.net
    ensures SameOutcome(CandidatesCall(g1, faults, n, uid, similar, limit), CandidatesCall(g2, faults, n, uid, similar, limit))
  {
    AnnotatedNetOnly(g1, g2, faults, n + 1, uid, limit, |similar|);
  }

  lemma WarmStartNetOnly(g1: Graph, g2: Graph, faults: set<nat>, n: nat, uid: string, limit: Int32)
    requires g1.net == g2.net
    ensures SameOutcome(WarmStartCall(g1, faults, n, uid, limit), WarmStartCall(g2, faults, n, uid, limit))
  {
    var similar := SimilarUserIds(g1.net, uid, SimilarUserLimit as nat);
    CandidatesNetOnly(g1, g2, faults, n + 1, uid, similar, limit);
  }

  /**
   * GetRecommendationsAsync reads only the network: graphs that differ in
   * user properties alone get the same answer from the same statements.
   */
  lemma RecommendationsNetOnly(g1: Graph, g2: Graph, faults: set<nat>, n: nat, uid: string, limit: Int32, now: Time)
    requires g1.net == g2.net
    ensures SameOutcome(RecommendationsCall(g1, faults, n, uid, limit, now), RecommendationsCall(g2, faults, n, uid, limit, now))
  {
    HistoryNetOnly(g1, g2, faults, n, uid);
    var h := CategoryCountsCall(g1, faults, n, uid);
    if h.result.Ok? {
      if h.result.value == map[] {
        ColdStartNetOnly(g1, g2, faults, n + 1, limit, now);
      } else {
        WarmStartNetOnly(g1, g2, faults, n + 1, uid, limit);
      }
    }
  }
}
