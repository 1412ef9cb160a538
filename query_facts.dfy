// What the ranked read queries return: which rows qualify (WHERE), their order
// (ORDER BY ... DESC), and that LIMIT keeps the best ones: at most `limit`
// rows, no qualifying row left out ranks above one kept, and every qualifying
// row is kept when fewer than `limit` are returned.

module QueryFacts {
  import opened Common
  import opened Ranking
  import opened Graph

  /**
   * Personalized candidates are products some other user bought and `uid` did
   * not, ranked by the number of distinct other buyers, then by purchaseCount.
   */
  lemma PersonalizedIdsFacts(n: Network, uid: string, limit: nat)
    ensures var r := PersonalizedIds(n, uid, limit);
      && (forall p :: p in r ==> p in n.productIds && PersonalCandidate(n, uid, p))
      && (Distinct(n.productIds) ==> Distinct(r))
      && (|r| < limit ==> forall p :: p in n.productIds && PersonalCandidate(n, uid, p) ==> p in r)
  {
    SelectFacts(n.productIds, IsPersonalCandidate(n, uid), PersonalKey(n, uid), limit);
  }

  /** The order of PersonalizedIds: best first, and nothing left out ranks above a row kept. */
  lemma PersonalizedIdsOrder(n: Network, uid: string, limit: nat)
    ensures var r := PersonalizedIds(n, uid, limit);
      && (forall i, j :: 0 <= i < j < |r| ==> AtLeast(PersonalRank(n, uid, r[i]), PersonalRank(n, uid, r[j])))
      && (forall p :: p in n.productIds && PersonalCandidate(n, uid, p) && p !in r ==>
            forall i :: 0 <= i < |r| ==> AtLeast(PersonalRank(n, uid, r[i]), PersonalRank(n, uid, p)))
  {
    SelectFacts(n.productIds, IsPersonalCandidate(n, uid), PersonalKey(n, uid), limit);
  }

  /**
   * Similar products share the queried product's (present) category, never
   * include the product itself, and come by purchaseCount descending; an unknown
   * product has none.
   */
  lemma SimilarProductIdsFacts(n: Network, pid: string, limit: nat)
    ensures var r := SimilarProductIds(n, pid, limit);
      && (pid !in n.products ==> r == [])
      && (forall s :: s in r ==> s in n.productIds && SameCategory(n, pid, s))
      && pid !in r
      && (Distinct(n.productIds) ==> Distinct(r))
      && (pid in n.products && |r| < limit ==> forall s :: s in n.productIds && SameCategory(n, pid, s) ==> s in r)
  {
    SelectFacts(n.productIds, IsSameCategory(n, pid), PurchaseCountKey(n), limit);
  }

  /** The order of SimilarProductIds: best first, and nothing left out ranks above a row kept. */
  lemma SimilarProductIdsOrder(n: Network, pid: string, limit: nat)
    ensures var r := SimilarProductIds(n, pid, limit);
      && (forall i, j :: 0 <= i < j < |r| ==> AtLeast(PurchaseCountRank(n, r[i]), PurchaseCountRank(n, r[j])))
      && (pid in n.products ==> forall s :: s in n.productIds && SameCategory(n, pid, s) && s !in r ==>
            forall i :: 0 <= i < |r| ==> AtLeast(PurchaseCountRank(n, r[i]), PurchaseCountRank(n, s)))
  {
    SelectFacts(n.productIds, IsSameCategory(n, pid), PurchaseCountKey(n), limit);
  }

  /** Trending products have a purchase in the window and come by that count descending. */
  lemma TrendingIdsFacts(n: Network, since: Time, limit: nat)
    ensures var r := TrendingIds(n, since, limit);
      && (forall p :: p in r ==> p in n.productIds && RecentCount(n, p, since) > 0)
      && (Distinct(n.productIds) ==> Distinct(r))
      && (|r| < limit ==> forall p :: p in n.productIds && RecentCount(n, p, since) > 0 ==> p in r)
  {
    SelectFacts(n.productIds, IsRecent(n, since), TrendKey(n, since), limit);
  }

  /** The order of TrendingIds: best first, and nothing left out ranks above a row kept. */
  lemma TrendingIdsOrder(n: Network, since: Time, limit: nat)
    ensures var r := TrendingIds(n, since, limit);
      && (forall i, j :: 0 <= i < j < |r| ==> RecentCount(n, r[i], since) >= RecentCount(n, r[j], since))
      && (forall p :: p in n.productIds && RecentCount(n, p, since) > 0 && p !in r ==>
            forall i :: 0 <= i < |r| ==> RecentCount(n, r[i], since) >= RecentCount(n, p, since))
  {
    SelectFacts(n.productIds, IsRecent(n, since), TrendKey(n, since), limit);
  }

  /** The history lists only the user's own purchases, latest first. */
  lemma HistoryIdsFacts(n: Network, uid: string, limit: nat)
    ensures var r := HistoryIds(n, uid, limit);
      && (forall p :: p in r ==> p in n.productIds && (uid, p) in n.purchased)
      && (Distinct(n.productIds) ==> Distinct(r))
      && (|r| < limit ==> forall p :: p in n.productIds && (uid, p) in n.purchased ==> p in r)
  {
    assert PurchasedIds(n, uid) == Filter(n.productIds, IsPurchasedBy(n, uid));
    SelectFacts(n.productIds, IsPurchasedBy(n, uid), HistoryKey(n, uid), limit);
  }

  /** The order of HistoryIds: best first, and nothing left out ranks above a row kept. */
  lemma HistoryIdsOrder(n: Network, uid: string, limit: nat)
    ensures var r := HistoryIds(n, uid, limit);
      && (forall i, j :: 0 <= i < j < |r| ==> PurchaseDateOf(n, uid, r[i]) >= PurchaseDateOf(n, uid, r[j]))
      && (forall p :: p in n.productIds && (uid, p) in n.purchased && p !in r ==>
            forall i :: 0 <= i < |r| ==> PurchaseDateOf(n, uid, r[i]) >= PurchaseDateOf(n, uid, p))
  {
    assert PurchasedIds(n, uid) == Filter(n.productIds, IsPurchasedBy(n, uid));
    SelectFacts(n.productIds, IsPurchasedBy(n, uid), HistoryKey(n, uid), limit);
  }

  /**
   * Similar users never include the querying user, share at least one purchased
   * product with them, and come by the number of common products descending.
   */
  lemma SimilarUserIdsFacts(n: Network, uid: string, limit: nat)
    ensures var r := SimilarUserIds(n, uid, limit);
      && uid !in r
      && (forall v :: v in r ==> v in n.users && SimilarUser(n, uid, v))
      && (Distinct(n.users) ==> Distinct(r))
      && (|r| < limit ==> forall v :: v in n.users && SimilarUser(n, uid, v) ==> v in r)
  {
    SelectFacts(n.users, IsSimilarUser(n, uid), SimilarUserKey(n, uid), limit);
  }

  /** With a positive limit, the list of similar users is empty exactly when nobody qualifies. */
  lemma SimilarUserIdsEmpty(n: Network, uid: string, limit: nat)
    requires limit > 0
    ensures SimilarUserIds(n, uid, limit) == [] <==> forall v :: v in n.users ==> !SimilarUser(n, uid, v)
  {
    FilterEmpty(n.users, IsSimilarUser(n, uid));
  }

  /** For a known user and a positive limit, there are no candidate ids exactly when no product qualifies. */
  lemma CandidateIdsEmpty(n: Network, uid: string, others: seq<string>, limit: nat)
    requires uid in n.users && limit > 0
    ensures CandidateIds(n, uid, others, limit) == [] <==> forall p :: p in n.productIds ==> !CandidateFor(n, uid, others, p)
  {
    FilterEmpty(n.productIds, IsCandidateFor(n, uid, others));
  }

  /** The order of SimilarUserIds: best first, and nothing left out ranks above a row kept. */
  lemma SimilarUserIdsOrder(n: Network, uid: string, limit: nat)
    ensures var r := SimilarUserIds(n, uid, limit);
      && (forall i, j :: 0 <= i < j < |r| ==> |CommonProducts(n, uid, r[i])| >= |CommonProducts(n, uid, r[j])|)
      && (forall v :: v in n.users && SimilarUser(n, uid, v) && v !in r ==>
            forall i :: 0 <= i < |r| ==> |CommonProducts(n, uid, r[i])| >= |CommonProducts(n, uid, v)|)
  {
    SelectFacts(n.users, IsSimilarUser(n, uid), SimilarUserKey(n, uid), limit);
  }

  /**
   * Candidate ids are products bought by one of `others` and not by `uid`, by
   * purchaseCount descending; an unknown user has none.
   */
  lemma CandidateIdsFacts(n: Network, uid: string, others: seq<string>, limit: nat)
    ensures var r := CandidateIds(n, uid, others, limit);
      && (uid !in n.users ==> r == [])
      && (forall p :: p in r ==> p in n.productIds && CandidateFor(n, uid, others, p))
      && (Distinct(n.productIds) ==> Distinct(r))
      && (uid in n.users && |r| < limit ==> forall p :: p in n.productIds && CandidateFor(n, uid, others, p) ==> p in r)
  {
    SelectFacts(n.productIds, IsCandidateFor(n, uid, others), PurchaseCountKey(n), limit);
  }

  /** The order of CandidateIds: best first, and nothing left out ranks above a row kept. */
  lemma CandidateIdsOrder(n: Network, uid: string, others: seq<string>, limit: nat)
    ensures var r := CandidateIds(n, uid, others, limit);
      && (forall i, j :: 0 <= i < j < |r| ==> AtLeast(PurchaseCountRank(n, r[i]), PurchaseCountRank(n, r[j])))
      && (uid in n.users ==> forall p :: p in n.productIds && CandidateFor(n, uid, others, p) && p !in r ==>
            forall i :: 0 <= i < |r| ==> AtLeast(PurchaseCountRank(n, r[i]), PurchaseCountRank(n, p)))
  {
    SelectFacts(n.productIds, IsCandidateFor(n, uid, others), PurchaseCountKey(n), limit);
  }
}
