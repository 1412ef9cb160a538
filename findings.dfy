// Two read queries of the repository return a column under one name and read
// it back under another. The Neo4j driver raises on a record read by a key the
// query does not return, so as written both calls fail as soon as they have a
// row. The candidate query has a second defect: it sorts on a variable its
// DISTINCT projection has dropped, which Cypher rejects before running it. The
// rest of the model uses the intended calls of RepositorySpec.
//
// GetRecommendationsAsync calls GetSimilarUsersAsync second, so as written
// collaborative filtering never recommends anything. Its first step,
// GetUserPurchaseHistoryAsync, already raises on the null dictionary key
// whenever a purchased product has no category, and only
// CreateProductIfNotExistsAsync, which no service calls, sets one: the
// purchase statement MERGEs products bare. A user whose purchases all have a
// category gets MissingColumn once someone shares a purchase with them and an
// empty list otherwise. Only the cold-start trending list is ever non-empty.

module ColumnFindings {
  import opened Common
  import opened Graph
  import opened RepositorySpec
  import opened Ranking
  import opened QueryFacts
  import opened RecommendationDtos
  import opened Collaborative
  import RepositoryFacts

  /**
   * GetSimilarUsersAsync as written: the query returns `similar.userId` and
   * the loop reads `record["userId"]`, which raises on the first row.
   */
  function SimilarUsersCallAsWritten(g: Graph, faults: set<nat>, n: nat, uid: string, limit: Int32): (run: Run<seq<string>>)
    ensures run.issued == [SimilarUsersStmt(uid, limit)] && run.after == g
  {
    var s := SimilarUsersStmt(uid, limit);
    if Refused(faults, n, s) then Refuse(g, faults, n, s)
    else if SimilarUserIds(g.net, uid, limit as nat) == [] then Run(Ok([]), [s], g)
    else Run(Err(MissingColumn), [s], g)
  }

  /**
   * GetRecommendedProductIdsAsync as written. After `RETURN DISTINCT
   * rec.productId` only the projected column is in scope, so `ORDER BY
   * rec.purchaseCount` fails Cypher's semantic check: the store rejects the
   * statement, whatever the graph holds, unless it has already failed.
   */
  function CandidateIdsCallAsWritten(g: Graph, faults: set<nat>, n: nat, uid: string, others: seq<string>, limit: Int32): (run: Run<seq<string>>)
    ensures run.issued == [CandidateIdsStmt(uid, others, limit)] && run.after == g
  {
    var s := CandidateIdsStmt(uid, others, limit);
    if n in faults then Refuse(g, faults, n, s)
    else Run(Err(RejectedStatement), [s], g)
  }

  /**
   * The same call with only its ORDER BY repaired: the query returns
   * `rec.productId` and the loop reads `record["productId"]`, which raises on
   * the first row.
   */
  function CandidateIdsCallOrderRepaired(g: Graph, faults: set<nat>, n: nat, uid: string, others: seq<string>, limit: Int32): (run: Run<seq<string>>)
    ensures run.issued == [CandidateIdsStmt(uid, others, limit)] && run.after == g
  {
    var s := CandidateIdsStmt(uid, others, limit);
    if Refused(faults, n, s) then Refuse(g, faults, n, s)
    else if CandidateIds(g.net, uid, others, limit as nat) == [] then Run(Ok([]), [s], g)
    else Run(Err(MissingColumn), [s], g)
  }

  /**
   * As written, an accepted similar-users query raises exactly when some
   * other user shares a purchase with `uid`, and otherwise returns nothing:
   * it never returns a similar user.
   */
  lemma SimilarUsersAsWrittenNeverAnswers(g: Graph, faults: set<nat>, n: nat, uid: string, limit: Int32)
    requires n !in faults && limit > 0
    ensures var r := SimilarUsersCallAsWritten(g, faults, n, uid, limit).result;
      && (r == Err(MissingColumn) <==> exists v :: v in g.net.users && SimilarUser(g.net, uid, v))
      && (r.Ok? ==> r.value == [])
  {
    SimilarUserIdsEmpty(g.net, uid, limit as nat);
  }

  /**
   * As written, the candidate query never answers, for any graph, user or
   * limit: the store fails or rejects the statement. The intended call
   * answers whenever the store runs it with a non-negative limit.
   */
  lemma CandidateIdsAsWrittenNeverAnswers(g: Graph, faults: set<nat>, n: nat, uid: string, others: seq<string>, limit: Int32)
    ensures var r := CandidateIdsCallAsWritten(g, faults, n, uid, others, limit).result;
      && r.Err?
      && (n !in faults ==> r == Err(RejectedStatement))
      && (n !in faults && limit >= 0 ==> CandidateIdsCall(g, faults, n, uid, others, limit).result.Ok?)
  {
  }

  /**
   * With its ORDER BY repaired, an accepted candidate query for a known user
   * still raises exactly when there is a candidate, and otherwise returns
   * nothing.
   */
  lemma CandidateIdsOrderRepairedNeverAnswers(g: Graph, faults: set<nat>, n: nat, uid: string, others: seq<string>, limit: Int32)
    requires n !in faults && limit > 0 && uid in g.net.users
    ensures var r := CandidateIdsCallOrderRepaired(g, faults, n, uid, others, limit).result;
      && (r == Err(MissingColumn) <==> exists p :: p in g.net.productIds && CandidateFor(g.net, uid, others, p))
      && (r.Ok? ==> r.value == [])
  {
    CandidateIdsEmpty(g.net, uid, others, limit as nat);
  }

  /** Users a and b both bought p; b also bought q. */
  const SharedPurchase: Graph := Graph(map[], Network(
    ["a", "b"], ["p", "q"],
    map["p" := BareProduct, "q" := BareProduct],
    map[("a", "p") := Purchase("o1", 0, 1, 1.0), ("b", "p") := Purchase("o2", 0, 1, 1.0), ("b", "q") := Purchase("o2", 0, 1, 1.0)],
    map[]))

  /** The facts about SharedPurchase the two counterexamples rest on. */
  lemma SharedPurchaseFacts()
    ensures var net := SharedPurchase.net;
      && "a" in net.users && "b" in net.users && |net.users| == 2 && |net.productIds| == 2
      && SimilarUser(net, "a", "b")
      && "q" in net.productIds && CandidateFor(net, "a", ["b"], "q")
  {
    var net := SharedPurchase.net;
    assert "p" in CommonProducts(net, "a", "b");
    assert "b" in ["b"] && ("b", "q") in net.purchased;
  }

  /**
   * Whenever `uid` has a similar user and the limit exceeds the number of
   * users, the call as written raises where the intended call lists that user.
   */
  lemma SimilarUsersRaise(g: Graph, uid: string, v: string, limit: Int32)
    requires v in g.net.users && SimilarUser(g.net, uid, v) && limit as int > |g.net.users|
    ensures SimilarUsersCallAsWritten(g, {}, 0, uid, limit).result == Err(MissingColumn)
    ensures var r := SimilarUsersCall(g, {}, 0, uid, limit).result;
      r.Ok? && v in r.value
  {
    SimilarUsersAsWrittenNeverAnswers(g, {}, 0, uid, limit);
    RepositoryFacts.SimilarUsersCallFacts(g, {}, 0, uid, limit);
    SimilarUserIdsFacts(g.net, uid, limit as nat);
  }

  /**
   * Whenever a known `uid` has a candidate and the limit exceeds the number
   * of products, the call as written is rejected, the call with only its
   * ORDER BY repaired raises on the column, and the intended call lists it.
   */
  lemma CandidateIdsRaise(g: Graph, uid: string, others: seq<string>, p: string, limit: Int32)
    requires uid in g.net.users && p in g.net.productIds && CandidateFor(g.net, uid, others, p)
    requires limit as int > |g.net.productIds|
    ensures CandidateIdsCallAsWritten(g, {}, 0, uid, others, limit).result == Err(RejectedStatement)
    ensures CandidateIdsCallOrderRepaired(g, {}, 0, uid, others, limit).result == Err(MissingColumn)
    ensures var r := CandidateIdsCall(g, {}, 0, uid, others, limit).result;
      r.Ok? && p in r.value
  {
    CandidateIdsOrderRepairedNeverAnswers(g, {}, 0, uid, others, limit);
    RepositoryFacts.CandidateIdsCallFacts(g, {}, 0, uid, others, limit);
    CandidateIdsFacts(g.net, uid, others, limit as nat);
  }

  /** User a, who shares p with b: as written the call raises; the intended call answers with b. */
  lemma SimilarUsersCounterexample()
    ensures SimilarUsersCallAsWritten(SharedPurchase, {}, 0, "a", 20).result == Err(MissingColumn)
    ensures var r := SimilarUsersCall(SharedPurchase, {}, 0, "a", 20).result;
      r.Ok? && "b" in r.value
  {
    SharedPurchaseFacts();
    SimilarUsersRaise(SharedPurchase, "a", "b", 20);
  }

  /**
   * User a with similar user b: as written the statement is rejected, with
   * only the ORDER BY repaired the call raises on the column, and the
   * intended call answers with q.
   */
  lemma CandidateIdsCounterexample()
    ensures CandidateIdsCallAsWritten(SharedPurchase, {}, 0, "a", ["b"], 20).result == Err(RejectedStatement)
    ensures CandidateIdsCallOrderRepaired(SharedPurchase, {}, 0, "a", ["b"], 20).result == Err(MissingColumn)
    ensures var r := CandidateIdsCall(SharedPurchase, {}, 0, "a", ["b"], 20).result;
      r.Ok? && "q" in r.value
  {
    SharedPurchaseFacts();
    CandidateIdsRaise(SharedPurchase, "a", ["b"], "q", 20);
  }

  /** Step 2 and on of GetRecommendationsAsync, with the similar-users call as written. */
  function WarmStartCallAsWritten(g: Graph, faults: set<nat>, n: nat, uid: string, limit: Int32): Run<seq<RecommendedProduct>>
  {
    var s := SimilarUsersCallAsWritten(g, faults, n, uid, SimilarUserLimit);
    if s.result.Err? then Run(Err(s.result.error), s.issued, s.after)
    else if s.result.value == [] then Run(Ok([]), s.issued, s.after)
    else
      var c := CandidatesCall(s.after, faults, n + 1, uid, s.result.value, limit);
      Run(c.result, s.issued + c.issued, c.after)
  }

  /** GetRecommendationsAsync with the similar-users call as written. */
  function RecommendationsCallAsWritten(g: Graph, faults: set<nat>, n: nat, uid: string, limit: Int32, now: Time): Run<seq<RecommendedProduct>>
  {
    var h := CategoryCountsCall(g, faults, n, uid);
    if h.result.Err? then Run(Err(h.result.error), h.issued, h.after)
    else
      var w := if h.result.value == map[] then ColdStartCall(h.after, faults, n + 1, limit, now)
               else WarmStartCallAsWritten(h.after, faults, n + 1, uid, limit);
      Run(w.result, h.issued + w.issued, w.after)
  }

  /**
   * As written, GetRecommendationsAsync answers with a non-empty list only
   * on the cold-start path of a user without purchases. A user with a
   * history who shares a purchase with someone gets an exception whenever
   * the store runs the similar-users query, and one with a purchased product
   * that has no category gets the null-key exception of the first step.
   */
  lemma CollaborativeNeverAnswers(g: Graph, faults: set<nat>, n: nat, uid: string, limit: Int32, now: Time)
    ensures var r := RecommendationsCallAsWritten(g, faults, n, uid, limit, now).result;
      r.Ok? && r.value != [] ==> CategoryCountsCall(g, faults, n, uid).result == Ok(map[])
    ensures var h := CategoryCountsCall(g, faults, n, uid).result;
      (&& h.Ok? && h.value != map[] && n + 1 !in faults
       && exists v :: v in g.net.users && SimilarUser(g.net, uid, v))
      ==> RecommendationsCallAsWritten(g, faults, n, uid, limit, now).result == Err(MissingColumn)
    ensures (&& n !in faults
             && exists p :: p in PurchasedIds(g.net, uid) && ProductOf(g.net, p).category.None?)
      ==> RecommendationsCallAsWritten(g, faults, n, uid, limit, now).result == Err(NullCategoryKey)
  {
    RepositoryFacts.CategoryCountsCallFacts(g, faults, n, uid);
    if n + 1 !in faults {
      SimilarUsersAsWrittenNeverAnswers(g, faults, n + 1, uid, SimilarUserLimit);
    }
  }

  /** One purchase by a of a product the store did not hold: p, with no category. */
  const OneBuyer: Graph := PurchaseCall(EmptyGraph, {}, 0, "a", "o1", [PurchaseItem("p", 1, 10.0)], 1).after

  /** In OneBuyer, a is the only user, bought p, and p has no category. */
  lemma OneBuyerFacts()
    ensures OneBuyer.net.users == ["a"]
    ensures "p" in PurchasedIds(OneBuyer.net, "a")
    ensures ProductOf(OneBuyer.net, "p").category.None?
  {
    var items := [PurchaseItem("p", 1, 10.0)];
    assert Accepted({}, 0, 1) == 1;
    assert items[..0] == [];
    assert OneBuyer == ApplyPurchase(EmptyGraph, "a", "o1", items[0], 1);
  }

  /**
   * After a single purchase, with nobody else in the store, a's
   * recommendations raise the null-key exception of the first step.
   */
  lemma NullCategoryCounterexample()
    ensures forall v :: v in OneBuyer.net.users ==> !SimilarUser(OneBuyer.net, "a", v)
    ensures RecommendationsCallAsWritten(OneBuyer, {}, 0, "a", 10, 2).result == Err(NullCategoryKey)
  {
    OneBuyerFacts();
    CollaborativeNeverAnswers(OneBuyer, {}, 0, "a", 10, 2);
  }
}
