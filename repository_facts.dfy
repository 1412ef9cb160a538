// What each repository call returns, stated over the queries of Graph: one
// statement per call, an error exactly when the store refuses it, and a result
// whose rows are the ranked ids of the query, converted one by one.

module RepositoryFacts {
  import opened Common
  import opened Ranking
  import opened RecommendationDtos
  import opened Graph
  import opened RepositorySpec

  /**
   * GetPersonalizedRecommendationsAsync: the user is merged, and the result
   * holds one RecommendedProduct per ranked candidate, in rank order; the
   * null row of an empty OPTIONAL MATCH yields nothing.
   */
  lemma PersonalizedCallFacts(g: Graph, faults: set<nat>, n: nat, uid: string, limit: Int32)
    ensures var run := PersonalizedCall(g, faults, n, uid, limit);
      var net := MergeUser(g.net, uid);
      && run.issued == [PersonalizedStmt(uid, limit)]
      && (run.result.Err? <==> n in faults || limit < 0)
      && (run.result.Err? ==> run.after == g)
      && (run.result.Ok? ==>
            && limit >= 0 && run.after == g.(net := net)
            && var ids := PersonalizedIds(net, uid, limit as nat);
               && |run.result.value| == |ids|
               && forall i :: 0 <= i < |ids| ==>
                    && run.result.value[i] == Recommended(PersonalRowOf(net, uid, ids[i]))
                    && run.result.value[i].productId == ids[i]
                    && var p := ProductOf(net, ids[i]);
                       var pop := Popularity(net, uid, ids[i]);
                       && run.result.value[i].name == Some(OrElse(p.name, UnknownText))
                       && run.result.value[i].category == Some(OrElse(p.category, UnknownText))
                       && run.result.value[i].score == MinReal(pop as real / 10.0, 1.0)
                       && run.result.value[i].confidence == MinReal(pop as real / 20.0, 1.0)
                       && CountedText(run.result.value[i].reason, pop, PersonalReasonSuffix))
  {
    if !Refused(faults, n, PersonalizedStmt(uid, limit)) {
      var net := MergeUser(g.net, uid);
      PersonalizedEntries(net, uid, limit as nat);
      var ids := PersonalizedIds(net, uid, limit as nat);
      forall i | 0 <= i < |ids|
        ensures var pop := Popularity(net, uid, ids[i]);
          var d := Recommended(PersonalRowOf(net, uid, ids[i]));
          && d.score == MinReal(pop as real / 10.0, 1.0)
          && d.confidence == MinReal(pop as real / 20.0, 1.0)
          && CountedText(d.reason, pop, PersonalReasonSuffix)
      {
        RecommendedFacts(PersonalRowOf(net, uid, ids[i]));
      }
    }
  }

  /** The DTOs made from the personalized rows: one per ranked candidate, in rank order. */
  lemma PersonalizedEntries(net: Network, uid: string, limit: nat)
    ensures var ids := PersonalizedIds(net, uid, limit);
      var recs := RecommendedList(PersonalizedRows(net, uid, limit));
      |recs| == |ids| && forall i :: 0 <= i < |ids| ==> recs[i] == Recommended(PersonalRowOf(net, uid, ids[i]))
  {
    var ids := PersonalizedIds(net, uid, limit);
    if PersonalCandidates(net, uid) == [] {
      assert |ids| == 0;
      var rows := PersonalizedRows(net, uid, limit);
      RecommendedListFacts(rows);
      assert forall i :: 0 <= i < |rows| ==> rows[i].productId.None?;
    } else {
      RecsOfRows(net, uid, ids);
    }
  }

  /** The DTOs made from the personalized rows of the products `ids`, one per product. */
  lemma RecsOfRows(net: Network, uid: string, ids: seq<string>)
    ensures var recs := RecommendedList(seq(|ids|, i requires 0 <= i < |ids| => PersonalRowOf(net, uid, ids[i])));
      |recs| == |ids| && forall i :: 0 <= i < |ids| ==> recs[i] == Recommended(PersonalRowOf(net, uid, ids[i]))
  {
    var rows := seq(|ids|, i requires 0 <= i < |ids| => PersonalRowOf(net, uid, ids[i]));
    RecommendedListFacts(rows);
    assert forall i :: 0 <= i < |rows| ==> rows[i].productId.Some?;
  }

  /** GetSimilarProductsAsync: one SimilarProduct per ranked same-category product, each scored 0.85. */
  lemma SimilarProductsCallFacts(g: Graph, faults: set<nat>, n: nat, pid: string, limit: Int32)
    ensures var run := SimilarProductsCall(g, faults, n, pid, limit);
      && run.issued == [SimilarProductsStmt(pid, limit)] && run.after == g
      && (run.result.Err? <==> n in faults || limit < 0)
      && (run.result.Ok? ==>
            && limit >= 0
            && var ids := SimilarProductIds(g.net, pid, limit as nat);
               && |run.result.value| == |ids|
               && forall i :: 0 <= i < |ids| ==>
                    && run.result.value[i].productId == ids[i]
                    && run.result.value[i].category == ProductOf(g.net, ids[i]).category
                    && run.result.value[i].similarityScore == SimilarityByCategory)
  {
  }

  /** GetTrendingProductsAsync: one entry per ranked product, carrying its purchase count in the window. */
  lemma TrendingCallFacts(g: Graph, faults: set<nat>, n: nat, now: Time, days: Int32, limit: Int32)
    ensures var run := TrendingCall(g, faults, n, now, days, limit);
      && run.issued == [TrendingStmt(days, limit)] && run.after == g
      && (run.result.Err? <==> n in faults || limit < 0)
      && (run.result.Ok? ==>
            && limit >= 0
            && var since := WindowStart(now, days);
               var ids := TrendingIds(g.net, since, limit as nat);
               && |run.result.value| == |ids|
               && forall i :: 0 <= i < |ids| ==>
                    && run.result.value[i].productId == ids[i]
                    && run.result.value[i].recentPurchases == RecentCount(g.net, ids[i], since)
                    && run.result.value[i].trendScore == MinReal(RecentCount(g.net, ids[i], since) as real / 10.0, 1.0))
  {
  }

  /** GetUserHistoryAsync: the user is merged, and each entry is that user's PURCHASED edge to a ranked product. */
  lemma HistoryCallFacts(g: Graph, faults: set<nat>, n: nat, uid: string, limit: Int32, now: Time)
    ensures var run := HistoryCall(g, faults, n, uid, limit, now);
      var net := MergeUser(g.net, uid);
      && run.issued == [HistoryStmt(uid, limit)]
      && (run.result.Err? <==> n in faults || limit < 0)
      && (run.result.Err? ==> run.after == g)
      && (run.result.Ok? ==>
            && limit >= 0 && run.after == g.(net := net)
            && var ids := HistoryIds(net, uid, limit as nat);
               && |run.result.value| == |ids|
               && forall i :: 0 <= i < |ids| ==>
                    && (uid, ids[i]) in net.purchased
                    && var edge := net.purchased[(uid, ids[i])];
                       && run.result.value[i].productId == ids[i]
                       && run.result.value[i].name == OrElse(ProductOf(net, ids[i]).name, UnknownText)
                       && run.result.value[i].category == OrElse(ProductOf(net, ids[i]).category, UnknownText)
                       && run.result.value[i].purchaseDate == edge.purchaseDate
                       && run.result.value[i].quantity == edge.quantity
                       && run.result.value[i].price == edge.price)
  {
    if !Refused(faults, n, HistoryStmt(uid, limit)) {
      HistoryEntries(MergeUser(g.net, uid), uid, limit as nat, now);
    }
  }

  /** The entries made from the history rows are the user's PURCHASED edges to the ranked products, one each. */
  lemma HistoryEntries(net: Network, uid: string, limit: nat, now: Time)
    ensures var ids := HistoryIds(net, uid, limit);
      var entries := HistoryList(HistoryRows(net, uid, limit), now);
      && |entries| == |ids|
      && forall i :: 0 <= i < |ids| ==>
           && (uid, ids[i]) in net.purchased
           && var edge := net.purchased[(uid, ids[i])];
              && entries[i].productId == ids[i]
              && entries[i].name == OrElse(ProductOf(net, ids[i]).name, UnknownText)
              && entries[i].category == OrElse(ProductOf(net, ids[i]).category, UnknownText)
              && entries[i].purchaseDate == edge.purchaseDate
              && entries[i].quantity == edge.quantity
              && entries[i].price == edge.price
  {
    var ids := HistoryIds(net, uid, limit);
    if PurchasedIds(net, uid) == [] {
      assert |ids| == 0;
      var rows := HistoryRows(net, uid, limit);
      HistoryListFacts(rows, now);
      assert forall i :: 0 <= i < |rows| ==> rows[i].productId.None?;
    } else {
      forall i | 0 <= i < |ids|
        ensures (uid, ids[i]) in net.purchased
      {
        assert ids[i] in PurchasedIds(net, uid);
      }
      EntriesOfRows(net, uid, ids, now);
    }
  }

  /** The entries made from the history rows of the products `ids`, one per product. */
  lemma EntriesOfRows(net: Network, uid: string, ids: seq<string>, now: Time)
    requires forall i :: 0 <= i < |ids| ==> (uid, ids[i]) in net.purchased
    ensures var entries := HistoryList(seq(|ids|, i requires 0 <= i < |ids| => HistoryRowOf(net, uid, ids[i])), now);
      && |entries| == |ids|
      && forall i :: 0 <= i < |ids| ==>
           && var edge := net.purchased[(uid, ids[i])];
              && entries[i].productId == ids[i]
              && entries[i].name == OrElse(ProductOf(net, ids[i]).name, UnknownText)
              && entries[i].category == OrElse(ProductOf(net, ids[i]).category, UnknownText)
              && entries[i].purchaseDate == edge.purchaseDate
              && entries[i].quantity == edge.quantity
              && entries[i].price == edge.price
  {
    var rows := seq(|ids|, i requires 0 <= i < |ids| => HistoryRowOf(net, uid, ids[i]));
    HistoryListFacts(rows, now);
    assert forall i :: 0 <= i < |rows| ==> rows[i].productId.Some?;
  }

  /**
   * RecordPurchaseAsync: the statements sent are those of a prefix of the
   * items; it succeeds exactly when no statement is refused, and on failure
   * the items before the refused one stay applied.
   */
  lemma PurchaseCallFacts(g: Graph, faults: set<nat>, n: nat, uid: string, orderId: string, items: seq<PurchaseItem>, now: Time)
    ensures var run := PurchaseCall(g, faults, n, uid, orderId, items, now);
      && (run.result.Ok? <==> forall p :: n <= p < n + |items| ==> p !in faults)
      && (run.result.Ok? ==>
            && run.issued == PurchaseStatements(uid, orderId, items)
            && run.after == ApplyPurchases(g, uid, orderId, items, now))
      && (run.result.Err? ==>
            && run.result.error == StoreUnavailable
            && 1 <= |run.issued| <= |items| && n + |run.issued| - 1 in faults
            && run.issued == PurchaseStatements(uid, orderId, items[..|run.issued|])
            && run.after == ApplyPurchases(g, uid, orderId, items[..|run.issued| - 1], now))
  {
    var k := Accepted(faults, n, |items|);
    if k < |items| {
      assert n + k in faults;
    } else {
      assert items[..|items|] == items;
    }
  }

  /** Some row of the category query groups category `c`. */
  predicate HasGroup(rows: seq<CategoryRow>, c: Option<string>)
  {
    exists i :: 0 <= i < |rows| && rows[i].category == c
  }

  /** Some product in `bought` has category `c`. */
  predicate BoughtIn(net: Network, bought: seq<string>, c: Option<string>)
  {
    exists p :: p in bought && ProductOf(net, p).category == c
  }

  /** The category dictionary raises exactly on a null category; otherwise its keys are the row categories. */
  lemma {:induction false} CountsMapFacts(rows: seq<CategoryRow>)
    ensures CountsMap(rows).Ok? <==> !HasGroup(rows, None)
    ensures CountsMap(rows).Ok? ==>
      var m := CountsMap(rows).value;
      && (forall c :: c in m <==> HasGroup(rows, Some(c)))
      && (forall c :: c in m ==> exists i :: 0 <= i < |rows| && rows[i].category == Some(c) && m[c] == rows[i].count)
    decreases |rows|
  {
    if rows != [] {
      var init := rows[..|rows| - 1];
      var last := rows[|rows| - 1];
      CountsMapFacts(init);
      assert forall i :: 0 <= i < |init| ==> init[i] == rows[i];
      assert rows[|rows| - 1] == last;
      assert forall c :: HasGroup(rows, c) <==> HasGroup(init, c) || last.category == c by {
        forall c ensures HasGroup(rows, c) <==> HasGroup(init, c) || last.category == c {
          if HasGroup(rows, c) {
            var i :| 0 <= i < |rows| && rows[i].category == c;
            if i < |init| { assert init[i].category == c; }
          }
          if HasGroup(init, c) {
            var i :| 0 <= i < |init| && init[i].category == c;
            assert rows[i].category == c;
          }
        }
      }
      if CountsMap(init).Ok? && last.category.Some? {
        var m := CountsMap(rows).value;
        forall c | c in m
          ensures exists i :: 0 <= i < |rows| && rows[i].category == Some(c) && m[c] == rows[i].count
        {
          if c != last.category.value {
            var i :| 0 <= i < |init| && init[i].category == Some(c) && CountsMap(init).value[c] == init[i].count;
            assert rows[i] == init[i];
          }
        }
      }
    }
  }

  /** The category groups are exactly the categories of the user's purchased products, null included. */
  lemma CategoryRowsFacts(net: Network, uid: string)
    ensures forall c :: HasGroup(CategoryRows(net, uid), c) <==> BoughtIn(net, PurchasedIds(net, uid), c)
  {
    var rows := CategoryRows(net, uid);
    var groups := CategoryGroups(net, uid);
    forall c ensures HasGroup(rows, c) <==> BoughtIn(net, PurchasedIds(net, uid), c) {
      if HasGroup(rows, c) {
        var i :| 0 <= i < |rows| && rows[i].category == c;
        assert groups[i] in groups;
      }
      if BoughtIn(net, PurchasedIds(net, uid), c) {
        assert c in groups;
        var i :| 0 <= i < |groups| && groups[i] == c;
        assert rows[i].category == c;
      }
    }
  }

  /**
   * GetUserPurchaseHistoryAsync raises when the store fails, and otherwise
   * exactly when one of the user's purchased products has no category.
   */
  lemma CategoryCountsCallFacts(g: Graph, faults: set<nat>, n: nat, uid: string)
    ensures var run := CategoryCountsCall(g, faults, n, uid);
      && run.issued == [CategoryCountsStmt(uid)] && run.after == g
      && (n in faults ==> run.result == Err(StoreUnavailable))
      && (n !in faults ==>
            (run.result.Err? <==> exists p :: p in PurchasedIds(g.net, uid) && ProductOf(g.net, p).category.None?))
  {
    CountsMapFacts(CategoryRows(g.net, uid));
    CategoryRowsFacts(g.net, uid);
    assert HasGroup(CategoryRows(g.net, uid), None) <==> BoughtIn(g.net, PurchasedIds(g.net, uid), None);
  }

  /**
   * A returned dictionary maps each category of the user's purchases to the
   * number of products bought in it, and is empty exactly when the user
   * bought nothing.
   */
  lemma CategoryCountsContents(g: Graph, faults: set<nat>, n: nat, uid: string)
    ensures var run := CategoryCountsCall(g, faults, n, uid);
      var bought := PurchasedIds(g.net, uid);
      run.result.Ok? ==>
        var m := run.result.value;
        && (forall c :: c in m <==> exists p :: p in bought && ProductOf(g.net, p).category == Some(c))
        && (forall c :: c in m ==> m[c] == CountInCategory(g.net, uid, Some(c)))
        && (m == map[] <==> bought == [])
  {
    var rows := CategoryRows(g.net, uid);
    if n !in faults && CountsMap(rows).Ok? {
      CategoryKeys(g.net, uid);
      CategoryValues(g.net, uid);
    }
  }

  /** The keys of the category dictionary: the categories of the user's purchases; none when nothing was bought. */
  lemma CategoryKeys(net: Network, uid: string)
    requires CountsMap(CategoryRows(net, uid)).Ok?
    ensures var m := CountsMap(CategoryRows(net, uid)).value;
      var bought := PurchasedIds(net, uid);
      && (forall c :: c in m <==> exists p :: p in bought && ProductOf(net, p).category == Some(c))
      && (m == map[] <==> bought == [])
  {
    var rows := CategoryRows(net, uid);
    var bought := PurchasedIds(net, uid);
    var m := CountsMap(rows).value;
    CountsMapFacts(rows);
    CategoryRowsFacts(net, uid);
    forall c ensures c in m <==> BoughtIn(net, bought, Some(c)) {
      assert c in m <==> HasGroup(rows, Some(c));
    }
    if bought != [] {
      var p := bought[0];
      assert BoughtIn(net, bought, ProductOf(net, p).category);
      assert !BoughtIn(net, bought, None);
      assert ProductOf(net, p).category.value in m;
    } else {
      forall c ensures c !in m {
        assert !BoughtIn(net, bought, Some(c));
      }
      assert m == map[];
    }
  }

  /** The values of the category dictionary: the number of products bought in each category. */
  lemma CategoryValues(net: Network, uid: string)
    requires CountsMap(CategoryRows(net, uid)).Ok?
    ensures var m := CountsMap(CategoryRows(net, uid)).value;
      forall c :: c in m ==> m[c] == CountInCategory(net, uid, Some(c))
  {
    var rows := CategoryRows(net, uid);
    var m := CountsMap(rows).value;
    CountsMapFacts(rows);
    forall c | c in m ensures m[c] == CountInCategory(net, uid, Some(c)) {
      var i :| 0 <= i < |rows| && rows[i].category == Some(c) && m[c] == rows[i].count;
    }
  }

  /** GetSimilarUsersAsync, with the returned column read by its own name. */
  lemma SimilarUsersCallFacts(g: Graph, faults: set<nat>, n: nat, uid: string, limit: Int32)
    ensures var run := SimilarUsersCall(g, faults, n, uid, limit);
      && run.issued == [SimilarUsersStmt(uid, limit)] && run.after == g
      && (run.result.Err? <==> n in faults || limit < 0)
      && (run.result.Ok? ==> limit >= 0 && run.result.value == SimilarUserIds(g.net, uid, limit as nat))
  {
  }

  /** GetRecommendedProductIdsAsync, with the returned column read by its own name. */
  lemma CandidateIdsCallFacts(g: Graph, faults: set<nat>, n: nat, uid: string, others: seq<string>, limit: Int32)
    ensures var run := CandidateIdsCall(g, faults, n, uid, others, limit);
      && run.issued == [CandidateIdsStmt(uid, others, limit)] && run.after == g
      && (run.result.Err? <==> n in faults || limit < 0)
      && (run.result.Ok? ==> limit >= 0 && run.result.value == CandidateIds(g.net, uid, others, limit as nat))
  {
  }

  /**
   * UpdateUserLastActiveAsync only stamps an existing user: nothing any query
   * reads changes, whether or not the store accepts the statement.
   */
  lemma TouchCallFacts(g: Graph, faults: set<nat>, n: nat, uid: string, now: Time)
    ensures var run := TouchCall(g, faults, n, uid, now);
      && run.issued == [TouchStmt(uid)]
      && run.after.net == g.net
      && (run.result.Err? <==> n in faults)
      && (uid !in g.net.users ==> run.after == g)
  {
  }
}
