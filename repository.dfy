// RecommendationRepository: the graph store the methods update in place, the
// log of statements they send, and the `await foreach` loops that turn rows
// into DTOs. Each method is specified by the matching call function of
// RepositorySpec applied to the graph before the call.

module Repository {
  import opened Common
  import opened Ranking
  import opened RecommendationDtos
  import opened Graph
  import opened GraphFacts
  import opened RepositorySpec

  // The `await foreach` loops that turn the rows of a query into its result.

  method CollectRecommended(rows: seq<PersonalRow>) returns (recs: seq<RecommendedProduct>)
    ensures recs == RecommendedList(rows)
  {
    recs := [];
    var i := 0;
    while i < |rows|
      invariant 0 <= i <= |rows|
      invariant recs == RecommendedList(rows[..i])
    {
      RecommendedListStep(rows, i);
      if rows[i].productId.Some? {
        recs := recs + [Recommended(rows[i])];
      }
      i := i + 1;
    }
    assert rows[..|rows|] == rows;
  }

  lemma RecommendedListStep(rows: seq<PersonalRow>, i: nat)
    requires i < |rows|
    ensures RecommendedList(rows[..i + 1]) ==
      RecommendedList(rows[..i]) + (if rows[i].productId.Some? then [Recommended(rows[i])] else [])
  {
    assert rows[..i + 1][..i] == rows[..i];
  }

  method CollectSimilar(rows: seq<SimilarRow>) returns (similar: seq<SimilarProduct>)
    ensures similar == SimilarList(rows)
  {
    similar := [];
    var i := 0;
    while i < |rows|
      invariant 0 <= i <= |rows|
      invariant similar == SimilarList(rows[..i])
    {
      assert rows[..i + 1][..i] == rows[..i];
      similar := similar + [SimilarOf(rows[i])];
      i := i + 1;
    }
    assert rows[..|rows|] == rows;
  }

  method CollectTrending(rows: seq<TrendRow>) returns (trending: seq<TrendingProduct>)
    ensures trending == TrendingList(rows)
  {
    trending := [];
    var i := 0;
    while i < |rows|
      invariant 0 <= i <= |rows|
      invariant trending == TrendingList(rows[..i])
    {
      assert rows[..i + 1][..i] == rows[..i];
      trending := trending + [TrendingOf(rows[i])];
      i := i + 1;
    }
    assert rows[..|rows|] == rows;
  }

  method CollectHistory(rows: seq<HistoryRow>, now: Time) returns (history: seq<HistoryEntry>)
    ensures history == HistoryList(rows, now)
  {
    history := [];
    var i := 0;
    while i < |rows|
      invariant 0 <= i <= |rows|
      invariant history == HistoryList(rows[..i], now)
    {
      assert rows[..i + 1][..i] == rows[..i];
      if rows[i].productId.Some? {
        history := history + [HistoryEntryOf(rows[i], now)];
      }
      i := i + 1;
    }
    assert rows[..|rows|] == rows;
  }

  /** The loops that read one id per record. */
  method CollectIds(rows: seq<string>) returns (ids: seq<string>)
    ensures ids == rows
  {
    ids := [];
    var i := 0;
    while i < |rows|
      invariant 0 <= i <= |rows|
      invariant ids == rows[..i]
    {
      ids := ids + [rows[i]];
      i := i + 1;
    }
    assert rows[..|rows|] == rows;
  }

  /** Fills the category dictionary row by row; the first null category raises. */
  method FillCounts(rows: seq<CategoryRow>) returns (r: Result<map<string, nat>, Failure>)
    ensures r == CountsMap(rows)
  {
    var counts: map<string, nat> := map[];
    var i := 0;
    while i < |rows|
      invariant 0 <= i <= |rows|
      invariant CountsMap(rows[..i]) == Ok(counts)
    {
      assert rows[..i + 1][..i] == rows[..i];
      if rows[i].category.None? {
        CountsMapErrorSticks(rows, i + 1);
        r := Err(NullCategoryKey);
        return;
      }
      counts := counts[rows[i].category.value := rows[i].count];
      i := i + 1;
    }
    assert rows[..|rows|] == rows;
    r := Ok(counts);
  }

  class RecommendationRepository {
    var userProps: map<string, UserProps>
    var users: seq<string>
    var productIds: seq<string>
    var products: map<string, ProductNode>
    var purchased: map<(string, string), Purchase>
    var viewed: map<(string, string), View>
    /** Every statement sent to the store, in order. */
    var log: seq<Statement>
    /** The positions in `log` at which the store fails. */
    const faults: set<nat>

    function Snapshot(): Graph
      reads this
    {
      Graph(userProps, Network(users, productIds, products, purchased, viewed))
    }

    ghost predicate Valid()
      reads this
    {
      WellFormed(Snapshot())
    }

    constructor (faults: set<nat>)
      ensures Valid() && Snapshot() == EmptyGraph && log == [] && this.faults == faults
    {
      userProps, users, productIds, products, purchased, viewed := map[], [], [], map[], map[], map[];
      log := [];
      this.faults := faults;
    }

    /** Sends one statement; tells whether the store refused it. */
    method Send(s: Statement) returns (refused: bool)
      modifies this`log
      ensures log == old(log) + [s] && Snapshot() == old(Snapshot())
      ensures refused == Refused(faults, old(|log|), s)
    {
      refused := Refused(faults, |log|, s);
      log := log + [s];
    }

    /** The store's state after a statement has run. */
    method Commit(g: Graph)
      modifies this`userProps, this`users, this`productIds, this`products, this`purchased, this`viewed
      ensures Snapshot() == g
    {
      userProps, users, productIds := g.userProps, g.net.users, g.net.productIds;
      products, purchased, viewed := g.net.products, g.net.purchased, g.net.viewed;
    }

    method CreateUserIfNotExists(uid: string, name: Option<string>, email: Option<string>, now: Time)
      returns (r: Result<(), Failure>)
      requires Valid()
      modifies this
      ensures Valid()
      ensures var run := CreateUserCall(old(Snapshot()), faults, old(|log|), uid, name, email, now);
        r == run.result && log == old(log) + run.issued && Snapshot() == run.after
    {
      var s := CreateUserStmt(uid, name, email);
      var n := |log|;
      var refused := Send(s);
      if refused {
        r := Err(Refusal(faults, n, s));
        return;
      }
      UpsertUserFacts(Snapshot(), uid, name, email, now);
      Commit(UpsertUser(Snapshot(), uid, name, email, now));
      r := Ok(());
    }

    method CreateProductIfNotExists(pid: string, name: Option<string>, category: Option<string>, price: real, now: Time)
      returns (r: Result<(), Failure>)
      requires Valid()
      modifies this
      ensures Valid()
      ensures var run := CreateProductCall(old(Snapshot()), faults, old(|log|), pid, name, category, price, now);
        r == run.result && log == old(log) + run.issued && Snapshot() == run.after
    {
      var s := CreateProductStmt(pid, name, category, price);
      var n := |log|;
      var refused := Send(s);
      if refused {
        r := Err(Refusal(faults, n, s));
        return;
      }
      UpsertProductFacts(Snapshot(), pid, name, category, price, now);
      Commit(UpsertProduct(Snapshot(), pid, name, category, price, now));
      r := Ok(());
    }

    method GetPersonalizedRecommendations(uid: string, limit: Int32)
      returns (r: Result<seq<RecommendedProduct>, Failure>)
      requires Valid()
      modifies this
      ensures Valid()
      ensures var run := PersonalizedCall(old(Snapshot()), faults, old(|log|), uid, limit);
        r == run.result && log == old(log) + run.issued && Snapshot() == run.after
    {
      var s := PersonalizedStmt(uid, limit);
      var n := |log|;
      var refused := Send(s);
      if refused {
        r := Err(Refusal(faults, n, s));
        return;
      }
      var g := Snapshot();
      var net := MergeUser(g.net, uid);
      MergeUserKeepsWellFormed(g.net, uid);
      Commit(g.(net := net));
      var rows := PersonalizedRows(net, uid, limit as nat);
      var recs := CollectRecommended(rows);
      r := Ok(recs);
    }

    method GetSimilarProducts(pid: string, limit: Int32)
      returns (r: Result<seq<SimilarProduct>, Failure>)
      requires Valid()
      modifies this`log
      ensures var run := SimilarProductsCall(old(Snapshot()), faults, old(|log|), pid, limit);
        r == run.result && log == old(log) + run.issued && Snapshot() == run.after
    {
      var s := SimilarProductsStmt(pid, limit);
      var n := |log|;
      var refused := Send(s);
      if refused {
        r := Err(Refusal(faults, n, s));
        return;
      }
      var rows := SimilarRows(Snapshot().net, pid, limit as nat);
      var similar := CollectSimilar(rows);
      r := Ok(similar);
    }

    method GetTrendingProducts(days: Int32, limit: Int32, now: Time)
      returns (r: Result<seq<TrendingProduct>, Failure>)
      requires Valid()
      modifies this`log
      ensures var run := TrendingCall(old(Snapshot()), faults, old(|log|), now, days, limit);
        r == run.result && log == old(log) + run.issued && Snapshot() == run.after
    {
      var s := TrendingStmt(days, limit);
      var n := |log|;
      var refused := Send(s);
      if refused {
        r := Err(Refusal(faults, n, s));
        return;
      }
      var rows := TrendingRows(Snapshot().net, now, days, limit as nat);
      var trending := CollectTrending(rows);
      r := Ok(trending);
    }

    /**
     * RecordPurchaseAsync: the items are sent in list order and the first
     * refused statement raises; WellFormed holds on every prefix.
     */
    method RecordPurchase(uid: string, orderId: string, items: seq<PurchaseItem>, now: Time)
      returns (r: Result<(), Failure>)
      requires Valid()
      modifies this
      ensures Valid()
      ensures var run := PurchaseCall(old(Snapshot()), faults, old(|log|), uid, orderId, items, now);
        r == run.result && log == old(log) + run.issued && Snapshot() == run.after
    {
      ghost var g0 := Snapshot();
      var k := SendItems(uid, orderId, items, now);
      ApplyPurchasesKeepsWellFormed(g0, uid, orderId, items[..k], now);
      if k < |items| {
        r := Err(StoreUnavailable);
      } else {
        assert items[..k] == items;
        r := Ok(());
      }
    }

    /**
     * The loop over the items: one purchase statement each, stopping after the
     * first refused one; the first `k` items are applied.
     */
    method SendItems(uid: string, orderId: string, items: seq<PurchaseItem>, now: Time) returns (k: nat)
      modifies this
      ensures k == Accepted(faults, old(|log|), |items|)
      ensures log == old(log) + PurchaseStatements(uid, orderId, items[..if k < |items| then k + 1 else k])
      ensures Snapshot() == ApplyPurchases(old(Snapshot()), uid, orderId, items[..k], now)
    {
      ghost var g0 := Snapshot();
      ghost var log0 := log;
      ghost var n := |log|;
      k := 0;
      while k < |items|
        invariant k <= |items|
        invariant Accepted(faults, n, k) == k
        invariant log == log0 + PurchaseStatements(uid, orderId, items[..k])
        invariant Snapshot() == ApplyPurchases(g0, uid, orderId, items[..k], now)
      {
        var refused := PurchaseStep(uid, orderId, items, k, now, n, log0, g0);
        if refused {
          return;
        }
        k := k + 1;
      }
    }

    /** One turn of the loop in SendItems: the purchase statement for `items[k]`. */
    method PurchaseStep(uid: string, orderId: string, items: seq<PurchaseItem>, k: nat, now: Time,
                        ghost n: nat, ghost log0: seq<Statement>, ghost g0: Graph) returns (refused: bool)
      requires k < |items| && |log0| == n && Accepted(faults, n, k) == k
      requires log == log0 + PurchaseStatements(uid, orderId, items[..k])
      requires Snapshot() == ApplyPurchases(g0, uid, orderId, items[..k], now)
      modifies this
      ensures log == log0 + PurchaseStatements(uid, orderId, items[..k + 1])
      ensures refused ==> Accepted(faults, n, |items|) == k && Snapshot() == ApplyPurchases(g0, uid, orderId, items[..k], now)
      ensures !refused ==> Accepted(faults, n, k + 1) == k + 1 && Snapshot() == ApplyPurchases(g0, uid, orderId, items[..k + 1], now)
    {
      PurchaseStatementsGrow(uid, orderId, items, k);
      refused := RecordItem(uid, orderId, items[k], now);
      ConcatAssoc(log0, PurchaseStatements(uid, orderId, items[..k]), [PurchaseStmt(uid, orderId, items[k])]);
      if refused {
        AcceptedStops(faults, n, k, |items|);
      } else {
        ApplyPurchasesGrow(g0, uid, orderId, items, k, now);
        AcceptedGrows(faults, n, k);
      }
    }

    /** One execution of the purchase statement. */
    method RecordItem(uid: string, orderId: string, item: PurchaseItem, now: Time) returns (refused: bool)
      modifies this
      ensures log == old(log) + [PurchaseStmt(uid, orderId, item)]
      ensures refused == (old(|log|) in faults)
      ensures Snapshot() == if refused then old(Snapshot()) else ApplyPurchase(old(Snapshot()), uid, orderId, item, now)
    {
      refused := Send(PurchaseStmt(uid, orderId, item));
      if !refused {
        Commit(ApplyPurchase(Snapshot(), uid, orderId, item, now));
      }
    }

    /** Store errors are logged and never raised. */
    method RecordView(uid: string, pid: string, duration: Int32, source: Option<string>, now: Time)
      requires Valid()
      modifies this
      ensures Valid()
      ensures var run := ViewCall(old(Snapshot()), faults, old(|log|), uid, pid, duration, source, now);
        log == old(log) + run.issued && Snapshot() == run.after
    {
      var refused := Send(ViewStmt(uid, pid, duration, source));
      if !refused {
        ApplyViewKeepsWellFormed(Snapshot(), uid, pid, duration, source, now);
        Commit(ApplyView(Snapshot(), uid, pid, duration, source, now));
      }
    }

    method GetUserHistory(uid: string, limit: Int32, now: Time)
      returns (r: Result<seq<HistoryEntry>, Failure>)
      requires Valid()
      modifies this
      ensures Valid()
      ensures var run := HistoryCall(old(Snapshot()), faults, old(|log|), uid, limit, now);
        r == run.result && log == old(log) + run.issued && Snapshot() == run.after
    {
      var s := HistoryStmt(uid, limit);
      var n := |log|;
      var refused := Send(s);
      if refused {
        r := Err(Refusal(faults, n, s));
        return;
      }
      var g := Snapshot();
      var net := MergeUser(g.net, uid);
      MergeUserKeepsWellFormed(g.net, uid);
      Commit(g.(net := net));
      var rows := HistoryRows(net, uid, limit as nat);
      var history := CollectHistory(rows, now);
      r := Ok(history);
    }

    method GetSimilarUsers(uid: string, limit: Int32)
      returns (r: Result<seq<string>, Failure>)
      requires Valid()
      modifies this`log
      ensures var run := SimilarUsersCall(old(Snapshot()), faults, old(|log|), uid, limit);
        r == run.result && log == old(log) + run.issued && Snapshot() == run.after
    {
      var s := SimilarUsersStmt(uid, limit);
      var n := |log|;
      var refused := Send(s);
      if refused {
        r := Err(Refusal(faults, n, s));
        return;
      }
      var rows := SimilarUserIds(Snapshot().net, uid, limit as nat);
      var similarUsers := CollectIds(rows);
      r := Ok(similarUsers);
    }

    /** Fills the category dictionary row by row; a null category raises. */
    method GetUserPurchaseHistory(uid: string)
      returns (r: Result<map<string, nat>, Failure>)
      requires Valid()
      modifies this`log
      ensures var run := CategoryCountsCall(old(Snapshot()), faults, old(|log|), uid);
        r == run.result && log == old(log) + run.issued && Snapshot() == run.after
    {
      var s := CategoryCountsStmt(uid);
      var n := |log|;
      var refused := Send(s);
      if refused {
        r := Err(Refusal(faults, n, s));
        return;
      }
      var rows := CategoryRows(Snapshot().net, uid);
      r := FillCounts(rows);
    }

    method GetRecommendedProductIds(uid: string, others: seq<string>, limit: Int32)
      returns (r: Result<seq<string>, Failure>)
      requires Valid()
      modifies this`log
      ensures var run := CandidateIdsCall(old(Snapshot()), faults, old(|log|), uid, others, limit);
        r == run.result && log == old(log) + run.issued && Snapshot() == run.after
    {
      var s := CandidateIdsStmt(uid, others, limit);
      var n := |log|;
      var refused := Send(s);
      if refused {
        r := Err(Refusal(faults, n, s));
        return;
      }
      var rows := CandidateIds(Snapshot().net, uid, others, limit as nat);
      var ids := CollectIds(rows);
      r := Ok(ids);
    }

    /** MATCHes the user and stamps lastActive; store errors are logged and never raised. */
    method UpdateUserLastActive(uid: string, now: Time)
      requires Valid()
      modifies this
      ensures Valid()
      ensures var run := TouchCall(old(Snapshot()), faults, old(|log|), uid, now);
        log == old(log) + run.issued && Snapshot() == run.after
    {
      var refused := Send(TouchStmt(uid));
      if !refused {
        Commit(TouchUser(Snapshot(), uid, now));
      }
    }
  }
}
