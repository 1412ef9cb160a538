// What each RecommendationRepository operation does to the graph and returns,
// as functions of the graph before the call: the statements it sends, which of
// them the store refuses, the graph afterwards, and the DTOs it builds from the
// rows.
//
// Every statement runs in its own auto-commit transaction, so a refused
// statement changes nothing and the statements before it stay committed.

module RepositorySpec {
  import opened Common
  import opened Ranking
  import opened RecommendationDtos
  import opened Graph

  /** Why an operation raised instead of returning. */
  datatype Failure =
    | StoreUnavailable    // the store failed to run the statement (connection, timeout, ...)
    | NegativeLimit       // LIMIT was given a negative value, which Cypher rejects
    | NullCategoryKey     // a null category was used as a Dictionary key
    | MissingColumn       // a record was read by a column name the query does not return
    | RejectedStatement   // the statement itself fails Cypher's semantic check
    | InvalidCast         // a record value was unboxed as a type it does not have

  /** The Cypher statements the repository sends, with their parameters. */
  datatype Statement =
    | CreateUserStmt(userId: string, name: Option<string>, email: Option<string>)
    | CreateProductStmt(productId: string, name: Option<string>, category: Option<string>, price: real)
    | PersonalizedStmt(userId: string, limit: Int32)
    | SimilarProductsStmt(productId: string, limit: Int32)
    | TrendingStmt(days: Int32, limit: Int32)
    | PurchaseStmt(userId: string, orderId: string, item: PurchaseItem)
    | ViewStmt(userId: string, productId: string, duration: Int32, source: Option<string>)
    | HistoryStmt(userId: string, limit: Int32)
    | SimilarUsersStmt(userId: string, limit: Int32)
    | CategoryCountsStmt(userId: string)
    | CandidateIdsStmt(userId: string, similarUserIds: seq<string>, limit: Int32)
    | TouchStmt(userId: string)

  predicate HasNegativeLimit(s: Statement)
  {
    (s.PersonalizedStmt? || s.SimilarProductsStmt? || s.TrendingStmt? || s.HistoryStmt?
     || s.SimilarUsersStmt? || s.CandidateIdsStmt?) && s.limit < 0
  }

  /**
   * The store refuses statement `s` sent as the `n`-th of the session when `n`
   * is one of the positions in `faults` (the environment's failures) or when
   * `s` carries a negative LIMIT.
   */
  predicate Refused(faults: set<nat>, n: nat, s: Statement)
  {
    n in faults || HasNegativeLimit(s)
  }

  function Refusal(faults: set<nat>, n: nat, s: Statement): (e: Failure)
    requires Refused(faults, n, s)
    ensures e == NegativeLimit ==> n !in faults && s.limit < 0
    ensures e == StoreUnavailable ==> n in faults
  {
    if n in faults then StoreUnavailable else NegativeLimit
  }

  /** The outcome of one repository call: what it returned or raised, what it sent, and the graph after it. */
  datatype Run<T> = Run(result: Result<T, Failure>, issued: seq<Statement>, after: Graph)

  /** A single-statement call whose statement was refused: nothing changes. */
  function Refuse<T>(g: Graph, faults: set<nat>, n: nat, s: Statement): (run: Run<T>)
    requires Refused(faults, n, s)
    ensures run.result.Err? && run.issued == [s] && run.after == g
  {
    Run(Err(Refusal(faults, n, s)), [s], g)
  }

  // ------------------------------------------------------------ row conversions

  const UnknownText: string := "Unknown"

  const PersonalReasonSuffix: string := " utilisateurs similaires l'ont acheté"

  /**
   * A personalized row as a RecommendedProduct: null name and category become
   * "Unknown", a null price or rating 0; the score is the share of 10 other
   * buyers and the confidence the share of 20, each capped at 1, and the
   * reason states the number of other buyers.
   */
  function Recommended(row: PersonalRow): (d: RecommendedProduct)
    ensures row.productId.Some? ==> d.productId == row.productId.value
    ensures d.name.Some? && d.category.Some? && d.imageUrl == ""
    ensures 0.0 <= d.confidence <= d.score <= 1.0
    ensures d.score == 1.0 <==> row.popularity >= 10
    ensures d.confidence == 1.0 <==> row.popularity >= 20
  {
    var pop := row.popularity;
    RecommendedProduct(
      OrElse(row.productId, ""),
      Some(OrElse(row.name, UnknownText)),
      Some(OrElse(row.category, UnknownText)),
      OrElse(row.price, 0.0),
      "",
      OrElse(row.rating, 0.0),
      MinReal(pop as real / 10.0, 1.0),
      NatToString(pop) + PersonalReasonSuffix,
      MinReal(pop as real / 20.0, 1.0))
  }

  /** The value of each field of a personalized DTO, in terms of its row. */
  lemma RecommendedFacts(row: PersonalRow)
    ensures var d := Recommended(row);
      && (row.name.Some? ==> d.name == row.name)
      && (row.name.None? ==> d.name == Some(UnknownText))
      && (row.category.Some? ==> d.category == row.category)
      && (row.category.None? ==> d.category == Some(UnknownText))
      && (row.price.Some? ==> d.price == row.price.value)
      && (row.price.None? ==> d.price == 0.0)
      && (row.rating.Some? ==> d.rating == row.rating.value)
      && (row.rating.None? ==> d.rating == 0.0)
      && (row.popularity < 10 ==> d.score == row.popularity as real / 10.0)
      && (row.popularity < 20 ==> d.confidence == row.popularity as real / 20.0)
      && CountedText(d.reason, row.popularity, PersonalReasonSuffix)
  {
    CountedTextOf(row.popularity, PersonalReasonSuffix);
  }

  /** The `await foreach` over the personalized rows: rows with a null productId are skipped. */
  function RecommendedList(rows: seq<PersonalRow>): (r: seq<RecommendedProduct>)
    ensures |r| <= |rows|
    decreases |rows|
  {
    if rows == [] then []
    else
      var init := RecommendedList(rows[..|rows| - 1]);
      var last := rows[|rows| - 1];
      if last.productId.Some? then init + [Recommended(last)] else init
  }

  /** Rows that all carry a product become one DTO each, in order; rows that all lack one become nothing. */
  lemma {:induction false} RecommendedListFacts(rows: seq<PersonalRow>)
    ensures (forall i :: 0 <= i < |rows| ==> rows[i].productId.Some?) ==>
      var r := RecommendedList(rows);
      |r| == |rows| && forall i :: 0 <= i < |rows| ==> r[i] == Recommended(rows[i])
    ensures (forall i :: 0 <= i < |rows| ==> rows[i].productId.None?) ==> RecommendedList(rows) == []
  {
    if rows != [] {
      var init := rows[..|rows| - 1];
      RecommendedListFacts(init);
      assert forall i :: 0 <= i < |init| ==> init[i] == rows[i];
    }
  }

  const SimilarityByCategory: real := 0.85
  const SimilarReason: string := "Produit similaire par catégorie"

  function SimilarOf(row: SimilarRow): (d: SimilarProduct)
    ensures d.productId == row.productId && d.name == row.name && d.category == row.category
    ensures d.similarityScore == SimilarityByCategory
  {
    SimilarProduct(row.productId, row.name, row.category, OrElse(row.price, 0.0), SimilarityByCategory, SimilarReason)
  }

  function SimilarList(rows: seq<SimilarRow>): (r: seq<SimilarProduct>)
    ensures |r| == |rows| && forall i :: 0 <= i < |rows| ==> r[i] == SimilarOf(rows[i])
    decreases |rows|
  {
    if rows == [] then [] else SimilarList(rows[..|rows| - 1]) + [SimilarOf(rows[|rows| - 1])]
  }

  /** A trending row; the trend score saturates at 10 recent purchases. */
  function TrendingOf(row: TrendRow): (d: TrendingProduct)
    ensures d.productId == row.productId && d.recentPurchases == row.recentPurchases
    ensures 0.0 <= d.trendScore <= 1.0
    ensures d.trendScore == 1.0 <==> row.recentPurchases >= 10
  {
    TrendingProduct(row.productId, row.name, row.category, OrElse(row.price, 0.0),
      row.recentPurchases, MinReal(row.recentPurchases as real / 10.0, 1.0))
  }

  function TrendingList(rows: seq<TrendRow>): (r: seq<TrendingProduct>)
    ensures |r| == |rows| && forall i :: 0 <= i < |rows| ==> r[i] == TrendingOf(rows[i])
    decreases |rows|
  {
    if rows == [] then [] else TrendingList(rows[..|rows| - 1]) + [TrendingOf(rows[|rows| - 1])]
  }

  /**
   * A history row as an entry: a null name or category becomes "Unknown", a
   * missing purchase date the current time, a null quantity or price 0.
   */
  function HistoryEntryOf(row: HistoryRow, now: Time): (e: HistoryEntry)
    ensures row.productId.Some? ==> e.productId == row.productId.value
    ensures row.name.Some? ==> e.name == row.name.value
    ensures row.name.None? ==> e.name == UnknownText
    ensures row.category.Some? ==> e.category == row.category.value
    ensures row.category.None? ==> e.category == UnknownText
    ensures row.purchaseDate.Some? ==> e.purchaseDate == row.purchaseDate.value
    ensures row.purchaseDate.None? ==> e.purchaseDate == now
    ensures row.quantity.Some? ==> e.quantity == row.quantity.value
    ensures row.quantity.None? ==> e.quantity == 0
    ensures row.price.Some? ==> e.price == row.price.value
    ensures row.price.None? ==> e.price == 0.0
  {
    HistoryEntry(
      OrElse(row.productId, ""),
      OrElse(row.name, UnknownText),
      OrElse(row.category, UnknownText),
      OrElse(row.purchaseDate, now),
      OrElse(row.quantity, 0),
      OrElse(row.price, 0.0))
  }

  function HistoryList(rows: seq<HistoryRow>, now: Time): (r: seq<HistoryEntry>)
    ensures |r| <= |rows|
    decreases |rows|
  {
    if rows == [] then []
    else
      var init := HistoryList(rows[..|rows| - 1], now);
      var last := rows[|rows| - 1];
      if last.productId.Some? then init + [HistoryEntryOf(last, now)] else init
  }

  /** Rows that all carry a product become one entry each, in order; rows that all lack one become nothing. */
  lemma {:induction false} HistoryListFacts(rows: seq<HistoryRow>, now: Time)
    ensures (forall i :: 0 <= i < |rows| ==> rows[i].productId.Some?) ==>
      var r := HistoryList(rows, now);
      |r| == |rows| && forall i :: 0 <= i < |rows| ==> r[i] == HistoryEntryOf(rows[i], now)
    ensures (forall i :: 0 <= i < |rows| ==> rows[i].productId.None?) ==> HistoryList(rows, now) == []
  {
    if rows != [] {
      var init := rows[..|rows| - 1];
      HistoryListFacts(init, now);
      assert forall i :: 0 <= i < |init| ==> init[i] == rows[i];
    }
  }

  /**
   * The loop that fills the category dictionary: later rows overwrite earlier
   * ones, and the first row with a null category raises.
   */
  function CountsMap(rows: seq<CategoryRow>): (r: Result<map<string, nat>, Failure>)
    ensures r.Err? ==> r.error == NullCategoryKey
    decreases |rows|
  {
    if rows == [] then Ok(map[])
    else
      var init := CountsMap(rows[..|rows| - 1]);
      var last := rows[|rows| - 1];
      if init.Err? then init
      else if last.category.None? then Err(NullCategoryKey)
      else Ok(init.value[last.category.value := last.count])
  }

  // ------------------------------------------------------------ the calls

  function CreateUserCall(g: Graph, faults: set<nat>, n: nat, uid: string, name: Option<string>, email: Option<string>, now: Time): Run<()>
  {
    var s := CreateUserStmt(uid, name, email);
    if Refused(faults, n, s) then Refuse(g, faults, n, s)
    else Run(Ok(()), [s], UpsertUser(g, uid, name, email, now))
  }

  function CreateProductCall(g: Graph, faults: set<nat>, n: nat, pid: string, name: Option<string>, category: Option<string>, price: real, now: Time): Run<()>
  {
    var s := CreateProductStmt(pid, name, category, price);
    if Refused(faults, n, s) then Refuse(g, faults, n, s)
    else Run(Ok(()), [s], UpsertProduct(g, pid, name, category, price, now))
  }

  function PersonalizedCall(g: Graph, faults: set<nat>, n: nat, uid: string, limit: Int32): Run<seq<RecommendedProduct>>
  {
    var s := PersonalizedStmt(uid, limit);
    if Refused(faults, n, s) then Refuse(g, faults, n, s)
    else
      var net := MergeUser(g.net, uid);
      Run(Ok(RecommendedList(PersonalizedRows(net, uid, limit as nat))), [s], g.(net := net))
  }

  function SimilarProductsCall(g: Graph, faults: set<nat>, n: nat, pid: string, limit: Int32): Run<seq<SimilarProduct>>
  {
    var s := SimilarProductsStmt(pid, limit);
    if Refused(faults, n, s) then Refuse(g, faults, n, s)
    else Run(Ok(SimilarList(SimilarRows(g.net, pid, limit as nat))), [s], g)
  }

  function TrendingCall(g: Graph, faults: set<nat>, n: nat, now: Time, days: Int32, limit: Int32): Run<seq<TrendingProduct>>
  {
    var s := TrendingStmt(days, limit);
    if Refused(faults, n, s) then Refuse(g, faults, n, s)
    else Run(Ok(TrendingList(TrendingRows(g.net, now, days, limit as nat))), [s], g)
  }

  /** The statements sent for `items`, one per item in list order. */
  function PurchaseStatements(uid: string, orderId: string, items: seq<PurchaseItem>): (r: seq<Statement>)
    ensures |r| == |items| && forall i :: 0 <= i < |items| ==> r[i] == PurchaseStmt(uid, orderId, items[i])
    decreases |items|
  {
    if items == [] then []
    else PurchaseStatements(uid, orderId, items[..|items| - 1]) + [PurchaseStmt(uid, orderId, items[|items| - 1])]
  }

  /**
   * How many of `m` statements sent from position `n` on are accepted before
   * the first refused one.
   */
  function Accepted(faults: set<nat>, n: nat, m: nat): (k: nat)
    ensures k <= m
    ensures forall p :: n <= p < n + k ==> p !in faults
    ensures k < m ==> n + k in faults
  {
    if m == 0 then 0
    else
      var k := Accepted(faults, n, m - 1);
      if k < m - 1 then k
      else if n + (m - 1) in faults then m - 1
      else m
  }

  /**
   * RecordPurchaseAsync: one statement per item, in list order; the first
   * refused statement raises, so the items before it stay recorded and the
   * items after it are never sent.
   */
  function PurchaseCall(g: Graph, faults: set<nat>, n: nat, uid: string, orderId: string, items: seq<PurchaseItem>, now: Time): Run<()>
  {
    var k := Accepted(faults, n, |items|);
    if k < |items| then
      Run(Err(StoreUnavailable), PurchaseStatements(uid, orderId, items[..k + 1]), ApplyPurchases(g, uid, orderId, items[..k], now))
    else
      Run(Ok(()), PurchaseStatements(uid, orderId, items), ApplyPurchases(g, uid, orderId, items, now))
  }

  lemma PurchaseStatementsGrow(uid: string, orderId: string, items: seq<PurchaseItem>, i: nat)
    requires i < |items|
    ensures PurchaseStatements(uid, orderId, items[..i + 1])
      == PurchaseStatements(uid, orderId, items[..i]) + [PurchaseStmt(uid, orderId, items[i])]
  {
    assert items[..i + 1][..i] == items[..i];
  }

  lemma AcceptedGrows(faults: set<nat>, n: nat, i: nat)
    requires Accepted(faults, n, i) == i && n + i !in faults
    ensures Accepted(faults, n, i + 1) == i + 1
  {
  }

  /** After `i` accepted statements, a refusal at position `n + i` is where acceptance stops. */
  lemma {:induction false} AcceptedStops(faults: set<nat>, n: nat, i: nat, m: nat)
    requires i < m && Accepted(faults, n, i) == i && n + i in faults
    ensures Accepted(faults, n, m) == i
    decreases m
  {
    if m > i + 1 {
      AcceptedStops(faults, n, i, m - 1);
    }
  }

  /** A refusal at the `i`-th item ends the call there. */
  lemma PurchaseCallStops(g: Graph, faults: set<nat>, n: nat, uid: string, orderId: string, items: seq<PurchaseItem>, now: Time, i: nat)
    requires i < |items| && Accepted(faults, n, i) == i && n + i in faults
    ensures PurchaseCall(g, faults, n, uid, orderId, items, now)
      == Run(Err(StoreUnavailable), PurchaseStatements(uid, orderId, items[..i + 1]), ApplyPurchases(g, uid, orderId, items[..i], now))
  {
    AcceptedStops(faults, n, i, |items|);
  }

  /** Once a prefix of the rows has raised, the whole loop raises. */
  lemma {:induction false} CountsMapErrorSticks(rows: seq<CategoryRow>, k: nat)
    requires k <= |rows| && CountsMap(rows[..k]).Err?
    ensures CountsMap(rows).Err?
    decreases |rows| - k
  {
    if k < |rows| {
      assert rows[..k + 1][..k] == rows[..k];
      CountsMapErrorSticks(rows, k + 1);
    } else {
      assert rows[..k] == rows;
    }
  }

  function ViewCall(g: Graph, faults: set<nat>, n: nat, uid: string, pid: string, duration: Int32, source: Option<string>, now: Time): Run<()>
  {
    var s := ViewStmt(uid, pid, duration, source);
    if Refused(faults, n, s) then Refuse(g, faults, n, s)
    else Run(Ok(()), [s], ApplyView(g, uid, pid, duration, source, now))
  }

  function HistoryCall(g: Graph, faults: set<nat>, n: nat, uid: string, limit: Int32, now: Time): Run<seq<HistoryEntry>>
  {
    var s := HistoryStmt(uid, limit);
    if Refused(faults, n, s) then Refuse(g, faults, n, s)
    else
      var net := MergeUser(g.net, uid);
      Run(Ok(HistoryList(HistoryRows(net, uid, limit as nat), now)), [s], g.(net := net))
  }

  function SimilarUsersCall(g: Graph, faults: set<nat>, n: nat, uid: string, limit: Int32): Run<seq<string>>
  {
    var s := SimilarUsersStmt(uid, limit);
    if Refused(faults, n, s) then Refuse(g, faults, n, s)
    else Run(Ok(SimilarUserIds(g.net, uid, limit as nat)), [s], g)
  }

  function CategoryCountsCall(g: Graph, faults: set<nat>, n: nat, uid: string): Run<map<string, nat>>
  {
    var s := CategoryCountsStmt(uid);
    if Refused(faults, n, s) then Refuse(g, faults, n, s)
    else
      var counts := CountsMap(CategoryRows(g.net, uid));
      Run(if counts.Err? then Err(counts.error) else Ok(counts.value), [s], g)
  }

  function CandidateIdsCall(g: Graph, faults: set<nat>, n: nat, uid: string, others: seq<string>, limit: Int32): Run<seq<string>>
  {
    var s := CandidateIdsStmt(uid, others, limit);
    if Refused(faults, n, s) then Refuse(g, faults, n, s)
    else Run(Ok(CandidateIds(g.net, uid, others, limit as nat)), [s], g)
  }

  function TouchCall(g: Graph, faults: set<nat>, n: nat, uid: string, now: Time): Run<()>
  {
    var s := TouchStmt(uid);
    if Refused(faults, n, s) then Refuse(g, faults, n, s)
    else Run(Ok(()), [s], TouchUser(g, uid, now))
  }
}
