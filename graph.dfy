// The Neo4j graph behind the recommendation repository, as a value, and the
// meaning of each Cypher statement the repository sends: the writes as functions
// from graph to graph, the reads as the rows they return.
//
// Node identity is the `userId` / `productId` key that every MERGE uses, so each
// id names at most one node; a (user, product) pair names at most one PURCHASED
// and at most one VIEWED relationship, because the writes MERGE those too.

module Graph {
  import opened Common
  import opened Ranking
  import opened RecommendationDtos

  datatype UserProps = UserProps(
    name: Option<string>,
    email: Option<string>,
    joinedDate: Option<Time>,
    lastActive: Option<Time>)

  /** A user node created by a bare MERGE carries no properties besides its id. */
  const NoProps: UserProps := UserProps(None, None, None, None)

  datatype ProductNode = ProductNode(
    name: Option<string>,
    category: Option<string>,
    price: Option<real>,
    viewCount: Option<int>,
    purchaseCount: Option<int>,
    rating: Option<real>,
    createdAt: Option<Time>)

  /** A product node created by a bare MERGE carries no properties besides its id. */
  const BareProduct: ProductNode := ProductNode(None, None, None, None, None, None, None)

  /** Properties of a PURCHASED relationship. */
  datatype Purchase = Purchase(orderId: string, purchaseDate: Time, quantity: Int32, price: real)

  /** Properties of a VIEWED relationship. */
  datatype View = View(viewedAt: Time, duration: Int32, source: Option<string>)

  /**
   * Everything the read queries look at: node ids in creation order, product
   * properties, and the two relationship types keyed by (userId, productId).
   */
  datatype Network = Network(
    users: seq<string>,
    productIds: seq<string>,
    products: map<string, ProductNode>,
    purchased: map<(string, string), Purchase>,
    viewed: map<(string, string), View>)

  /** The whole graph: user properties, which no read query returns, beside the network. */
  datatype Graph = Graph(userProps: map<string, UserProps>, net: Network)

  const EmptyGraph: Graph := Graph(map[], Network([], [], map[], map[], map[]))

  ghost predicate WellFormedNet(n: Network)
  {
    && Distinct(n.users)
    && Distinct(n.productIds)
    && (forall p :: p in n.products <==> p in n.productIds)
    && (forall e :: e in n.purchased ==> e.0 in n.users && e.1 in n.products)
    && (forall e :: e in n.viewed ==> e.0 in n.users && e.1 in n.products)
  }

  /** At most one node per id, relationships between existing nodes, properties only on existing users. */
  ghost predicate WellFormed(g: Graph)
  {
    WellFormedNet(g.net) && forall u :: u in g.userProps ==> u in g.net.users
  }

  function ProductOf(n: Network, pid: string): ProductNode
  {
    if pid in n.products then n.products[pid] else BareProduct
  }

  function PropsOf(g: Graph, uid: string): UserProps
  {
    if uid in g.userProps then g.userProps[uid] else NoProps
  }

  // ---------------------------------------------------------------- writes

  /** `MERGE (u:User {userId: $userId})`. */
  function MergeUser(n: Network, uid: string): Network
  {
    if uid in n.users then n else n.(users := n.users + [uid])
  }

  /** `MERGE (p:Product {productId: $productId})`. */
  function MergeProduct(n: Network, pid: string): Network
  {
    if pid in n.products then n
    else n.(productIds := n.productIds + [pid], products := n.products[pid := BareProduct])
  }

  /** `SET u.lastActive = datetime()`. */
  function Stamp(props: map<string, UserProps>, uid: string, now: Time): map<string, UserProps>
  {
    props[uid := (if uid in props then props[uid] else NoProps).(lastActive := Some(now))]
  }

  /** `COALESCE(x, 0) + 1`. */
  function Bump(x: Option<int>): int
  {
    if x.Some? then x.value + 1 else 1
  }

  /** CreateUserIfNotExistsAsync: MERGE the user, then SET all four properties. */
  function UpsertUser(g: Graph, uid: string, name: Option<string>, email: Option<string>, now: Time): Graph
  {
    Graph(g.userProps[uid := UserProps(name, email, Some(now), Some(now))], MergeUser(g.net, uid))
  }

  /** CreateProductIfNotExistsAsync: MERGE the product, then SET name, category, price, zeroed counters and createdAt. */
  function UpsertProduct(g: Graph, pid: string, name: Option<string>, category: Option<string>, price: real, now: Time): Graph
  {
    var n := MergeProduct(g.net, pid);
    g.(net := n.(products := n.products[pid := ProductNode(name, category, Some(price), Some(0), Some(0), Some(0.0), Some(now))]))
  }

  /**
   * One execution of the purchase statement: MERGE the user and stamp lastActive,
   * MERGE the product, MERGE the PURCHASED edge and overwrite its four
   * properties, then add one to the product's purchaseCount.
   */
  function ApplyPurchase(g: Graph, uid: string, orderId: string, item: PurchaseItem, now: Time): Graph
  {
    var n := MergeProduct(MergeUser(g.net, uid), item.productId);
    var p := ProductOf(n, item.productId);
    Graph(
      Stamp(g.userProps, uid, now),
      n.(purchased := n.purchased[(uid, item.productId) := Purchase(orderId, now, item.quantity, item.price)],
         products := n.products[item.productId := p.(purchaseCount := Some(Bump(p.purchaseCount)))]))
  }

  /** The purchase statement run once per item, in list order. */
  function ApplyPurchases(g: Graph, uid: string, orderId: string, items: seq<PurchaseItem>, now: Time): Graph
    decreases |items|
  {
    if items == [] then g
    else ApplyPurchase(ApplyPurchases(g, uid, orderId, items[..|items| - 1], now), uid, orderId, items[|items| - 1], now)
  }

  /**
   * The view statement: MERGE both nodes and the VIEWED edge, overwrite the
   * edge's properties and add one to the product's viewCount.
   */
  function ApplyView(g: Graph, uid: string, pid: string, duration: Int32, source: Option<string>, now: Time): Graph
  {
    var n := MergeProduct(MergeUser(g.net, uid), pid);
    var p := ProductOf(n, pid);
    Graph(
      Stamp(g.userProps, uid, now),
      n.(viewed := n.viewed[(uid, pid) := View(now, duration, source)],
         products := n.products[pid := p.(viewCount := Some(Bump(p.viewCount)))]))
  }

  /** UpdateUserLastActiveAsync: `MATCH` (not MERGE) the user, then stamp lastActive. */
  function TouchUser(g: Graph, uid: string, now: Time): Graph
  {
    if uid in g.net.users then g.(userProps := Stamp(g.userProps, uid, now)) else g
  }

  // ---------------------------------------------------------------- reads

  /** The ORDER BY key of `purchaseCount DESC`: nodes without the property first. */
  function PurchaseCountRank(n: Network, pid: string): Rank
  {
    var c := ProductOf(n, pid).purchaseCount;
    var k := NullsFirst(c.Some?, OrElse(c, 0));
    Rank(k.0, k.1, 0)
  }

  function PurchaseCountKey(n: Network): string -> Rank
  {
    pid => PurchaseCountRank(n, pid)
  }

  // Personalized recommendations.

  /** The users other than `uid` with a PURCHASED edge to `pid` (`COUNT(DISTINCT similar)`). */
  function OtherBuyers(n: Network, uid: string, pid: string): set<string>
  {
    set v | v in n.users && v != uid && (v, pid) in n.purchased
  }

  function Popularity(n: Network, uid: string, pid: string): nat
  {
    |OtherBuyers(n, uid, pid)|
  }

  /** Some other user bought `pid` and `uid` did not. */
  predicate PersonalCandidate(n: Network, uid: string, pid: string)
  {
    (uid, pid) !in n.purchased && Popularity(n, uid, pid) > 0
  }

  /** `ORDER BY popularity DESC, rec.purchaseCount DESC`. */
  function PersonalRank(n: Network, uid: string, pid: string): Rank
  {
    var c := PurchaseCountRank(n, pid);
    Rank(Popularity(n, uid, pid), c.major, c.middle)
  }

  function PersonalKey(n: Network, uid: string): string -> Rank
  {
    pid => PersonalRank(n, uid, pid)
  }

  function IsPersonalCandidate(n: Network, uid: string): string -> bool
  {
    pid => PersonalCandidate(n, uid, pid)
  }

  function PersonalCandidates(n: Network, uid: string): seq<string>
  {
    Filter(n.productIds, IsPersonalCandidate(n, uid))
  }

  /** The products the personalized query returns, best first. */
  function PersonalizedIds(n: Network, uid: string, limit: nat): (r: seq<string>)
    ensures |r| <= limit
  {
    Top(PersonalCandidates(n, uid), PersonalKey(n, uid), limit)
  }

  /** One row of the personalized query; all fields but popularity are nullable. */
  datatype PersonalRow = PersonalRow(
    productId: Option<string>,
    name: Option<string>,
    category: Option<string>,
    price: Option<real>,
    rating: Option<real>,
    popularity: nat)

  /** The row OPTIONAL MATCH produces when nothing matches: every column null, popularity 0. */
  const NullPersonalRow: PersonalRow := PersonalRow(None, None, None, None, None, 0)

  function PersonalRowOf(n: Network, uid: string, pid: string): PersonalRow
  {
    var p := ProductOf(n, pid);
    PersonalRow(Some(pid), p.name, p.category, p.price, p.rating, Popularity(n, uid, pid))
  }

  /** The rows of the personalized query (run after the user has been merged). */
  function PersonalizedRows(n: Network, uid: string, limit: nat): (rows: seq<PersonalRow>)
    ensures |rows| <= limit
  {
    if PersonalCandidates(n, uid) == [] then (if limit == 0 then [] else [NullPersonalRow])
    else
      var ids := PersonalizedIds(n, uid, limit);
      seq(|ids|, i requires 0 <= i < |ids| => PersonalRowOf(n, uid, ids[i]))
  }

  // Similar products.

  /** Another product with the same, present, category (`null = null` does not hold in Cypher). */
  predicate SameCategory(n: Network, pid: string, other: string)
  {
    other != pid && ProductOf(n, other).category.Some? && ProductOf(n, other).category == ProductOf(n, pid).category
  }

  function IsSameCategory(n: Network, pid: string): string -> bool
  {
    other => SameCategory(n, pid, other)
  }

  function SimilarProductIds(n: Network, pid: string, limit: nat): (r: seq<string>)
    ensures |r| <= limit
  {
    if pid !in n.products then []
    else
      Top(Filter(n.productIds, IsSameCategory(n, pid)), PurchaseCountKey(n), limit)
  }

  datatype SimilarRow = SimilarRow(productId: string, name: Option<string>, category: Option<string>, price: Option<real>)

  function SimilarRows(n: Network, pid: string, limit: nat): (rows: seq<SimilarRow>)
    ensures |rows| <= limit
  {
    var ids := SimilarProductIds(n, pid, limit);
    seq(|ids|, i requires 0 <= i < |ids| =>
      var p := ProductOf(n, ids[i]); SimilarRow(ids[i], p.name, p.category, p.price))
  }

  // Trending products.

  /** The PURCHASED edges into `pid` dated at or after `since` (the rows `COUNT(r)` counts). */
  function RecentEdges(n: Network, pid: string, since: Time): set<(string, string)>
  {
    set e | e in n.purchased && e.1 == pid && n.purchased[e].purchaseDate >= since
  }

  function RecentCount(n: Network, pid: string, since: Time): nat
  {
    |RecentEdges(n, pid, since)|
  }

  function TrendKey(n: Network, since: Time): string -> Rank
  {
    pid => Rank(RecentCount(n, pid, since), 0, 0)
  }

  function IsRecent(n: Network, since: Time): string -> bool
  {
    pid => RecentCount(n, pid, since) > 0
  }

  function TrendingIds(n: Network, since: Time, limit: nat): (r: seq<string>)
    ensures |r| <= limit
  {
    Top(Filter(n.productIds, IsRecent(n, since)), TrendKey(n, since), limit)
  }

  datatype TrendRow = TrendRow(productId: string, name: Option<string>, category: Option<string>, price: Option<real>, recentPurchases: nat)

  /** `r.purchaseDate >= datetime() - duration({days: $days})`. */
  function WindowStart(now: Time, days: int): Time
  {
    now - days * SecondsPerDay
  }

  function TrendingRows(n: Network, now: Time, days: int, limit: nat): (rows: seq<TrendRow>)
    ensures |rows| <= limit
  {
    var since := WindowStart(now, days);
    var ids := TrendingIds(n, since, limit);
    seq(|ids|, i requires 0 <= i < |ids| =>
      var p := ProductOf(n, ids[i]); TrendRow(ids[i], p.name, p.category, p.price, RecentCount(n, ids[i], since)))
  }

  // Purchase history.

  function IsPurchasedBy(n: Network, uid: string): string -> bool
  {
    pid => (uid, pid) in n.purchased
  }

  function PurchaseDateOf(n: Network, uid: string, pid: string): Time
  {
    if (uid, pid) in n.purchased then n.purchased[(uid, pid)].purchaseDate else 0
  }

  function HistoryKey(n: Network, uid: string): string -> Rank
  {
    pid => Rank(PurchaseDateOf(n, uid, pid), 0, 0)
  }

  function HistoryIds(n: Network, uid: string, limit: nat): (r: seq<string>)
    ensures |r| <= limit
  {
    Top(PurchasedIds(n, uid), HistoryKey(n, uid), limit)
  }

  datatype HistoryRow = HistoryRow(
    productId: Option<string>,
    name: Option<string>,
    category: Option<string>,
    purchaseDate: Option<Time>,
    quantity: Option<int>,
    price: Option<real>)

  const NullHistoryRow: HistoryRow := HistoryRow(None, None, None, None, None, None)

  function HistoryRowOf(n: Network, uid: string, pid: string): HistoryRow
    requires (uid, pid) in n.purchased
  {
    var p := ProductOf(n, pid);
    var r := n.purchased[(uid, pid)];
    HistoryRow(Some(pid), p.name, p.category, Some(r.purchaseDate), Some(r.quantity), Some(r.price))
  }

  /** The rows of the history query (run after the user has been merged). */
  function HistoryRows(n: Network, uid: string, limit: nat): (rows: seq<HistoryRow>)
    ensures |rows| <= limit
  {
    if PurchasedIds(n, uid) == [] then (if limit == 0 then [] else [NullHistoryRow])
    else
      var ids := HistoryIds(n, uid, limit);
      seq(|ids|, i requires 0 <= i < |ids| => HistoryRowOf(n, uid, ids[i]))
  }

  // Similar users.

  /** The products both users have a PURCHASED edge to (`COUNT(DISTINCT p)`). */
  function CommonProducts(n: Network, uid: string, other: string): set<string>
  {
    set p | p in n.productIds && (uid, p) in n.purchased && (other, p) in n.purchased
  }

  function SimilarUserKey(n: Network, uid: string): string -> Rank
  {
    v => Rank(|CommonProducts(n, uid, v)|, 0, 0)
  }

  predicate SimilarUser(n: Network, uid: string, v: string)
  {
    v != uid && |CommonProducts(n, uid, v)| > 0
  }

  function IsSimilarUser(n: Network, uid: string): string -> bool
  {
    v => SimilarUser(n, uid, v)
  }

  function SimilarUserIds(n: Network, uid: string, limit: nat): (r: seq<string>)
    ensures |r| <= limit
  {
    Top(Filter(n.users, IsSimilarUser(n, uid)), SimilarUserKey(n, uid), limit)
  }

  // Purchase counts per category.

  /** The products `uid` has a PURCHASED edge to, in creation order. */
  function PurchasedIds(n: Network, uid: string): (r: seq<string>)
    ensures forall p :: p in r <==> p in n.productIds && (uid, p) in n.purchased
    ensures Distinct(n.productIds) ==> Distinct(r)
  {
    Filter(n.productIds, IsPurchasedBy(n, uid))
  }

  /** The distinct elements of `s`, first occurrences kept. */
  function Dedupe<T(==,!new)>(s: seq<T>): (r: seq<T>)
    ensures forall x :: x in r <==> x in s
    ensures Distinct(r)
    decreases |s|
  {
    if s == [] then []
    else
      var rest := Dedupe(s[..|s| - 1]);
      var last := s[|s| - 1];
      assert s == s[..|s| - 1] + [last];
      if last in rest then rest
      else
        assert forall i :: 0 <= i < |rest| ==> rest[i] != last;
        rest + [last]
  }

  /** The grouping keys of `RETURN p.category, COUNT(p)`: each purchased product's category, null included. */
  function CategoryGroups(n: Network, uid: string): (r: seq<Option<string>>)
    ensures Distinct(r)
    ensures forall c :: c in r <==> exists p :: p in PurchasedIds(n, uid) && ProductOf(n, p).category == c
  {
    var ids := PurchasedIds(n, uid);
    var cats := seq(|ids|, i requires 0 <= i < |ids| => ProductOf(n, ids[i]).category);
    assert forall c :: c in cats <==> exists p :: p in ids && ProductOf(n, p).category == c by {
      forall c ensures c in cats <==> exists p :: p in ids && ProductOf(n, p).category == c {
        if c in cats {
          var i :| 0 <= i < |cats| && cats[i] == c;
          assert ids[i] in ids;
        }
        if exists p :: p in ids && ProductOf(n, p).category == c {
          var p :| p in ids && ProductOf(n, p).category == c;
          var i :| 0 <= i < |ids| && ids[i] == p;
          assert cats[i] == c;
        }
      }
    }
    Dedupe(cats)
  }

  /** `COUNT(p)` for one category group. */
  function CountInCategory(n: Network, uid: string, c: Option<string>): nat
  {
    |set p | p in n.productIds && (uid, p) in n.purchased && ProductOf(n, p).category == c|
  }

  datatype CategoryRow = CategoryRow(category: Option<string>, count: nat)

  function CategoryRows(n: Network, uid: string): (rows: seq<CategoryRow>)
    ensures forall i :: 0 <= i < |rows| ==> rows[i].count == CountInCategory(n, uid, rows[i].category)
  {
    var groups := CategoryGroups(n, uid);
    seq(|groups|, i requires 0 <= i < |groups| => CategoryRow(groups[i], CountInCategory(n, uid, groups[i])))
  }

  // Candidate product ids.

  predicate BoughtByAnyOf(n: Network, others: seq<string>, pid: string)
  {
    exists v :: v in others && (v, pid) in n.purchased
  }

  predicate CandidateFor(n: Network, uid: string, others: seq<string>, pid: string)
  {
    (uid, pid) !in n.purchased && BoughtByAnyOf(n, others, pid)
  }

  function IsCandidateFor(n: Network, uid: string, others: seq<string>): string -> bool
  {
    pid => CandidateFor(n, uid, others, pid)
  }

  /** `RETURN DISTINCT rec.productId ORDER BY rec.purchaseCount DESC LIMIT $limit`. */
  function CandidateIds(n: Network, uid: string, others: seq<string>, limit: nat): (r: seq<string>)
    ensures |r| <= limit
  {
    if uid !in n.users then []
    else
      Top(Filter(n.productIds, IsCandidateFor(n, uid, others)), PurchaseCountKey(n), limit)
  }
}
