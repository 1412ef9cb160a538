// What the graph writes guarantee: they keep the graph well formed, keep one node
// per id, overwrite or accumulate exactly the properties their statements name,
// and what the counting queries count.

module GraphFacts {
  import opened Common
  import opened Ranking
  import opened RecommendationDtos
  import opened Graph

  // ------------------------------------------------------------ well-formedness

  lemma MergeUserKeepsWellFormed(n: Network, uid: string)
    requires WellFormedNet(n)
    ensures WellFormedNet(MergeUser(n, uid))
    ensures uid in MergeUser(n, uid).users
    ensures |MergeUser(n, uid).users| == |n.users| + (if uid in n.users then 0 else 1)
    ensures forall v :: v in MergeUser(n, uid).users <==> v in n.users || v == uid
  {
    var m := MergeUser(n, uid);
    if uid !in n.users {
      assert m.users == n.users + [uid];
      assert forall v :: v in m.users <==> v in n.users || v == uid;
      forall i, j | 0 <= i < j < |m.users| ensures m.users[i] != m.users[j] {
        if j == |n.users| { assert m.users[i] in n.users; }
      }
    }
  }

  lemma MergeProductKeepsWellFormed(n: Network, pid: string)
    requires WellFormedNet(n)
    ensures WellFormedNet(MergeProduct(n, pid))
    ensures pid in MergeProduct(n, pid).products
    ensures |MergeProduct(n, pid).productIds| == |n.productIds| + (if pid in n.products then 0 else 1)
  {
    var m := MergeProduct(n, pid);
    if pid !in n.products {
      assert pid !in n.productIds;
      assert forall p :: p in m.productIds <==> p in n.productIds || p == pid;
      forall i, j | 0 <= i < j < |m.productIds| ensures m.productIds[i] != m.productIds[j] {
        if j == |n.productIds| { assert m.productIds[i] in n.productIds; }
      }
    }
  }

  /**
   * CreateUserIfNotExists keeps one node per id, and re-stamps joinedDate and
   * lastActive with the current time even when the user already existed.
   */
  lemma UpsertUserFacts(g: Graph, uid: string, name: Option<string>, email: Option<string>, now: Time)
    requires WellFormed(g)
    ensures var h := UpsertUser(g, uid, name, email, now);
      && WellFormed(h)
      && |h.net.users| == |g.net.users| + (if uid in g.net.users then 0 else 1)
      && uid in h.net.users && (forall v :: v in g.net.users ==> v in h.net.users)
      && PropsOf(h, uid) == UserProps(name, email, Some(now), Some(now))
      && (forall v :: v != uid ==> PropsOf(h, v) == PropsOf(g, v))
      && h.net.productIds == g.net.productIds && h.net.products == g.net.products
      && h.net.purchased == g.net.purchased && h.net.viewed == g.net.viewed
  {
    MergeUserKeepsWellFormed(g.net, uid);
  }

  /** A second identical call changes nothing: the upsert is idempotent. */
  lemma UpsertUserIdempotent(g: Graph, uid: string, name: Option<string>, email: Option<string>, now: Time)
    ensures var h := UpsertUser(g, uid, name, email, now);
      UpsertUser(h, uid, name, email, now) == h
  {
    var h := UpsertUser(g, uid, name, email, now);
    assert uid in h.net.users;
  }

  /**
   * CreateProductIfNotExists keeps one node per id, sets name, category and
   * price from the arguments, and resets viewCount, purchaseCount and rating to
   * 0 whatever they were before; no other node or relationship changes.
   */
  lemma UpsertProductFacts(g: Graph, pid: string, name: Option<string>, category: Option<string>, price: real, now: Time)
    requires WellFormed(g)
    ensures var h := UpsertProduct(g, pid, name, category, price, now);
      && WellFormed(h)
      && |h.net.productIds| == |g.net.productIds| + (if pid in g.net.products then 0 else 1)
      && pid in h.net.productIds && (forall q :: q in g.net.productIds ==> q in h.net.productIds)
      && ProductOf(h.net, pid).name == name
      && ProductOf(h.net, pid).category == category
      && ProductOf(h.net, pid).price == Some(price)
      && ProductOf(h.net, pid).viewCount == Some(0)
      && ProductOf(h.net, pid).purchaseCount == Some(0)
      && ProductOf(h.net, pid).rating == Some(0.0)
      && ProductOf(h.net, pid).createdAt == Some(now)
      && (forall q :: q != pid ==> ProductOf(h.net, q) == ProductOf(g.net, q))
      && h.net.users == g.net.users && h.userProps == g.userProps
      && h.net.purchased == g.net.purchased && h.net.viewed == g.net.viewed
  {
    MergeProductKeepsWellFormed(g.net, pid);
  }

  lemma UpsertProductIdempotent(g: Graph, pid: string, name: Option<string>, category: Option<string>, price: real, now: Time)
    ensures var h := UpsertProduct(g, pid, name, category, price, now);
      UpsertProduct(h, pid, name, category, price, now) == h
  {
    var h := UpsertProduct(g, pid, name, category, price, now);
    assert pid in h.net.products;
  }

  lemma ApplyPurchaseKeepsWellFormed(g: Graph, uid: string, orderId: string, item: PurchaseItem, now: Time)
    requires WellFormed(g)
    ensures WellFormed(ApplyPurchase(g, uid, orderId, item, now))
  {
    var n1 := MergeUser(g.net, uid);
    MergeUserKeepsWellFormed(g.net, uid);
    MergeProductKeepsWellFormed(n1, item.productId);
  }

  lemma ApplyPurchasesGrow(g: Graph, uid: string, orderId: string, items: seq<PurchaseItem>, i: nat, now: Time)
    requires i < |items|
    ensures ApplyPurchases(g, uid, orderId, items[..i + 1], now)
      == ApplyPurchase(ApplyPurchases(g, uid, orderId, items[..i], now), uid, orderId, items[i], now)
  {
    assert items[..i + 1][..i] == items[..i];
  }

  lemma {:induction false} ApplyPurchasesKeepsWellFormed(g: Graph, uid: string, orderId: string, items: seq<PurchaseItem>, now: Time)
    requires WellFormed(g)
    ensures WellFormed(ApplyPurchases(g, uid, orderId, items, now))
    decreases |items|
  {
    if items != [] {
      ApplyPurchasesKeepsWellFormed(g, uid, orderId, items[..|items| - 1], now);
      ApplyPurchaseKeepsWellFormed(ApplyPurchases(g, uid, orderId, items[..|items| - 1], now), uid, orderId, items[|items| - 1], now);
    }
  }

  lemma ApplyViewKeepsWellFormed(g: Graph, uid: string, pid: string, duration: Int32, source: Option<string>, now: Time)
    requires WellFormed(g)
    ensures WellFormed(ApplyView(g, uid, pid, duration, source, now))
  {
    var n1 := MergeUser(g.net, uid);
    MergeUserKeepsWellFormed(g.net, uid);
    MergeProductKeepsWellFormed(n1, pid);
  }

  /**
   * UpdateUserLastActive only matches: it never creates a node, never touches
   * what the read queries see, and stamps only an existing user.
   */
  lemma TouchUserFacts(g: Graph, uid: string, now: Time)
    requires WellFormed(g)
    ensures var h := TouchUser(g, uid, now);
      && WellFormed(h)
      && h.net == g.net
      && (uid in g.net.users ==> PropsOf(h, uid).lastActive == Some(now))
      && (uid !in g.net.users ==> h == g)
      && forall v :: v != uid ==> PropsOf(h, v) == PropsOf(g, v)
  {
  }

  // ------------------------------------------------------------ purchases

  /** How many of `items` name product `pid`. */
  function CountFor(items: seq<PurchaseItem>, pid: string): nat
    decreases |items|
  {
    if items == [] then 0
    else CountFor(items[..|items| - 1], pid) + (if items[|items| - 1].productId == pid then 1 else 0)
  }

  /** The last of `items` naming `pid`. */
  function LastFor(items: seq<PurchaseItem>, pid: string): (it: PurchaseItem)
    requires CountFor(items, pid) > 0
    ensures it in items && it.productId == pid
    decreases |items|
  {
    var last := items[|items| - 1];
    if last.productId == pid then last
    else
      var it := LastFor(items[..|items| - 1], pid);
      assert it in items[..|items| - 1];
      it
  }

  /**
   * Recording `items` adds exactly one to `pid`'s purchaseCount per item naming
   * it (a missing count counts as 0), and changes no other property of any
   * product.
   */
  lemma {:induction false} PurchaseCountGrowth(g: Graph, uid: string, orderId: string, items: seq<PurchaseItem>, now: Time, pid: string)
    ensures var c0 := ProductOf(g.net, pid).purchaseCount;
      var k := CountFor(items, pid);
      var after := ProductOf(ApplyPurchases(g, uid, orderId, items, now).net, pid);
      && after.purchaseCount == (if k == 0 then c0 else Some(OrElse(c0, 0) + k))
      && after.(purchaseCount := c0) == ProductOf(g.net, pid)
    decreases |items|
  {
    if items != [] {
      var init := items[..|items| - 1];
      PurchaseCountGrowth(g, uid, orderId, init, now, pid);
    }
  }

  /**
   * Recording `items` leaves one PURCHASED edge per (user, product): the edge from
   * `uid` to every product named by an item carries the LAST such item's order
   * id, quantity and price and the current time; every other edge is as before.
   */
  lemma {:induction false} PurchaseEdgeLatestWins(g: Graph, uid: string, orderId: string, items: seq<PurchaseItem>, now: Time, v: string, pid: string)
    ensures var after := ApplyPurchases(g, uid, orderId, items, now).net.purchased;
      && ((v, pid) in after <==> (v, pid) in g.net.purchased || (v == uid && CountFor(items, pid) > 0))
      && (v == uid && CountFor(items, pid) > 0 ==>
            var last := LastFor(items, pid);
            after[(v, pid)] == Purchase(orderId, now, last.quantity, last.price))
      && (!(v == uid && CountFor(items, pid) > 0) && (v, pid) in g.net.purchased ==>
            after[(v, pid)] == g.net.purchased[(v, pid)])
    decreases |items|
  {
    if items != [] {
      PurchaseEdgeLatestWins(g, uid, orderId, items[..|items| - 1], now, v, pid);
    }
  }

  // ------------------------------------------------------------ views

  /**
   * A view adds exactly one to the product's viewCount, leaves one VIEWED edge
   * from the user carrying the latest view, and changes nothing else about any
   * product or purchase.
   */
  lemma ViewFacts(g: Graph, uid: string, pid: string, duration: Int32, source: Option<string>, now: Time)
    ensures var h := ApplyView(g, uid, pid, duration, source, now);
      var c0 := ProductOf(g.net, pid).viewCount;
      && ProductOf(h.net, pid).viewCount == Some(OrElse(c0, 0) + 1)
      && ProductOf(h.net, pid).(viewCount := c0) == ProductOf(g.net, pid)
      && (forall q :: q != pid ==> ProductOf(h.net, q) == ProductOf(g.net, q))
      && h.net.viewed == g.net.viewed[(uid, pid) := View(now, duration, source)]
      && h.net.purchased == g.net.purchased
  {
  }

  // ------------------------------------------------------------ counting queries

  lemma {:induction false} PairImageSize(buyers: set<string>, pid: string)
    ensures |set u | u in buyers :: (u, pid)| == |buyers|
    decreases |buyers|
  {
    if buyers != {} {
      var x :| x in buyers;
      var rest := buyers - {x};
      PairImageSize(rest, pid);
      assert (set u | u in buyers :: (u, pid)) == (set u | u in rest :: (u, pid)) + {(x, pid)};
    }
  }

  /** The users whose PURCHASED edge into `pid` is dated at or after `since`. */
  function RecentBuyers(n: Network, pid: string, since: Time): set<string>
  {
    set u | u in n.users && (u, pid) in n.purchased && n.purchased[(u, pid)].purchaseDate >= since
  }

  /**
   * Because purchases MERGE one edge per (user, product), the trending count
   * `COUNT(r)` is the number of distinct users whose latest purchase of the
   * product falls in the window.
   */
  lemma RecentCountIsDistinctBuyers(n: Network, pid: string, since: Time)
    requires WellFormedNet(n)
    ensures RecentCount(n, pid, since) == |RecentBuyers(n, pid, since)|
  {
    var buyers := RecentBuyers(n, pid, since);
    assert RecentEdges(n, pid, since) == set u | u in buyers :: (u, pid);
    PairImageSize(buyers, pid);
  }

  /** A personalized candidate is exactly a product some other user bought and `uid` did not. */
  lemma PersonalCandidateMeaning(n: Network, uid: string, pid: string)
    ensures PersonalCandidate(n, uid, pid) <==>
      (uid, pid) !in n.purchased && exists v :: v in n.users && v != uid && (v, pid) in n.purchased
  {
    if exists v :: v in n.users && v != uid && (v, pid) in n.purchased {
      var v :| v in n.users && v != uid && (v, pid) in n.purchased;
      assert v in OtherBuyers(n, uid, pid);
    }
    if Popularity(n, uid, pid) > 0 {
      var v :| v in OtherBuyers(n, uid, pid);
    }
  }

  /** Two users are similar exactly when they share a purchased product. */
  lemma SimilarUserMeaning(n: Network, uid: string, v: string)
    ensures SimilarUser(n, uid, v) <==>
      v != uid && exists p :: p in n.productIds && (uid, p) in n.purchased && (v, p) in n.purchased
  {
    if exists p :: p in n.productIds && (uid, p) in n.purchased && (v, p) in n.purchased {
      var p :| p in n.productIds && (uid, p) in n.purchased && (v, p) in n.purchased;
      assert p in CommonProducts(n, uid, v);
    }
    if |CommonProducts(n, uid, v)| > 0 {
      var p :| p in CommonProducts(n, uid, v);
    }
  }
}
