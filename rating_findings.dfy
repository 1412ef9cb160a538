// CreateProductIfNotExistsAsync stores `p.rating = 0`, a Cypher Integer, and
// no other statement of the repository sets a rating. The driver hands an
// Integer back boxed as a long, and the personalized read unboxes
// `record["rating"]` as a double, which raises InvalidCastException. So, as
// written, a personalized candidate that operation created makes the whole
// call raise. The rest of the model reads the stored 0 as the number 0.0, as
// `p.rating = 0.0` would store it, and uses the intended RepositorySpec calls.
//
// CreateProductIfNotExistsAsync has no caller in the services; products are
// otherwise created by a bare MERGE, whose rating stays null.

module RatingFindings {
  import opened Common
  import opened RecommendationDtos
  import opened Graph
  import opened RepositorySpec
  import opened QueryFacts
  import RepositoryFacts
  import GraphFacts

  /** A record whose product is present and whose rating, as written, is the Integer 0 of CreateProductIfNotExistsAsync. */
  predicate IntegerRated(row: PersonalRow)
  {
    row.productId.Some? && row.rating.Some?
  }

  /**
   * The `await foreach` of GetPersonalizedRecommendationsAsync as written:
   * records are read in order and the first one with a product and a
   * rating raises; without such a record the loop builds what
   * RecommendedList builds.
   */
  function RecommendedListAsWritten(rows: seq<PersonalRow>): (r: Result<seq<RecommendedProduct>, Failure>)
    ensures r.Err? <==> exists i :: 0 <= i < |rows| && IntegerRated(rows[i])
    ensures r.Err? ==> r.error == InvalidCast
    ensures r.Ok? ==> r.value == RecommendedList(rows)
    decreases |rows|
  {
    if rows == [] then Ok([])
    else
      var init := RecommendedListAsWritten(rows[..|rows| - 1]);
      var last := rows[|rows| - 1];
      assert forall i :: 0 <= i < |rows| - 1 ==> rows[..|rows| - 1][i] == rows[i];
      if init.Err? then init
      else if last.productId.None? then init
      else if last.rating.Some? then Err(InvalidCast)
      else Ok(init.value + [Recommended(last)])
  }

  /**
   * GetPersonalizedRecommendationsAsync as written. The MERGE of the user
   * has run by the time a record is read, so it stays in the graph when the
   * loop raises.
   */
  function PersonalizedCallAsWritten(g: Graph, faults: set<nat>, n: nat, uid: string, limit: Int32): (run: Run<seq<RecommendedProduct>>)
    ensures run.issued == PersonalizedCall(g, faults, n, uid, limit).issued
    ensures run.after == PersonalizedCall(g, faults, n, uid, limit).after
  {
    var s := PersonalizedStmt(uid, limit);
    if Refused(faults, n, s) then Refuse(g, faults, n, s)
    else
      var net := MergeUser(g.net, uid);
      Run(RecommendedListAsWritten(PersonalizedRows(net, uid, limit as nat)), [s], g.(net := net))
  }

  /** The personalized rows hold a rated product exactly when one of the ranked candidates has a rating. */
  lemma RatedRows(net: Network, uid: string, limit: nat)
    ensures var rows := PersonalizedRows(net, uid, limit);
      var ids := PersonalizedIds(net, uid, limit);
      (exists i :: 0 <= i < |rows| && IntegerRated(rows[i])) <==> (exists i :: 0 <= i < |ids| && ProductOf(net, ids[i]).rating.Some?)
  {
    var rows := PersonalizedRows(net, uid, limit);
    var ids := PersonalizedIds(net, uid, limit);
    if PersonalCandidates(net, uid) == [] {
      assert |ids| == 0;
      assert forall i :: 0 <= i < |rows| ==> !IntegerRated(rows[i]);
    } else {
      assert |rows| == |ids| && forall i :: 0 <= i < |ids| ==> rows[i] == PersonalRowOf(net, uid, ids[i]);
      if exists i :: 0 <= i < |ids| && ProductOf(net, ids[i]).rating.Some? {
        var i :| 0 <= i < |ids| && ProductOf(net, ids[i]).rating.Some?;
        assert IntegerRated(rows[i]);
      }
    }
  }

  /**
   * As written, an accepted personalized query raises exactly when one of
   * the ranked candidates has a rating, and otherwise returns what the
   * intended call returns.
   */
  lemma PersonalizedAsWrittenRaises(g: Graph, faults: set<nat>, n: nat, uid: string, limit: Int32)
    ensures var r := PersonalizedCallAsWritten(g, faults, n, uid, limit).result;
      && (n !in faults && limit >= 0 ==>
            var net := MergeUser(g.net, uid);
            var ids := PersonalizedIds(net, uid, limit as nat);
            (r == Err(InvalidCast) <==> exists i :: 0 <= i < |ids| && ProductOf(net, ids[i]).rating.Some?))
      && (r.Ok? ==> r == PersonalizedCall(g, faults, n, uid, limit).result)
  {
    if n !in faults && limit >= 0 {
      RatedRows(MergeUser(g.net, uid), uid, limit as nat);
    }
  }

  /**
   * A product that CreateProductIfNotExistsAsync stored and that is a
   * candidate of `uid`: with a limit above the number of products, the call
   * as written raises, while the intended call lists it with its rating.
   */
  lemma RatedCandidateRaises(g: Graph, uid: string, pid: string, limit: Int32)
    requires pid in g.net.productIds && ProductOf(g.net, pid).rating.Some?
    requires PersonalCandidate(MergeUser(g.net, uid), uid, pid)
    requires limit as int > |g.net.productIds|
    ensures PersonalizedCallAsWritten(g, {}, 0, uid, limit).result == Err(InvalidCast)
    ensures var r := PersonalizedCall(g, {}, 0, uid, limit).result;
      && r.Ok?
      && exists i :: 0 <= i < |r.value| && r.value[i].productId == pid && r.value[i].rating == ProductOf(g.net, pid).rating.value
  {
    var net := MergeUser(g.net, uid);
    var ids := PersonalizedIds(net, uid, limit as nat);
    PersonalizedIdsFacts(net, uid, limit as nat);
    assert pid in ids;
    var i :| 0 <= i < |ids| && ids[i] == pid;
    PersonalizedAsWrittenRaises(g, {}, 0, uid, limit);
    RepositoryFacts.PersonalizedCallFacts(g, {}, 0, uid, limit);
    RecommendedFacts(PersonalRowOf(net, uid, pid));
    var r := PersonalizedCall(g, {}, 0, uid, limit).result;
    assert r.value[i].productId == pid && r.value[i].rating == ProductOf(g.net, pid).rating.value;
  }

  /** The product CreateProductIfNotExistsAsync stores, bought by b. */
  const CreatedProduct: Graph := CreateProductCall(EmptyGraph, {}, 0, "p", Some("Lamp"), Some("Home"), 10.0, 0).after

  const BoughtByOther: Graph := PurchaseCall(CreatedProduct, {}, 1, "b", "o1", [PurchaseItem("p", 1, 10.0)], 1).after

  /** The graph CreateProductIfNotExistsAsync leaves in an empty store: p alone, rated 0. */
  lemma CreatedProductFacts()
    ensures var net := CreatedProduct.net;
      && net.users == [] && net.productIds == ["p"] && net.purchased == map[]
      && ProductOf(net, "p").rating == Some(0.0)
  {
    GraphFacts.UpsertProductFacts(EmptyGraph, "p", Some("Lamp"), Some("Home"), 10.0, 0);
  }

  /** The purchase call with one item and no refusal is one run of the purchase statement. */
  lemma BoughtByOtherIsOnePurchase()
    ensures BoughtByOther == ApplyPurchase(CreatedProduct, "b", "o1", PurchaseItem("p", 1, 10.0), 1)
  {
    var items := [PurchaseItem("p", 1, 10.0)];
    assert Accepted({}, 1, 1) == 1;
    assert items[..0] == [];
  }

  /** In BoughtByOther, p is the only product, rated 0, and bought by b and not by a. */
  lemma BoughtByOtherFacts()
    ensures var net := BoughtByOther.net;
      && net.productIds == ["p"]
      && ProductOf(net, "p").rating == Some(0.0)
      && PersonalCandidate(MergeUser(net, "a"), "a", "p")
  {
    CreatedProductFacts();
    BoughtByOtherIsOnePurchase();
    var net := MergeUser(BoughtByOther.net, "a");
    assert net.users == ["b", "a"];
    assert ("b", "p") in net.purchased && ("a", "p") !in net.purchased;
    assert "b" in OtherBuyers(net, "a", "p");
  }

  /**
   * Create p, let b buy it, then ask for a's recommendations: as written the
   * call raises; the intended call answers with p at rating 0.
   */
  lemma RatingCounterexample()
    ensures PersonalizedCallAsWritten(BoughtByOther, {}, 0, "a", 10).result == Err(InvalidCast)
    ensures var r := PersonalizedCall(BoughtByOther, {}, 0, "a", 10).result;
      r.Ok? && exists i :: 0 <= i < |r.value| && r.value[i].productId == "p" && r.value[i].rating == 0.0
  {
    BoughtByOtherFacts();
    RatedCandidateRaises(BoughtByOther, "a", "p", 10);
  }
}
