# Marketplace microservices: recommendations, orders and products in Dafny

This project models the rules at the centre of a three-service marketplace
and proves what those rules promise.

- **Recommendation API.** A Neo4j graph holds users, products, and
  PURCHASED and VIEWED relationships. The graph repository sends one
  Cypher statement per operation.
  - Two algorithms sit on top of it: collaborative filtering ("users who
    bought what you bought") and content-based filtering (same category,
    similar price).
  - A service delegates to the algorithms and the repository.
  - Two message consumers turn order-created and product-viewed events
    into repository writes.
  - The request DTOs carry validation attributes.
- **Order API.** An order entity with its lines, totals, status path and
  card masking. The service creates, reads, updates and cancels orders and
  publishes events. The controller turns each answer or exception into an
  HTTP response.
- **Product API.** A product entity with stock, price and rating rules.
  The product service and the category service create, update and
  decrement products and categories.

## How the model is built

- **The graph is a value.** `Graph.Graph` holds user properties and the
  network the queries read: nodes keyed by id, one relationship per
  (user, product) pair.
  - Each write statement is a function from graph to graph
    (`UpsertUser`, `ApplyPurchase`, `ApplyView`, ...).
  - Each read statement is a function from the graph to its rows.
  - `WHERE`, `ORDER BY ... DESC` and `LIMIT` are `Ranking.Filter`,
    `Ranking.SortDesc` and `Ranking.Top`.
  - Neo4j's ordering of nulls above every value (under `DESC`) is
    `Ranking.NullsFirst`.
- **The repository is a class.** `Repository.RecommendationRepository`
  keeps the graph in mutable fields and appends every statement it sends
  to `log`. `faults` is the set of log positions at which the store fails.
  - Every method is proved equal to a function `XCall(g, faults, n, ...)`.
    That function gives the result, the statements sent and the graph
    afterwards.
  - The lemmas in `RepositoryFacts` and `QueryFacts` say what those
    functions mean.
  - Each statement runs in its own auto-commit transaction: a refused
    statement changes nothing, and the statements before it stay
    committed.
  - Cypher refuses a negative `LIMIT`. The model refuses it too.
- **Recommendation algorithms and service.**
  - The collaborative-filtering steps and the service are methods over the
    repository object. Each is tied to a composed `Run` function.
  - `CollaborativeFacts` follows each path of `GetRecommendationsAsync`:
    - cold start;
    - no similar users;
    - the full collaborative path;
    - a `limit * 3` that wraps to a negative number.
- **Order and product services are classes.** Each service class has an
  `effects` field: the log of writes the store accepted and events
  published.
  - The store's answers are parameters: `GetByIdAsync`'s object or null as
    `Lookup`, the id the store assigned (or its exception) on insert, and
    `UpdateAsync`'s boolean (or its exception).
  - Entities the services change in place (`Order`, `Product`,
    `Category`) are classes with the source's fields.
- **Time, numbers and strings.**
  - Time is whole seconds, passed in as `now`: the clock (`DateTime.UtcNow`,
    Cypher `datetime()`) is a parameter.
  - C# `int` is `Common.Int32`. Unchecked overflow is written out with
    `Common.Wrap32`.
  - `decimal` and `double` are exact `real`s.
  - A null string or list is `None`, or is treated as empty where only
    validation looks at it.

Files:
- `common.dfy`: shared types.
- `ranking.dfy`: filtering, sorting and limits.
- `graph.dfy` and `graph_facts.dfy`: the graph and its statements.
- `query_facts.dfy`: what each read query selects.
- `repository_spec.dfy`, `repository_facts.dfy` and `repository.dfy`: the
  repository.
- `findings.dfy` (column names), `rating_findings.dfy` (the stored
  rating) and `mapping_findings.dfy` (the order mapping): the code as
  written where it differs from its intent.
- `collaborative.dfy` and `collaborative_facts.dfy`: collaborative
  filtering.
- `content.dfy`: content-based filtering.
- `service.dfy`: the recommendation service.
- `consumers.dfy`: the two message consumers.
- `dtos.dfy`: the recommendation DTOs.
- `orders.dfy`, `order_service.dfy` and `orders_controller.dfy`: the
  Order API.
- `products.dfy` and `product_service.dfy`: the Product API.

## Model

| member | source | states |
|---|---|---|
| Common.Wrap32 | Recommendation.API/Application/Algorithms/CollaborativeFilteringAlgorithm.cs:54 | the result differs from the exact value by a multiple of 2^32 and equals it whenever it fits in `int` (unchecked C# arithmetic) |
| Common.MinReal | Recommendation.API/Application/Algorithms/CollaborativeFilteringAlgorithm.cs:90 | `Math.Min`: at most both arguments and equal to one of them |
| Common.FoldCase | Recommendation.API/Application/Algorithms/ContentBasedFilteringAlgorithm.cs:28 | an upper-case ASCII letter becomes the same letter in lower case (by the two alphabets), every other character is kept, and no result is an upper-case letter |
| Common.FoldCaseEqual | Recommendation.API/Application/Algorithms/ContentBasedFilteringAlgorithm.cs:28 | two characters match under `OrdinalIgnoreCase` after folding exactly when they are equal or one ASCII letter in its two cases |
| Common.NatToStringValue | Recommendation.API/Application/Algorithms/CollaborativeFilteringAlgorithm.cs:96 | the `{count}` interpolation gives a non-empty string of digits that denotes the count, with no leading zero |
| Common.CountedTextOf | Recommendation.API/Application/Algorithms/CollaborativeFilteringAlgorithm.cs:96 | a message that interpolates a count before a fixed suffix carries that count: its leading digits denote it and the suffix follows |
| Graph.PurchasedIds | Recommendation.API/Infrastructure/Repositories/RecommendationRepository.cs:428-430 | exactly the products the user has a PURCHASED edge to, each once |
| Graph.Dedupe | Recommendation.API/Infrastructure/Repositories/RecommendationRepository.cs:465 | `DISTINCT`: the same elements, each once |
| Graph.CategoryGroups | Recommendation.API/Infrastructure/Repositories/RecommendationRepository.cs:428-430 | the grouping keys of `COUNT(p)` by category: each category of a purchased product once, null included |
| Graph.CategoryRows | Recommendation.API/Infrastructure/Repositories/RecommendationRepository.cs:428-430 | each row counts the purchased products in its category |
| Graph.PersonalizedIds | Recommendation.API/Infrastructure/Repositories/RecommendationRepository.cs:89-97 | at most LIMIT products; their meaning and order are in QueryFacts.PersonalizedIdsFacts and PersonalizedIdsOrder |
| Graph.PersonalizedRows | Recommendation.API/Infrastructure/Repositories/RecommendationRepository.cs:89-97 | at most LIMIT rows |
| Graph.SimilarProductIds | Recommendation.API/Infrastructure/Repositories/RecommendationRepository.cs:145-152 | at most LIMIT products; see QueryFacts.SimilarProductIdsFacts |
| Graph.SimilarRows | Recommendation.API/Infrastructure/Repositories/RecommendationRepository.cs:145-152 | at most LIMIT rows |
| Graph.TrendingIds | Recommendation.API/Infrastructure/Repositories/RecommendationRepository.cs:193-200 | at most LIMIT products; see QueryFacts.TrendingIdsFacts |
| Graph.TrendingRows | Recommendation.API/Infrastructure/Repositories/RecommendationRepository.cs:193-200 | at most LIMIT rows |
| Graph.HistoryIds | Recommendation.API/Infrastructure/Repositories/RecommendationRepository.cs:329-336 | at most LIMIT products; see QueryFacts.HistoryIdsFacts |
| Graph.HistoryRows | Recommendation.API/Infrastructure/Repositories/RecommendationRepository.cs:329-336 | at most LIMIT rows |
| Graph.SimilarUserIds | Recommendation.API/Infrastructure/Repositories/RecommendationRepository.cs:390-398 | at most LIMIT users; see QueryFacts.SimilarUserIdsFacts |
| Graph.CandidateIds | Recommendation.API/Infrastructure/Repositories/RecommendationRepository.cs:461-468 | at most LIMIT products; see QueryFacts.CandidateIdsFacts |
| GraphFacts.MergeUserKeepsWellFormed | Recommendation.API/Infrastructure/Repositories/RecommendationRepository.cs:90 | `MERGE (u:User {userId})` keeps one node per id, adds the user exactly when it was missing, and adds nobody else |
| GraphFacts.MergeProductKeepsWellFormed | Recommendation.API/Infrastructure/Repositories/RecommendationRepository.cs:55 | `MERGE (p:Product {productId})` keeps one node per id and adds the product exactly when it was missing |
| GraphFacts.UpsertUserFacts | Recommendation.API/Infrastructure/Repositories/RecommendationRepository.cs:24-30 | CreateUserIfNotExists keeps one node per id and every existing user, sets name and email, re-stamps joinedDate and lastActive even for an existing user, and changes no other user's properties, no product and no PURCHASED or VIEWED edge |
| GraphFacts.UpsertUserIdempotent | Recommendation.API/Infrastructure/Repositories/RecommendationRepository.cs:24-30 | running the same user upsert twice is running it once |
| GraphFacts.UpsertProductFacts | Recommendation.API/Infrastructure/Repositories/RecommendationRepository.cs:54-63 | CreateProductIfNotExists keeps one node per id and every existing product, sets name, category and price from the arguments, resets viewCount, purchaseCount and rating to 0, stamps createdAt, and changes no other product, no user and no edge |
| GraphFacts.UpsertProductIdempotent | Recommendation.API/Infrastructure/Repositories/RecommendationRepository.cs:54-63 | running the same product upsert twice is running it once |
| GraphFacts.ApplyPurchaseKeepsWellFormed | Recommendation.API/Infrastructure/Repositories/RecommendationRepository.cs:242-253 | one purchase statement keeps one node per id and one PURCHASED edge per pair |
| GraphFacts.ApplyPurchasesKeepsWellFormed | Recommendation.API/Infrastructure/Repositories/RecommendationRepository.cs:260-276 | the same over any list of items |
| GraphFacts.ApplyViewKeepsWellFormed | Recommendation.API/Infrastructure/Repositories/RecommendationRepository.cs:292-302 | a view statement keeps the graph well formed |
| GraphFacts.TouchUserFacts | Recommendation.API/Infrastructure/Repositories/RecommendationRepository.cs:499-502 | UpdateUserLastActive only MATCHes: no node is created, nothing the read queries see changes, and only an existing user gets lastActive = now |
| GraphFacts.LastFor | Recommendation.API/Infrastructure/Repositories/RecommendationRepository.cs:260-276 | the last item naming a product is one of the items and names that product |
| GraphFacts.PurchaseCountGrowth | Recommendation.API/Infrastructure/Repositories/RecommendationRepository.cs:242-253 | recording a list of items adds one to a product's purchaseCount per item naming it (missing count read as 0) and changes no other property of any product |
| GraphFacts.PurchaseEdgeLatestWins | Recommendation.API/Infrastructure/Repositories/RecommendationRepository.cs:242-253 | after a list of items there is one PURCHASED edge per (user, product); the edge to each named product carries the last such item's order, quantity and price and the current time; every other edge is unchanged |
| GraphFacts.ViewFacts | Recommendation.API/Infrastructure/Repositories/RecommendationRepository.cs:292-302 | a view adds one to viewCount, sets the single VIEWED edge to the latest view, and changes no other product property, product or purchase |
| GraphFacts.RecentCountIsDistinctBuyers | Recommendation.API/Infrastructure/Repositories/RecommendationRepository.cs:193-200 | the trending `COUNT(r)` equals the number of distinct users whose latest purchase of the product falls in the window |
| GraphFacts.PersonalCandidateMeaning | Recommendation.API/Infrastructure/Repositories/RecommendationRepository.cs:91-92 | a personalized candidate is exactly a product some other user bought and the user did not |
| GraphFacts.SimilarUserMeaning | Recommendation.API/Infrastructure/Repositories/RecommendationRepository.cs:390-394 | two users are similar exactly when they are different and share a purchased product |
| QueryFacts.PersonalizedIdsFacts | Recommendation.API/Infrastructure/Repositories/RecommendationRepository.cs:89-97 | only candidates are returned, each once, and a result shorter than LIMIT holds every candidate |
| QueryFacts.PersonalizedIdsOrder | Recommendation.API/Infrastructure/Repositories/RecommendationRepository.cs:93-95 | rows come by distinct other buyers, then purchaseCount, descending, and no candidate left out ranks above one kept |
| QueryFacts.SimilarProductIdsFacts | Recommendation.API/Infrastructure/Repositories/RecommendationRepository.cs:145-152 | an unknown product has none; otherwise only other products of the same category, each once, never the product itself, all of them when fewer than LIMIT |
| QueryFacts.SimilarProductIdsOrder | Recommendation.API/Infrastructure/Repositories/RecommendationRepository.cs:149-150 | rows come by purchaseCount descending and no same-category product left out ranks above one kept |
| QueryFacts.TrendingIdsFacts | Recommendation.API/Infrastructure/Repositories/RecommendationRepository.cs:193-200 | only products with a purchase in the window, each once, all of them when fewer than LIMIT |
| QueryFacts.TrendingIdsOrder | Recommendation.API/Infrastructure/Repositories/RecommendationRepository.cs:197-198 | rows come by recent purchase count descending and none left out ranks above one kept |
| QueryFacts.HistoryIdsFacts | Recommendation.API/Infrastructure/Repositories/RecommendationRepository.cs:329-336 | only the user's own purchases, each once, all of them when fewer than LIMIT |
| QueryFacts.HistoryIdsOrder | Recommendation.API/Infrastructure/Repositories/RecommendationRepository.cs:333-334 | latest purchase first, and no purchase left out is later than one kept |
| QueryFacts.SimilarUserIdsFacts | Recommendation.API/Infrastructure/Repositories/RecommendationRepository.cs:390-398 | never the user, only users sharing a purchase, each once, all of them when fewer than LIMIT |
| QueryFacts.SimilarUserIdsEmpty | Recommendation.API/Infrastructure/Repositories/RecommendationRepository.cs:390-398 | with a positive limit the list is empty exactly when nobody shares a purchase |
| QueryFacts.SimilarUserIdsOrder | Recommendation.API/Infrastructure/Repositories/RecommendationRepository.cs:395-396 | users come by number of shared products descending and none left out shares more than one kept |
| QueryFacts.CandidateIdsFacts | Recommendation.API/Infrastructure/Repositories/RecommendationRepository.cs:461-468 | an unknown user has none; otherwise only products bought by one of the given users and not by the user, each once, all of them when fewer than LIMIT |
| QueryFacts.CandidateIdsEmpty | Recommendation.API/Infrastructure/Repositories/RecommendationRepository.cs:461-468 | for a known user and a positive limit the list is empty exactly when no product qualifies |
| QueryFacts.CandidateIdsOrder | Recommendation.API/Infrastructure/Repositories/RecommendationRepository.cs:465-467 | products come by purchaseCount descending and none left out ranks above one kept |
| Ranking.NullsFirst | Recommendation.API/Infrastructure/Repositories/RecommendationRepository.cs:94 | as a descending sort key, a missing property sorts above every present value, as Neo4j orders nulls |
| Ranking.Filter | Recommendation.API/Infrastructure/Repositories/RecommendationRepository.cs:92 | `WHERE`: exactly the kept elements, in order, no duplicates introduced |
| Ranking.FilterEmpty | Recommendation.API/Infrastructure/Repositories/RecommendationRepository.cs:92 | the filter is empty exactly when no element is kept |
| Ranking.Insert | Recommendation.API/Infrastructure/Repositories/RecommendationRepository.cs:94 | inserting into a sorted list keeps it sorted and is a permutation of the list plus the element |
| Ranking.SortDesc | Recommendation.API/Infrastructure/Repositories/RecommendationRepository.cs:94 | `ORDER BY ... DESC`: sorted and a permutation of its input |
| Ranking.SortedSplit | Recommendation.API/Infrastructure/Repositories/RecommendationRepository.cs:95 | everything past position n of a sorted list ranks at or below the first n |
| Ranking.Top | Recommendation.API/Infrastructure/Repositories/RecommendationRepository.cs:94-95 | `ORDER BY ... DESC LIMIT n`: min(n, length) rows drawn from the input, sorted, and no row left out ranks above one kept |
| Ranking.TopFacts | Recommendation.API/Infrastructure/Repositories/RecommendationRepository.cs:94-95 | a prefix of a sorted permutation is drawn from the input and dominates what it leaves out |
| Ranking.SelectFacts | Recommendation.API/Infrastructure/Repositories/RecommendationRepository.cs:91-95 | `WHERE ... ORDER BY ... DESC LIMIT n`: at most n rows, all kept, sorted, dominating every kept row left out, and all kept rows when fewer than n |
| RepositorySpec.Refusal | Recommendation.API/Infrastructure/Repositories/RecommendationRepository.cs:133-137 | a refusal is a negative LIMIT only for an otherwise accepted statement, a store failure only at a failing position |
| RepositorySpec.Refuse | Recommendation.API/Infrastructure/Repositories/RecommendationRepository.cs:133-137 | a refused single statement raises, is sent once, and leaves the graph unchanged |
| RepositorySpec.Recommended | Recommendation.API/Infrastructure/Repositories/RecommendationRepository.cs:114-126 | a personalized row becomes a DTO with its product id, name and category present, no image, and 0 <= confidence <= score <= 1, with score 1 exactly from 10 other buyers and confidence 1 exactly from 20; a stored rating is read as the number it denotes, the intended reading (as written see RatingFindings) |
| RepositorySpec.RecommendedFacts | Recommendation.API/Infrastructure/Repositories/RecommendationRepository.cs:114-126 | each field from its row: a null name or category becomes "Unknown", a null price or rating 0; below saturation the score is popularity/10 and the confidence popularity/20; the reason states the popularity. A present rating is the row's value, the intended reading: as written, the Integer rating CreateProductIfNotExistsAsync stores raises (RatingFindings) |
| RepositorySpec.RecommendedList | Recommendation.API/Infrastructure/Repositories/RecommendationRepository.cs:110-128 | no more DTOs than rows |
| RepositorySpec.RecommendedListFacts | Recommendation.API/Infrastructure/Repositories/RecommendationRepository.cs:110-128 | rows that all carry a product id become one DTO each, in order; rows with a null product id (the empty OPTIONAL MATCH) become nothing |
| RepositorySpec.SimilarOf | Recommendation.API/Infrastructure/Repositories/RecommendationRepository.cs:167-175 | a similar row keeps id, name and category and is scored 0.85 |
| RepositorySpec.SimilarList | Recommendation.API/Infrastructure/Repositories/RecommendationRepository.cs:165-176 | one SimilarProduct per row, in order |
| RepositorySpec.TrendingOf | Recommendation.API/Infrastructure/Repositories/RecommendationRepository.cs:215-224 | a trending row keeps its id and count, and its trend score lies in [0, 1], reaching 1 from 10 recent purchases |
| RepositorySpec.TrendingList | Recommendation.API/Infrastructure/Repositories/RecommendationRepository.cs:213-225 | one entry per row, in order |
| RepositorySpec.HistoryEntryOf | Recommendation.API/Infrastructure/Repositories/RecommendationRepository.cs:351-371 | a history row keeps its product id, name and category ("Unknown" for null), purchase date (the current time when missing), quantity and price (0 when null) |
| RepositorySpec.HistoryList | Recommendation.API/Infrastructure/Repositories/RecommendationRepository.cs:349-373 | no more entries than rows |
| RepositorySpec.HistoryListFacts | Recommendation.API/Infrastructure/Repositories/RecommendationRepository.cs:349-373 | rows that all carry a product id become one entry each, in order; rows that all lack one become nothing |
| RepositorySpec.CountsMap | Recommendation.API/Infrastructure/Repositories/RecommendationRepository.cs:440-446 | the only way the dictionary fill raises is a null category key |
| RepositorySpec.CountsMapErrorSticks | Recommendation.API/Infrastructure/Repositories/RecommendationRepository.cs:440-446 | once a prefix of the rows raises, the whole fill raises |
| RepositorySpec.PurchaseStatements | Recommendation.API/Infrastructure/Repositories/RecommendationRepository.cs:260-276 | one purchase statement per item, in list order |
| RepositorySpec.Accepted | Recommendation.API/Infrastructure/Repositories/RecommendationRepository.cs:260-285 | the number of statements accepted before the first refused one: all positions before it succeed, and it stops at a failing one |
| RepositorySpec.AcceptedStops | Recommendation.API/Infrastructure/Repositories/RecommendationRepository.cs:260-285 | a refusal at the i-th statement is where acceptance stops, however many follow |
| RepositorySpec.PurchaseCallStops | Recommendation.API/Infrastructure/Repositories/RecommendationRepository.cs:260-285 | a refusal at the i-th item raises, after sending i + 1 statements and keeping the first i items applied |
| RepositoryFacts.PersonalizedCallFacts | Recommendation.API/Infrastructure/Repositories/RecommendationRepository.cs:86-140 | one statement; it raises exactly for a store failure or a negative LIMIT (and then changes nothing); otherwise the user is merged and there is one DTO per ranked candidate, in rank order, with the product's name and category ("Unknown" for null), score min(p/10, 1), confidence min(p/20, 1) and a reason stating p, where p is the number of other users who bought it. This is the call with the rating read as intended; as written a rated candidate raises InvalidCastException (RatingFindings.PersonalizedAsWrittenRaises) |
| RepositoryFacts.PersonalizedEntries | Recommendation.API/Infrastructure/Repositories/RecommendationRepository.cs:110-128 | the DTOs built from the personalized rows are one per ranked candidate, in rank order |
| RepositoryFacts.RecsOfRows | Recommendation.API/Infrastructure/Repositories/RecommendationRepository.cs:110-128 | rows built from product ids give one DTO per id |
| RepositoryFacts.SimilarProductsCallFacts | Recommendation.API/Infrastructure/Repositories/RecommendationRepository.cs:142-188 | read-only; raises exactly for a store failure or a negative LIMIT; otherwise one entry per ranked same-category product with its category and score 0.85 |
| RepositoryFacts.TrendingCallFacts | Recommendation.API/Infrastructure/Repositories/RecommendationRepository.cs:190-237 | read-only; raises exactly for a store failure or a negative LIMIT; otherwise one entry per ranked product with its purchase count in the window and trend score min(count / 10, 1) |
| RepositoryFacts.HistoryCallFacts | Recommendation.API/Infrastructure/Repositories/RecommendationRepository.cs:327-385 | raises exactly for a store failure or a negative LIMIT; otherwise the user is merged and each entry is that user's PURCHASED edge to a ranked product, with the product's name and category ("Unknown" for null) and the edge's date, quantity and price |
| RepositoryFacts.HistoryEntries | Recommendation.API/Infrastructure/Repositories/RecommendationRepository.cs:349-373 | the entries built from the history rows are the user's edges to the ranked products, one each, with the product's name and category ("Unknown" for null) |
| RepositoryFacts.EntriesOfRows | Recommendation.API/Infrastructure/Repositories/RecommendationRepository.cs:349-373 | history rows built from purchased products give one entry per product, carrying its name and category ("Unknown" for null) and the edge's fields |
| RepositoryFacts.PurchaseCallFacts | Recommendation.API/Infrastructure/Repositories/RecommendationRepository.cs:239-287 | succeeds exactly when no item's statement is refused, having sent them all and applied them all; on failure it raises after a prefix of the statements with every item before the refused one applied |
| RepositoryFacts.CountsMapFacts | Recommendation.API/Infrastructure/Repositories/RecommendationRepository.cs:440-446 | the fill raises exactly on a null category; otherwise its keys are the row categories and each value is the count of a row for that category |
| RepositoryFacts.CategoryRowsFacts | Recommendation.API/Infrastructure/Repositories/RecommendationRepository.cs:428-430 | the category groups are exactly the categories of the user's purchased products, null included |
| RepositoryFacts.CategoryCountsCallFacts | Recommendation.API/Infrastructure/Repositories/RecommendationRepository.cs:426-456 | read-only; raises on a store failure and otherwise exactly when a purchased product has no category |
| RepositoryFacts.CategoryCountsContents | Recommendation.API/Infrastructure/Repositories/RecommendationRepository.cs:426-456 | a returned dictionary maps each category of the user's purchases to the number of products bought in it, and is empty exactly when the user bought nothing |
| RepositoryFacts.CategoryKeys | Recommendation.API/Infrastructure/Repositories/RecommendationRepository.cs:440-446 | the dictionary's keys are the categories of the user's purchases; none when nothing was bought |
| RepositoryFacts.CategoryValues | Recommendation.API/Infrastructure/Repositories/RecommendationRepository.cs:440-446 | each value is the number of products bought in that category |
| RepositoryFacts.SimilarUsersCallFacts | Recommendation.API/Infrastructure/Repositories/RecommendationRepository.cs:387-424 | read-only; raises exactly for a store failure or a negative LIMIT; otherwise the ranked similar users (the column read by the name the query returns) |
| RepositoryFacts.CandidateIdsCallFacts | Recommendation.API/Infrastructure/Repositories/RecommendationRepository.cs:458-495 | read-only; raises exactly for a store failure or a negative LIMIT; otherwise the ranked candidate ids (the column read by the name the query returns) |
| RepositoryFacts.TouchCallFacts | Recommendation.API/Infrastructure/Repositories/RecommendationRepository.cs:497-519 | one statement, nothing any query reads changes, it fails only on a store failure, and an unknown user leaves the graph as it was |
| Repository.CollectRecommended | Recommendation.API/Infrastructure/Repositories/RecommendationRepository.cs:110-128 | the `await foreach` builds exactly RecommendedList of the rows |
| Repository.CollectSimilar | Recommendation.API/Infrastructure/Repositories/RecommendationRepository.cs:165-176 | the loop builds exactly SimilarList of the rows |
| Repository.CollectTrending | Recommendation.API/Infrastructure/Repositories/RecommendationRepository.cs:213-225 | the loop builds exactly TrendingList of the rows |
| Repository.CollectHistory | Recommendation.API/Infrastructure/Repositories/RecommendationRepository.cs:349-373 | the loop builds exactly HistoryList of the rows |
| Repository.CollectIds | Recommendation.API/Infrastructure/Repositories/RecommendationRepository.cs:409-412 | the loop that reads one id per record returns the ids in record order |
| Repository.FillCounts | Recommendation.API/Infrastructure/Repositories/RecommendationRepository.cs:440-446 | the dictionary fill equals CountsMap of the rows, raising at the first null category |
| Repository.RecommendationRepository.constructor | Recommendation.API/Infrastructure/Repositories/RecommendationRepository.cs:14-20 | an empty, well-formed graph and an empty statement log |
| Repository.RecommendationRepository.CreateUserIfNotExists | Recommendation.API/Infrastructure/Repositories/RecommendationRepository.cs:22-50 | returns and sends what CreateUserCall (see GraphFacts.UpsertUserFacts) gives on the graph before the call, and leaves the graph it gives; the graph stays well formed; a refusal is rethrown |
| Repository.RecommendationRepository.CreateProductIfNotExists | Recommendation.API/Infrastructure/Repositories/RecommendationRepository.cs:52-84 | returns and sends what CreateProductCall (see GraphFacts.UpsertProductFacts) gives on the graph before the call, and leaves the graph it gives; the graph stays well formed; a refusal is rethrown |
| Repository.RecommendationRepository.GetPersonalizedRecommendations | Recommendation.API/Infrastructure/Repositories/RecommendationRepository.cs:86-140 | returns and sends what PersonalizedCall (see RepositoryFacts.PersonalizedCallFacts) gives on the graph before the call, and leaves the graph it gives; the graph stays well formed; the intended call, whose as-written InvalidCastException on a rated candidate is RatingFindings.PersonalizedCallAsWritten |
| Repository.RecommendationRepository.GetSimilarProducts | Recommendation.API/Infrastructure/Repositories/RecommendationRepository.cs:142-188 | returns and sends what SimilarProductsCall (see RepositoryFacts.SimilarProductsCallFacts) gives on the graph before the call, and leaves the graph it gives; the graph stays well formed |
| Repository.RecommendationRepository.GetTrendingProducts | Recommendation.API/Infrastructure/Repositories/RecommendationRepository.cs:190-237 | returns and sends what TrendingCall (see RepositoryFacts.TrendingCallFacts) gives on the graph before the call, and leaves the graph it gives; the graph stays well formed |
| Repository.RecommendationRepository.RecordPurchase | Recommendation.API/Infrastructure/Repositories/RecommendationRepository.cs:239-287 | returns and sends what PurchaseCall (see RepositoryFacts.PurchaseCallFacts) gives on the graph before the call, and leaves the graph it gives; the graph stays well formed |
| Repository.RecommendationRepository.SendItems | Recommendation.API/Infrastructure/Repositories/RecommendationRepository.cs:260-276 | the `foreach` sends one statement per item up to and including the first refused one, and applies exactly the accepted prefix |
| Repository.RecommendationRepository.RecordView | Recommendation.API/Infrastructure/Repositories/RecommendationRepository.cs:289-325 | returns and sends what ViewCall (see GraphFacts.ViewFacts) gives on the graph before the call, and leaves the graph it gives; the graph stays well formed; a store error is swallowed |
| Repository.RecommendationRepository.GetUserHistory | Recommendation.API/Infrastructure/Repositories/RecommendationRepository.cs:327-385 | returns and sends what HistoryCall (see RepositoryFacts.HistoryCallFacts) gives on the graph before the call, and leaves the graph it gives; the graph stays well formed |
| Repository.RecommendationRepository.GetSimilarUsers | Recommendation.API/Infrastructure/Repositories/RecommendationRepository.cs:387-424 | returns and sends what SimilarUsersCall (see RepositoryFacts.SimilarUsersCallFacts; the code as written is in the findings) gives on the graph before the call, and leaves the graph it gives; the graph stays well formed |
| Repository.RecommendationRepository.GetUserPurchaseHistory | Recommendation.API/Infrastructure/Repositories/RecommendationRepository.cs:426-456 | returns and sends what CategoryCountsCall (see RepositoryFacts.CategoryCountsContents) gives on the graph before the call, and leaves the graph it gives; the graph stays well formed |
| Repository.RecommendationRepository.GetRecommendedProductIds | Recommendation.API/Infrastructure/Repositories/RecommendationRepository.cs:458-495 | returns and sends what CandidateIdsCall (see RepositoryFacts.CandidateIdsCallFacts; the code as written is in the findings) gives on the graph before the call, and leaves the graph it gives; the graph stays well formed |
| Repository.RecommendationRepository.UpdateUserLastActive | Recommendation.API/Infrastructure/Repositories/RecommendationRepository.cs:497-519 | returns and sends what TouchCall (see RepositoryFacts.TouchCallFacts) gives on the graph before the call, and leaves the graph it gives; the graph stays well formed; a store error is swallowed |
| ColumnFindings.SimilarUsersCallAsWritten | Recommendation.API/Infrastructure/Repositories/RecommendationRepository.cs:387-424 | as written: one statement and no write, whatever happens |
| ColumnFindings.CandidateIdsCallAsWritten | Recommendation.API/Infrastructure/Repositories/RecommendationRepository.cs:458-495 | as written: one statement and no write, whatever happens |
| ColumnFindings.CandidateIdsCallOrderRepaired | Recommendation.API/Infrastructure/Repositories/RecommendationRepository.cs:465-483 | the call with only its ORDER BY repaired: one statement and no write, whatever happens |
| ColumnFindings.SimilarUsersAsWrittenNeverAnswers | Recommendation.API/Infrastructure/Repositories/RecommendationRepository.cs:396-411 | as written, an accepted query raises exactly when the user has a similar user, and otherwise returns nothing: it never returns a similar user |
| ColumnFindings.CandidateIdsAsWrittenNeverAnswers | Recommendation.API/Infrastructure/Repositories/RecommendationRepository.cs:465-466 | as written, the call raises for every graph, user and limit: the statement is rejected for its ORDER BY on a variable the DISTINCT projection dropped, while the intended call answers whenever the store runs it with a non-negative limit |
| ColumnFindings.CandidateIdsOrderRepairedNeverAnswers | Recommendation.API/Infrastructure/Repositories/RecommendationRepository.cs:465-483 | with only the ORDER BY repaired, an accepted query for a known user raises exactly when there is a candidate, and otherwise returns nothing |
| ColumnFindings.SharedPurchaseFacts | Recommendation.API/Infrastructure/Repositories/RecommendationRepository.cs:390-394 | in the two-user graph, a and b share a product and q is a candidate for a from b |
| ColumnFindings.SimilarUsersRaise | Recommendation.API/Infrastructure/Repositories/RecommendationRepository.cs:396-411 | whenever a similar user exists and the limit exceeds the number of users, the code as written raises while the intended call lists that user |
| ColumnFindings.CandidateIdsRaise | Recommendation.API/Infrastructure/Repositories/RecommendationRepository.cs:465-483 | whenever a candidate exists and the limit exceeds the number of products, the statement as written is rejected, the call with only its ORDER BY repaired raises on the column, and the intended call lists the candidate |
| ColumnFindings.SimilarUsersCounterexample | Recommendation.API/Infrastructure/Repositories/RecommendationRepository.cs:396-411 | on the two-user graph with limit 20, the code as written raises; the intended call answers with b |
| ColumnFindings.CandidateIdsCounterexample | Recommendation.API/Infrastructure/Repositories/RecommendationRepository.cs:465-483 | on the same graph, the statement as written is rejected and the call with only its ORDER BY repaired raises; the intended call answers with q |
| ColumnFindings.CollaborativeNeverAnswers | Recommendation.API/Application/Algorithms/CollaborativeFilteringAlgorithm.cs:26-67 | with the similar-users call as written, GetRecommendationsAsync returns a non-empty list only on the cold-start path of a user with no purchase history; a user one of whose purchased products has no category gets NullCategoryKey from step 1 whenever the store is up; a user with a history who shares a purchase with someone gets MissingColumn whenever the store runs the similar-users query |
| ColumnFindings.OneBuyerFacts | Recommendation.API/Infrastructure/Repositories/RecommendationRepository.cs:242-253 | after one purchase in an empty store, a is the only user, bought p, and p has no category, since the purchase statement MERGEs the product bare |
| ColumnFindings.NullCategoryCounterexample | Recommendation.API/Infrastructure/Repositories/RecommendationRepository.cs:425-446 | after that single purchase nobody is similar to a, yet GetRecommendationsAsync for a raises the null-key exception of the category dictionary |
| RatingFindings.RecommendedListAsWritten | Recommendation.API/Infrastructure/Repositories/RecommendationRepository.cs:110-128 | as written, the loop raises InvalidCast exactly when some record has a product and a rating (the Integer 0 of line 61, which `(double)` cannot unbox), and otherwise builds what RecommendedList builds |
| RatingFindings.PersonalizedCallAsWritten | Recommendation.API/Infrastructure/Repositories/RecommendationRepository.cs:86-140 | as written: the same statement and the same graph afterwards as the intended call, the user merged even when the loop raises |
| RatingFindings.RatedRows | Recommendation.API/Infrastructure/Repositories/RecommendationRepository.cs:110-121 | the personalized rows hold a product with a rating exactly when some ranked candidate has one |
| RatingFindings.PersonalizedAsWrittenRaises | Recommendation.API/Infrastructure/Repositories/RecommendationRepository.cs:86-140 | as written, an accepted query raises InvalidCast exactly when a ranked candidate has a rating, and otherwise returns the intended result |
| RatingFindings.RatedCandidateRaises | Recommendation.API/Infrastructure/Repositories/RecommendationRepository.cs:52-140 | a rated candidate of the user, with a limit above the number of products: as written the call raises, while the intended call lists that product with its rating |
| RatingFindings.CreatedProductFacts | Recommendation.API/Infrastructure/Repositories/RecommendationRepository.cs:52-63 | CreateProductIfNotExistsAsync on an empty store leaves only p, rated 0, and no user or purchase |
| RatingFindings.BoughtByOtherIsOnePurchase | Recommendation.API/Infrastructure/Repositories/RecommendationRepository.cs:239-275 | a one-item RecordPurchaseAsync with no refused statement is one run of the purchase statement |
| RatingFindings.BoughtByOtherFacts | Recommendation.API/Infrastructure/Repositories/RecommendationRepository.cs:52-63 | after the create and b's purchase, p is the only product, rated 0, bought by b and not by a |
| RatingFindings.RatingCounterexample | Recommendation.API/Infrastructure/Repositories/RecommendationRepository.cs:121 | create p, let b buy it, ask for a's recommendations: as written the call raises; the intended call answers with p at rating 0 |
| RecommendationDtos.EmptyRecordViewDto | Recommendation.API/Application/DTOs/RecommendationDtos.cs:18-30 | the binder's starting object has duration 0 and source "web", and fails validation (both ids empty) |
| RecommendationDtos.ViewValidityIgnoresDurationAndSource | Recommendation.API/Application/DTOs/RecommendationDtos.cs:18-30 | only the two ids are validated: any duration and source are accepted |
| RecommendationDtos.WhiteSpaceIdsInvalid | Recommendation.API/Application/DTOs/RecommendationDtos.cs:18-25 | `[Required]` rejects an id of Unicode spaces alone (U+3000, U+2009), and one visible character makes it acceptable |
| RecommendationDtos.ValidPurchaseItemsPositive | Recommendation.API/Application/DTOs/RecommendationDtos.cs:32-55 | every item of a valid purchase has a positive quantity and price, and dropping an item from a valid list of two or more keeps it valid |
| Collaborative.CalculateUserSimilarity | Recommendation.API/Application/Algorithms/CollaborativeFilteringAlgorithm.cs:70-86 | a value in [0, 1], and 0 when either history is empty |
| Collaborative.JaccardParts | Recommendation.API/Application/Algorithms/CollaborativeFilteringAlgorithm.cs:77-85 | the intersection is no larger than the union, equal exactly when the sets are equal, and the union of a non-empty set is non-empty |
| Collaborative.SimilarityIsJaccard | Recommendation.API/Application/Algorithms/CollaborativeFilteringAlgorithm.cs:70-86 | for two non-empty histories the similarity times the union size is the intersection size (the Jaccard index) |
| Collaborative.SimilaritySymmetric | Recommendation.API/Application/Algorithms/CollaborativeFilteringAlgorithm.cs:70-86 | swapping the two users leaves the similarity unchanged |
| Collaborative.SimilarityIgnoresCounts | Recommendation.API/Application/Algorithms/CollaborativeFilteringAlgorithm.cs:77-83 | only the product ids matter, not the purchase counts |
| Collaborative.SimilarityOneIffSameProducts | Recommendation.API/Application/Algorithms/CollaborativeFilteringAlgorithm.cs:70-86 | two non-empty histories have similarity 1 exactly when they cover the same products |
| Collaborative.SimilarityZeroIffDisjoint | Recommendation.API/Application/Algorithms/CollaborativeFilteringAlgorithm.cs:70-86 | two non-empty histories have similarity 0 exactly when they share no product |
| Collaborative.SimilarityExample | Recommendation.API/Application/Algorithms/CollaborativeFilteringAlgorithm.cs:70-86 | {p1, p2, p3} against {p1, p2, p4} is 0.5 |
| Collaborative.CalculateConfidence | Recommendation.API/Application/Algorithms/CollaborativeFilteringAlgorithm.cs:88-91 | in [0, 1]: count/20 below 20 similar users, and 1 exactly from 20 |
| Collaborative.GenerateReason | Recommendation.API/Application/Algorithms/CollaborativeFilteringAlgorithm.cs:93-101 | above 10 similar users the reason gives their number before the fixed suffix; the similar-taste phrase exactly from 6 to 10; the history phrase exactly up to 5 |
| Collaborative.ConvertTrendingToRecommended | Recommendation.API/Application/Algorithms/CollaborativeFilteringAlgorithm.cs:103-115 | one DTO per trending product, in order, with its id, name, category and price, score = trend score, reason "Produit populaire", confidence 0.5, and rating 0 and no image by default |
| Collaborative.Annotate | Recommendation.API/Application/Algorithms/CollaborativeFilteringAlgorithm.cs:61-65 | every recommendation keeps its fields except confidence and reason, which become those of the similar-user count |
| Collaborative.AnnotateAll | Recommendation.API/Application/Algorithms/CollaborativeFilteringAlgorithm.cs:61-65 | the `foreach` computes exactly Annotate |
| Collaborative.CandidateLimit | Recommendation.API/Application/Algorithms/CollaborativeFilteringAlgorithm.cs:51-55 | `limit * 3` equals the exact product whenever that fits in `int` |
| Collaborative.GetSimilarUsers | Recommendation.API/Application/Algorithms/CollaborativeFilteringAlgorithm.cs:20-24 | returns and sends exactly what the repository call does, and writes nothing |
| Collaborative.ColdStart | Recommendation.API/Application/Algorithms/CollaborativeFilteringAlgorithm.cs:34-39 | the trending products of the last 30 days, converted; exactly what ColdStartCall gives |
| Collaborative.Annotated | Recommendation.API/Application/Algorithms/CollaborativeFilteringAlgorithm.cs:58-65 | steps 4 and 5: the personalized query and the annotation; exactly what AnnotatedCall gives |
| Collaborative.FromCandidates | Recommendation.API/Application/Algorithms/CollaborativeFilteringAlgorithm.cs:51-67 | steps 3 to 5; exactly what CandidatesCall gives |
| Collaborative.WarmStart | Recommendation.API/Application/Algorithms/CollaborativeFilteringAlgorithm.cs:42-67 | steps 2 to 5; exactly what WarmStartCall gives |
| Collaborative.GetRecommendations | Recommendation.API/Application/Algorithms/CollaborativeFilteringAlgorithm.cs:26-68 | returns, sends and writes exactly what RecommendationsCall gives; its behaviour is in the CollaborativeFacts rows |
| CollaborativeFacts.HistoryStep | Recommendation.API/Application/Algorithms/CollaborativeFilteringAlgorithm.cs:32-34 | a user with purchases whose categories are all known gets a non-empty dictionary, one statement and no write |
| CollaborativeFacts.ColdStartPath | Recommendation.API/Application/Algorithms/CollaborativeFilteringAlgorithm.cs:32-39 | a user who bought nothing gets exactly the converted 30-day trending list (two statements, no write, no similarity query); it fails exactly on a store failure of the second statement or a negative limit |
| CollaborativeFacts.WarmStartAfterHistory | Recommendation.API/Application/Algorithms/CollaborativeFilteringAlgorithm.cs:32-42 | past a non-empty dictionary, the call is step 2 onwards after one statement |
| CollaborativeFacts.NoSimilarUsersStep | Recommendation.API/Application/Algorithms/CollaborativeFilteringAlgorithm.cs:42-48 | no similar user: an empty list after one statement, no write |
| CollaborativeFacts.NoSimilarUsersPath | Recommendation.API/Application/Algorithms/CollaborativeFilteringAlgorithm.cs:32-48 | a user with purchases but nobody sharing one gets an empty list after two statements and no write |
| CollaborativeFacts.AnnotatedStep | Recommendation.API/Application/Algorithms/CollaborativeFilteringAlgorithm.cs:58-65 | steps 4 and 5 accepted: one statement, the user merged, one annotated DTO per ranked candidate, in rank order |
| CollaborativeFacts.AnnotatedEffects | Recommendation.API/Application/Algorithms/CollaborativeFilteringAlgorithm.cs:58 | steps 4 and 5 accepted: one statement and the user merged |
| CollaborativeFacts.CandidatesStep | Recommendation.API/Application/Algorithms/CollaborativeFilteringAlgorithm.cs:51-55 | step 3 accepted: its statement goes out with LIMIT `limit * 3` and the rest is steps 4 and 5 |
| CollaborativeFacts.WarmStartStep | Recommendation.API/Application/Algorithms/CollaborativeFilteringAlgorithm.cs:42-55 | step 2 with similar users: its statement, then step 3 on with those users |
| CollaborativeFacts.ReachesCandidates | Recommendation.API/Application/Algorithms/CollaborativeFilteringAlgorithm.cs:32-55 | with similar users and the first two statements accepted, the call continues with step 3 after exactly those two statements |
| CollaborativeFacts.CollaborativeRun | Recommendation.API/Application/Algorithms/CollaborativeFilteringAlgorithm.cs:32-65 | with the first three statements accepted, the call ends with steps 4 and 5 after exactly those three |
| CollaborativeFacts.ReachesCollaborative | Recommendation.API/Application/Algorithms/CollaborativeFilteringAlgorithm.cs:32-48 | a user with purchases, known categories and a user sharing a purchase gets past steps 1 and 2 |
| CollaborativeFacts.CollaborativeRunStatements | Recommendation.API/Application/Algorithms/CollaborativeFilteringAlgorithm.cs:32-65 | past steps 1 and 2 with steps 3 and 4 accepted: exactly the four statements, and only the user merged |
| CollaborativeFacts.CollaborativeRunResult | Recommendation.API/Application/Algorithms/CollaborativeFilteringAlgorithm.cs:58-67 | past steps 1 and 2 with steps 3 and 4 accepted: the personalized list of the merged user, annotated with the similar-user count |
| CollaborativeFacts.CollaborativeStatements | Recommendation.API/Application/Algorithms/CollaborativeFilteringAlgorithm.cs:26-68 | with similar users and every statement accepted: the similar list is non-empty, four statements go out, and the only write is the MERGE of the user |
| CollaborativeFacts.CollaborativeResult | Recommendation.API/Application/Algorithms/CollaborativeFilteringAlgorithm.cs:26-68 | with similar users and every statement accepted, the result is the personalized list with each entry's confidence and reason from the similar-user count; the candidate ids are fetched and not used |
| CollaborativeFacts.CandidatesOnlyMergeUser | Recommendation.API/Application/Algorithms/CollaborativeFilteringAlgorithm.cs:51-65 | steps 3 to 5 send one or two statements and at most merge the user |
| CollaborativeFacts.RecommendationsOnlyMergeUser | Recommendation.API/Application/Algorithms/CollaborativeFilteringAlgorithm.cs:26-68 | whatever the store does, the call sends one to four statements, the first being the category query, and its only possible write is the MERGE of the user |
| CollaborativeFacts.CandidateLimitWraps | Recommendation.API/Application/Algorithms/CollaborativeFilteringAlgorithm.cs:54 | 0x3000_0000 * 3 wraps to -0x7000_0000 in unchecked `int` |
| CollaborativeFacts.CandidatesRefused | Recommendation.API/Application/Algorithms/CollaborativeFilteringAlgorithm.cs:51-55 | a wrapped-negative `limit * 3` makes step 3 raise, whatever the similar users |
| CollaborativeFacts.LargeLimitRefused | Recommendation.API/Application/Algorithms/CollaborativeFilteringAlgorithm.cs:51-55 | a user with similar users who asks for 0x3000_0000 recommendations gets an exception instead |
| CollaborativeFacts.RecommendationsNetOnly | Recommendation.API/Application/Algorithms/CollaborativeFilteringAlgorithm.cs:26-68 | the call reads only the network: graphs differing in user properties alone give the same answer and statements |
| ContentBased.CategoryScore | Recommendation.API/Application/Algorithms/ContentBasedFilteringAlgorithm.cs:28 | 1 exactly when the second category is present and equal to the first ignoring case, 0 exactly otherwise (a null second category never matches) |
| ContentBased.PriceScore | Recommendation.API/Application/Algorithms/ContentBasedFilteringAlgorithm.cs:30-32 | in [0, 1]; 0 when the mean price is not positive; for a positive mean, 1 - gap/mean while the gap is below the mean and 0 once it reaches it, and 1 exactly for equal prices |
| ContentBased.RatioFacts | Recommendation.API/Application/Algorithms/ContentBasedFilteringAlgorithm.cs:32 | a gap over a positive mean is non-negative, 0 exactly for no gap, and at least 1 once the gap reaches the mean |
| ContentBased.CalculateProductSimilarity | Recommendation.API/Application/Algorithms/ContentBasedFilteringAlgorithm.cs:26-35 | raises NullReferenceException exactly when the first category is null; otherwise in [0, 1], at least 0.7 exactly when the categories match ignoring case, at most 0.3 otherwise, and 0 when they differ and the mean price is not positive or the gap reaches it |
| ContentBased.EqualsIgnoreCaseSymmetric | Recommendation.API/Application/Algorithms/ContentBasedFilteringAlgorithm.cs:28 | case-insensitive equality is symmetric |
| ContentBased.ProductSimilaritySymmetric | Recommendation.API/Application/Algorithms/ContentBasedFilteringAlgorithm.cs:26-35 | for two present categories, swapping both categories and both prices gives the same result |
| ContentBased.NullCategoryAsymmetric | Recommendation.API/Application/Algorithms/ContentBasedFilteringAlgorithm.cs:28 | a null first category raises, while a null second one scores only the price part, 0.3 x PriceScore |
| ContentBased.SameCategoryAndPriceIsOne | Recommendation.API/Application/Algorithms/ContentBasedFilteringAlgorithm.cs:26-35 | the same present category at the same positive price scores 1 |
| ContentBased.DifferentCategoryFarPriceIsZero | Recommendation.API/Application/Algorithms/ContentBasedFilteringAlgorithm.cs:26-35 | Electronics at 100 against Books at 20 scores 0 |
| ContentBased.CategoryCaseIgnored | Recommendation.API/Application/Algorithms/ContentBasedFilteringAlgorithm.cs:28 | "Electronics" and "ELECTRONICS" are the same category |
| ContentBased.FindSimilarByCategory | Recommendation.API/Application/Algorithms/ContentBasedFilteringAlgorithm.cs:19-24 | returns and sends exactly what the repository's similar-products call does, and writes nothing |
| Service.TouchCannotAbort | Recommendation.API/Application/Services/RecommendationService.cs:26-50 | the last-active stamp goes out first and once, and whether or not the store accepts it the caller gets what collaborative filtering gives on the graph as it was |
| Service.GetPersonalizedRecommendations | Recommendation.API/Application/Services/RecommendationService.cs:26-50 | returns, sends and writes exactly what PersonalizedServiceCall (stamp, then collaborative filtering) gives |
| Service.GetSimilarProducts | Recommendation.API/Application/Services/RecommendationService.cs:52-74 | returns, sends and writes exactly what the content-based lookup gives, and writes nothing |
| Service.GetTrendingProducts | Recommendation.API/Application/Services/RecommendationService.cs:76-94 | returns, sends and writes exactly what TrendingCall gives, with the defaults 7 days and 10 products |
| Service.RecordPurchase | Recommendation.API/Application/Services/RecommendationService.cs:96-125 | returns, sends and writes exactly what PurchaseCall gives; a failure reaches the caller |
| Service.RecordView | Recommendation.API/Application/Services/RecommendationService.cs:127-150 | returns, sends and writes exactly what ViewCall gives, with the defaults duration 0 and source "web"; nothing is raised |
| Service.GetUserHistory | Recommendation.API/Application/Services/RecommendationService.cs:152-174 | returns, sends and writes exactly what HistoryCall gives, with the default limit 20 |
| Consumers.ToPurchaseItems | Recommendation.API/Infrastructure/Messaging/OrderCreatedEventConsumer.cs:33-38 | one purchase item per event item, in order, with the same product, quantity and price |
| Consumers.CreatedAtIgnored | Recommendation.API/Infrastructure/Messaging/OrderCreatedEventConsumer.cs:21-59 | the order's own timestamp is not forwarded: the outcome does not depend on it |
| Consumers.ConsumeOrderCreated | Recommendation.API/Infrastructure/Messaging/OrderCreatedEventConsumer.cs:21-59 | records the purchase exactly as OrderCreatedCall gives and lets its failure through |
| Consumers.ViewedAtIgnored | Recommendation.API/Infrastructure/Messaging/ProductViewedEventConsumer.cs:20-46 | the view's own timestamp is not forwarded |
| Consumers.ProductViewedSendsOne | Recommendation.API/Infrastructure/Messaging/ProductViewedEventConsumer.cs:20-46 | exactly one view statement per event, with its user, product, duration and source |
| Consumers.ConsumeProductViewed | Recommendation.API/Infrastructure/Messaging/ProductViewedEventConsumer.cs:20-46 | forwards the view exactly as ProductViewedCall gives; nothing is raised |
| OrderDomain.CalculateItemTotal | Order.API/Domain/Entities/OrderItem.cs:23-26 | quantity times unit price: 0 for no units, non-negative for non-negative inputs; ItemTotalExample gives 2 x 49.99 = 99.98 |
| OrderDomain.CalculateTotal | Order.API/Domain/Entities/Order.cs:46-49 | 0 for no lines |
| OrderDomain.CalculateTotalAppend | Order.API/Domain/Entities/Order.cs:46-49 | the total of two lists of lines is the sum of their totals |
| OrderDomain.PriceItems | Order.API/Application/Services/OrderService.cs:41-44 | the same lines with TotalPrice = quantity x unit price and every other field kept |
| OrderDomain.PricedTotal | Order.API/Application/Services/OrderService.cs:41-47 | once every line is priced, the order total is the sum of quantity x unit price |
| OrderDomain.LineSumNonNegative | Order.API/Application/Services/OrderService.cs:41-47 | non-negative quantities and prices give a non-negative total |
| OrderDomain.ItemTotalExample | Order.API/Domain/Entities/OrderItem.cs:23-26 | two units at 49.99 make 99.98 |
| OrderDomain.CancellableBeforeShipping | Order.API/Domain/Entities/Order.cs:57-62 | an order can be cancelled exactly while Pending, Confirmed or Processing, the stages before Shipped |
| OrderDomain.MaskCardNumber | Order.API/Application/Services/OrderService.cs:213-219 | four stars, then the last four characters when there are at least four; length 4 or 8 |
| OrderDomain.MaskHidesPrefix | Order.API/Application/Services/OrderService.cs:213-219 | numbers ending in the same four characters mask alike |
| OrderDomain.MaskStable | Order.API/Application/Services/OrderService.cs:213-219 | masking a masked number changes nothing |
| OrderDomain.MaskPayment | Order.API/Application/Services/OrderService.cs:53-57 | a payment with a card number gets the masked number and CVV "***"; name, expiry and method are kept; no payment or no card number is left as sent |
| OrderDomain.ValidCreateOrderFacts | Order.API/Application/DTOs/OrderDto.cs:49-67 | a valid request names a user and has a line, and stays valid whatever its nested objects hold |
| OrderDomain.NoItemsInvalid | Order.API/Application/DTOs/OrderDto.cs:58-60 | a request without items, or with an empty list, is invalid |
| OrderDomain.MapCreateOrder | Order.API/Application/MappingProfile.cs:14-20 | the intended mapping: the entity is Pending, stamped now twice, and carries the request's lines (none for null). The profile as written configures no map from `Items` to `OrderItems`; that version is MappingFindings.MapCreateOrderAsWritten |
| OrderDomain.Order.constructor | Order.API/Domain/Entities/Order.cs:8-43 | the entity holds exactly the given fields |
| OrderDomain.Order.UpdateStatus | Order.API/Domain/Entities/Order.cs:51-55 | the new status and the time of the change; no other field moves |
| OrderApplication.PrepareOrderFacts | Order.API/Application/Services/OrderService.cs:34-57 | the order to be stored is Pending, numbered and stamped now, keeps the request's user, address and lines with each TotalPrice = quantity x unit price, totals their sum, and carries the masked payment; this is over the intended mapping, and as written the order has no lines and total 0 (MappingFindings.AsWrittenDropsLines) |
| OrderApplication.CreateOnceEach | Order.API/Application/Services/OrderService.cs:59-72 | an accepted create writes once and publishes once, an event with the stored order's id, user, lines, total and time |
| OrderApplication.StatusEventFacts | Order.API/Application/Services/OrderService.cs:140-159 | the status event, with the old and the new status, is sent exactly when the order exists and the store modified it |
| OrderApplication.CancelFacts | Order.API/Application/Services/OrderService.cs:170-204 | an unknown order is KeyNotFound and an order past processing (Delivered included) InvalidOperation, both without a write; otherwise the stored order is Cancelled, and the event "Cancelled by user" goes out exactly when the store modified it |
| OrderApplication.CancelTwiceRefused | Order.API/Application/Services/OrderService.cs:181-187 | once a cancel has gone through, cancelling the stored order again is refused with the status message |
| OrderApplication.OrdersOf | Order.API/Application/Services/OrderService.cs:91-94 | exactly the stored orders of that user, no more than stored |
| OrderApplication.OrderService.constructor | Order.API/Application/Services/OrderService.cs:18-28 | no writes or events yet |
| OrderApplication.OrderService.CreateOrder | Order.API/Application/Services/OrderService.cs:30-83 | returns CreateResult and appends CreateEffects (the insert and the event on success, nothing on failure); their content is in PrepareOrderFacts and CreateOnceEach. It maps with the intended OrderDomain.MapCreateOrder; as written the lines are dropped (MappingFindings) |
| MappingFindings.MapCreateOrderAsWritten | Order.API/Application/MappingProfile.cs:14-20 | the profile as written: the intended mapping with no lines, since no member map pairs `Items` with `OrderItems` and the entity keeps its empty list |
| MappingFindings.AsWrittenDropsLines | Order.API/Application/Services/OrderService.cs:34-47 | for every valid request, the order as written has no lines and total 0, while the intended order has the request's lines, at least one, and their sum as total; all other fields agree |
| MappingFindings.MappingCounterexample | Order.API/Tests/Integration/OrdersControllerIntegrationTests.cs:33-82 | the integration test's request (two at 49.99) is valid; as written its order has no line and total 0, intended are one line and 99.98 |
| OrderApplication.OrderService.MaskCard | Order.API/Application/Services/OrderService.cs:53-57 | the entity's payment becomes MaskPayment of it; no other field moves |
| OrderApplication.OrderService.PriceLines | Order.API/Application/Services/OrderService.cs:41-44 | the loop computes exactly PriceItems of the lines |
| OrderApplication.OrderService.GetOrders | Order.API/Application/Services/OrderService.cs:85-107 | a store failure is rethrown; a null or empty user id gives all stored orders, any other the orders of that user |
| OrderApplication.OrderService.GetOrderById | Order.API/Application/Services/OrderService.cs:109-127 | a store failure is rethrown, a missing order is KeyNotFound with the id in its message, a found order is returned |
| OrderApplication.OrderService.UpdateOrderStatus | Order.API/Application/Services/OrderService.cs:129-168 | returns StatusResult and appends StatusEffects; the fetched entity takes the new status and time |
| OrderApplication.OrderService.CancelOrder | Order.API/Application/Services/OrderService.cs:170-211 | returns CancelResult and appends CancelEffects; a cancellable entity becomes Cancelled at now, any other is untouched |
| OrderApi.EstimateExistsBeforeDelivery | Order.API/API/Controllers/OrdersController.cs:228-241 | an estimate exists exactly before delivery and is at least three days after creation |
| OrderApi.EstimateSoonerAsOrderAdvances | Order.API/API/Controllers/OrdersController.cs:228-241 | further along Pending, Confirmed, Processing, Shipped, the estimate is strictly sooner |
| OrderApi.CancellableHasEstimate | Order.API/API/Controllers/OrdersController.cs:228-241 | a cancellable order has an estimate at least five days after creation |
| OrderApi.OrdersResponse | Order.API/API/Controllers/OrdersController.cs:28-40 | 200 with the list exactly when the service answered, 500 otherwise (GetUserOrders, lines 75-87, has its own message) |
| OrderApi.OrderResponse | Order.API/API/Controllers/OrdersController.cs:50-66 | 200 exactly for an order, 404 exactly for KeyNotFound, 500 otherwise |
| OrderApi.TrackingResponse | Order.API/API/Controllers/OrdersController.cs:199-226 | 200 exactly for an order, carrying its estimated delivery; 404 exactly for KeyNotFound |
| OrderApi.CreateGuard | Order.API/API/Controllers/OrdersController.cs:101-109 | 400 exactly for a missing body or no items |
| OrderApi.ValidPassesGuard | Order.API/API/Controllers/OrdersController.cs:101-109 | a request that passes validation passes the controller's guard |
| OrderApi.CreateResponse | Order.API/API/Controllers/OrdersController.cs:111-118 | 201 pointing at the new order exactly when the service answered, 500 otherwise |
| OrderApi.StatusResponse | Order.API/API/Controllers/OrdersController.cs:130-152 | 200 exactly on true, 404 exactly on false or KeyNotFound, 500 otherwise |
| OrderApi.CancelResponse | Order.API/API/Controllers/OrdersController.cs:163-189 | 200 exactly on true, 404 exactly on false or KeyNotFound, 400 with the exception's message exactly on InvalidOperation |
| OrderApi.CancelPastProcessingIsBadRequest | Order.API/API/Controllers/OrdersController.cs:163-189 | cancelling a stored order past processing is a 400 naming its status, with nothing written |
| OrderApi.CancelMissingIsNotFound | Order.API/API/Controllers/OrdersController.cs:163-189 | cancelling an unknown order is a 404 with nothing written |
| OrderApi.CreateOrder | Order.API/API/Controllers/OrdersController.cs:97-119 | a request the guard refuses gets its 400 and reaches no service; any other gets CreateResponse of the service's result and its effects |
| OrderApi.UpdateOrderStatus | Order.API/API/Controllers/OrdersController.cs:130-152 | StatusResponse of the service's result, with its effects |
| OrderApi.CancelOrder | Order.API/API/Controllers/OrdersController.cs:163-189 | CancelResponse of the service's result, with its effects |
| ProductDomain.Decrement | Product.API/Domain/Entities/Product.cs:47-60 | quantity <= 0 is an ArgumentException and more than the stock an InvalidOperation; otherwise the stock drops by the quantity (never below 0), UpdatedAt is now, the status becomes OutOfStock at 0 and is kept otherwise, and nothing else moves |
| ProductDomain.DecrementTwice | Product.API/Domain/Entities/Product.cs:47-60 | two decrements that both go through equal one by their sum |
| ProductDomain.DecrementExample | Product.API/Domain/Entities/Product.cs:47-60 | stock 10 less 5 leaves 5, still Available |
| ProductDomain.Reprice | Product.API/Domain/Entities/Product.cs:62-69 | accepted exactly for a non-negative price, which it sets with UpdatedAt now; a negative price is an ArgumentException |
| ProductDomain.Review | Product.API/Domain/Entities/Product.cs:71-82 | accepted exactly for a rating in [0, 5]; the count goes up by one in unchecked `int`, UpdatedAt is now, and nothing else but the rating moves |
| ProductDomain.ReviewKeepsMean | Product.API/Domain/Entities/Product.cs:76-79 | a rating that is the mean of the reviews so far stays the mean after one more review |
| ProductDomain.MeanStep | Product.API/Domain/Entities/Product.cs:77-79 | (mean x k + r) / (k + 1) is the mean of k + 1 values |
| ProductDomain.ReviewStaysInRange | Product.API/Domain/Entities/Product.cs:71-82 | a rating in [0, 5] stays in [0, 5] after a review |
| ProductDomain.RangeStep | Product.API/Domain/Entities/Product.cs:77-79 | folding a value in [0, 5] into a mean in [0, 5] stays in [0, 5] |
| ProductDomain.ReviewAll | Product.API/Domain/Entities/Product.cs:71-82 | reviews added one after another raise the count by their number |
| ProductDomain.ReviewsAverage | Product.API/Domain/Entities/Product.cs:71-82 | from no reviews, any run of ratings in [0, 5] is accepted and leaves Rating at their mean and ReviewCount at their number |
| ProductDomain.Product.constructor | Product.API/Domain/Entities/Product.cs:7-44 | the entity holds exactly the given fields |
| ProductDomain.Product.DecrementStock | Product.API/Domain/Entities/Product.cs:47-60 | the entity becomes Decrement's result, or is untouched when it raises |
| ProductDomain.Product.UpdatePrice | Product.API/Domain/Entities/Product.cs:62-69 | the entity becomes Reprice's result, or is untouched when it raises |
| ProductDomain.Product.AddReview | Product.API/Domain/Entities/Product.cs:71-82 | the entity becomes Review's result, or is untouched when it raises |
| ProductDomain.Category.constructor | Product.API/Domain/Entities/Category.cs:7-27 | the entity holds exactly the given fields |
| ProductApplication.CreateFacts | Product.API/Application/Services/ProductService.cs:53-84 | a created product carries the request's fields, no reviews, rating 0 and status Available, stamped now, and exactly one insert and one event describing it |
| ProductApplication.CreateFailureSilent | Product.API/Application/Services/ProductService.cs:70 | a failed insert rethrows the store's exception and neither writes nor publishes |
| ProductApplication.Merge | Product.API/Application/Services/ProductService.cs:94-99 | only name, description, category, price, stock and image can change |
| ProductApplication.MergeFieldwise | Product.API/Application/Services/ProductService.cs:94-99 | each string the request carries wins and each null keeps the stored one; a positive price or stock wins, any other keeps the stored one |
| ProductApplication.MergeNothingKeeps | Product.API/Application/Services/ProductService.cs:94-99 | an empty request leaves the product as it was |
| ProductApplication.MergeIdempotent | Product.API/Application/Services/ProductService.cs:94-99 | applying the same request twice is applying it once |
| ProductApplication.MergeCannotZero | Product.API/Application/Services/ProductService.cs:97-98 | an update can never bring the stock or the price to 0 unless it already was |
| ProductApplication.UpdateFacts | Product.API/Application/Services/ProductService.cs:86-117 | a missing product is KeyNotFound with nothing written; the event goes out exactly when the store modified the document, with the merged name and price and the store's timestamp |
| ProductApplication.StockEventFacts | Product.API/Application/Services/ProductService.cs:132-159 | the stock event goes out exactly when the store took the decrement, with the old stock and the old stock less the quantity (never negative); a refused quantity writes nothing |
| ProductApplication.Rewrite | Product.API/Application/Services/ProductService.cs:219-221 | name, description and image become the request's, null or not; nothing else moves |
| ProductApplication.RewriteForgets | Product.API/Application/Services/ProductService.cs:219-221 | unlike a product update, a category rewrite keeps nothing of the old three fields |
| ProductApplication.CategoryCountFacts | Product.API/Application/Services/ProductService.cs:195-224 | a new category has no products and a rewrite never changes the count |
| ProductApplication.ProductService.constructor | Product.API/Application/Services/ProductService.cs:17-27 | no writes or events yet |
| ProductApplication.ProductService.CreateProduct | Product.API/Application/Services/ProductService.cs:53-84 | returns CreateResult and appends CreateEffects (see CreateFacts and CreateFailureSilent) |
| ProductApplication.ProductService.GetProductById | Product.API/Application/Services/ProductService.cs:36-44 | a store failure is rethrown, a missing product is KeyNotFound, a found product is returned |
| ProductApplication.ProductService.UpdateProduct | Product.API/Application/Services/ProductService.cs:86-117 | returns UpdateResult and appends UpdateEffects; the fetched entity becomes the merge, stamped by the store (ProductRepository.cs line 50) |
| ProductApplication.ProductService.MergeInto | Product.API/Application/Services/ProductService.cs:94-99 | the six assignments turn the entity into Merge of it |
| ProductApplication.ProductService.DecrementStock | Product.API/Application/Services/ProductService.cs:132-159 | returns DecrementResult and appends DecrementEffects; the entity becomes the decremented product stamped by the store, or is untouched when the quantity is refused |
| ProductApplication.CategoryService.constructor | Product.API/Application/Services/ProductService.cs:168-176 | no writes yet |
| ProductApplication.CategoryService.CreateCategory | Product.API/Application/Services/ProductService.cs:195-209 | an accepted insert returns and stores the new category with ProductCount 0; a failed one rethrows and writes nothing |
| ProductApplication.CategoryService.GetCategoryById | Product.API/Application/Services/ProductService.cs:185-193 | a store failure is rethrown, a missing category is KeyNotFound, a found category is returned |
| ProductApplication.CategoryService.UpdateCategory | Product.API/Application/Services/ProductService.cs:211-224 | a missing category is KeyNotFound; the fetched one is rewritten, and the store's answer is returned, with a write recorded only when it modified the document |

## Left out

- Logging: every `_logger` call is left out.
- Concurrency and the message bus:
  - Asynchronous execution, concurrent requests and the bus itself are
    not modelled.
  - A consumer's rethrown exception is only returned. The retry or
    redelivery it triggers is not modelled.
- Event publishing never fails in the model. A publish that throws after
  a successful insert or update is not modelled.
- Identifiers and clock values are parameters:
  - the generated `ORD-yyyyMMdd-GUID` order number;
  - the ObjectId the Mongo repositories assign (`Id ??= ...`);
  - `DateTime.UtcNow` and Cypher `datetime()`.
  The string format of the order number is not modelled.
- The AutoMapper mappings between entities and DTOs (`OrderDto`,
  `ProductDto`, `CategoryDto`) copy every field, so the model returns the
  stored records themselves. The `CreateOrderDto` map is the exception:
  as written it maps no lines (see Findings).
- OrderDomain.MapCreateOrder: copies the request's lines, which the
  profile as written does not. OrderApplication.PrepareOrderFacts,
  OrderApplication.OrderService.CreateOrder and OrderApi.CreateOrder are
  stated over this intended mapping; MappingFindings models the profile
  as written.
- RepositorySpec.Recommended: reads a stored rating as the number it
  denotes. As written, the only rating ever stored is the Cypher Integer
  0 of `CreateProductIfNotExistsAsync`, and `(double)record["rating"]`
  cannot unbox it. RepositoryFacts.PersonalizedCallFacts and
  Repository.RecommendationRepository.GetPersonalizedRecommendations are
  stated over this intended reading; RatingFindings models the read as
  written. `CreateProductIfNotExistsAsync` has no caller in the services.
- The graph does not record the Cypher type (Integer or Float) of a
  stored number. RatingFindings rests on `p.rating = 0` being the only
  statement that sets a rating.
- Pass-through operations are not modelled. Each only forwards a
  repository call and maps the result: `GetProductsAsync`,
  `GetProductsByCategoryAsync`, `DeleteProductAsync`,
  `SearchProductsAsync`, `GetCategoriesAsync` and `DeleteCategoryAsync`.
- The `DecrementStockDto` request wrapper is not modelled.
- An `UpdateOrderStatus` request with no body is not modelled. The model
  always receives a status.
- Numbers:
  - `double` and `decimal` are exact reals: no rounding, no decimal
    overflow, and no loss in the `(decimal)(double)` conversions.
  - The `(int)(long)` casts of Neo4j counts are taken to fit.
- ProductDomain.Review: requires ReviewCount != -1. At -1, the unchecked
  increment makes the count 0, and the C# `double` division then gives
  infinity or NaN, which reals cannot represent. Every other count,
  wrapping included, is modelled.
- Case-insensitive comparison (`OrdinalIgnoreCase`) folds only the ASCII
  letters A-Z. Unicode case mapping is not modelled.
- Dates:
  - The trending window is `now - days * 86400` seconds, with no calendar
    arithmetic.
  - The history's `toString` and `DateTime.TryParse` round trip is taken
    to be lossless.
- Tie order:
  - Cypher leaves the order of rows with equal sort keys unspecified. The
    model breaks ties by node creation order, and its lemmas state only
    the ordering the queries promise.
  - `GetRecommendedProductIdsAsync` as written sorts on `rec.purchaseCount`
    after a `RETURN DISTINCT` that no longer carries `rec`. That statement
    is modelled as rejected (see Findings). The intended call the rest of
    the model uses sorts by purchaseCount descending.
- Validation (`[Required]`, `[MinLength]`, `[Range]`) is modelled as
  predicates on the DTOs. The model-binding pipeline that runs those
  checks is not modelled.
- OrderDomain.OrderStatus holds only the seven named statuses. A numeric
  status outside the C# enum cannot be represented. The `_ =>
  createdAt.AddDays(7)` arm of `CalculateEstimatedDelivery` that would
  serve such a status is therefore not modelled.
- Controllers other than `OrdersController` are not part of this model.
  They only forward to the services.

## Findings

| source | as written | input that shows it | evidently intended | confidence | as-written member | corrected member |
|---|---|---|---|---|---|---|
| Recommendation.API/Infrastructure/Repositories/RecommendationRepository.cs:396-411 | the query returns the column `similar.userId`, but the loop reads `record["userId"]`, which raises on the first row, so every user with a similar user gets an exception. End to end, collaborative filtering then never recommends anything: a user with a purchase history gets an exception, and only the cold-start trending list is ever non-empty. The exception is the null dictionary key of line 444 whenever a purchased product has no category, which is every product as deployed, because the purchase statement MERGEs products without one; otherwise it is this exception once someone shares a purchase, and an empty list when nobody does | graph `SharedPurchase` (users a and b both bought p; b also bought q), user a, limit 20 | return the similar users' ids, read by the column the query returns (`RETURN similar.userId AS userId`) | not executed | ColumnFindings.SimilarUsersCallAsWritten (shown by ColumnFindings.SimilarUsersCounterexample and ColumnFindings.SimilarUsersRaise; end to end by ColumnFindings.CollaborativeNeverAnswers and ColumnFindings.NullCategoryCounterexample) | RepositorySpec.SimilarUsersCall (proved by RepositoryFacts.SimilarUsersCallFacts) |
| Recommendation.API/Infrastructure/Repositories/RecommendationRepository.cs:465-483 | the query sorts with `ORDER BY rec.purchaseCount` after `RETURN DISTINCT rec.productId`, where `rec` is no longer in scope, so Cypher rejects the statement on every call; with that repaired alone, the loop still reads `record["productId"]` for the column `rec.productId` and raises on the first row | graph `SharedPurchase`, user a, similar users [b], limit 20 | return the candidate product ids by purchaseCount descending, sorting on a projected column and reading it by the name the query returns | not executed | ColumnFindings.CandidateIdsCallAsWritten (shown by ColumnFindings.CandidateIdsAsWrittenNeverAnswers and ColumnFindings.CandidateIdsCounterexample); the column defect alone: ColumnFindings.CandidateIdsCallOrderRepaired (shown by ColumnFindings.CandidateIdsRaise) | RepositorySpec.CandidateIdsCall (proved by RepositoryFacts.CandidateIdsCallFacts) |
| Recommendation.API/Infrastructure/Repositories/RecommendationRepository.cs:61 | `CreateProductIfNotExistsAsync` stores `p.rating = 0`, a Cypher Integer, which the driver returns boxed as a long; the personalized read `(double)record["rating"]` (line 121) cannot unbox it, so a candidate created this way makes GetPersonalizedRecommendationsAsync raise InvalidCastException | graph `BoughtByOther` (p created by `CreateProductIfNotExistsAsync`, then bought by b), user a, limit 10 | store the rating as the Float `0.0`, and return p with rating 0 | not executed | RatingFindings.PersonalizedCallAsWritten (shown by RatingFindings.PersonalizedAsWrittenRaises, RatingFindings.RatedCandidateRaises and RatingFindings.RatingCounterexample) | RepositorySpec.PersonalizedCall (proved by RepositoryFacts.PersonalizedCallFacts) |
| Order.API/Application/MappingProfile.cs:14-20 | the `CreateOrderDto`-to-`Order` map has no member map from `Items` to `OrderItems`; the names differ and flattening finds no source member `Order`, so the entity keeps its empty list, and CreateOrderAsync stores an order with no lines, total 0, and an OrderCreatedEvent without items. The configuration is not validated at startup | the integration test's request: one line, quantity 2 at 49.99 | map the request's lines (`ForMember(dest => dest.OrderItems, opt => opt.MapFrom(src => src.Items))`), giving one line and total 99.98 | not executed | MappingFindings.MapCreateOrderAsWritten (shown by MappingFindings.AsWrittenDropsLines and MappingFindings.MappingCounterexample) | OrderDomain.MapCreateOrder (proved by OrderApplication.PrepareOrderFacts) |
