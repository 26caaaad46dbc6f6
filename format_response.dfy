/**
 * formatResponse (src/apollo.js): the hook that post-processes every API
 * response. For the two feed queries, HomePagePosts and ExplorePagePosts,
 * it re-ranks the post list under `data.<query name with a lower-case first
 * letter>` by the request's `sort` variable and answers with a copy of the
 * response whose `data` holds just that list; every other response passes
 * through untouched.
 */
module FormatResponse {
  import opened Wrappers
  import opened FeedRanking

  datatype Variables = Variables(sort: Option<string>)

  datatype Request = Request(operationName: Option<string>, variables: Option<Variables>)

  /**
   * A response: `data` maps a result key to a post list (None for a null
   * entry); `others` carries every other top-level field (errors,
   * extensions) as opaque text.
   */
  datatype Response = Response(
    data: Option<map<string, Option<seq<FeedPost>>>>,
    others: map<string, string>)

  /** The TypeErrors formatResponse throws reading a property of null or undefined. */
  datatype Failure =
    | DataMissing       // `response.data[key]` with no `data`
    | VariablesMissing  // `variables.sort` with no `variables`

  predicate IsFeedOperation(name: Option<string>) {
    name == Some("HomePagePosts") || name == Some("ExplorePagePosts")
  }

  /** `toLowerCase` on the letters that can occur here (ASCII). */
  function LowerCase(c: char): char {
    if 'A' <= c <= 'Z' then (c as int + 32) as char else c
  }

  /** `operationName[0].toLowerCase() + operationName.substring(1)` */
  function ResultKey(operationName: string): string
    requires |operationName| > 0
  {
    [LowerCase(operationName[0])] + operationName[1..]
  }

  /** The ranked strategy a `sort` value selects; anything else keeps the order. */
  function StrategyOf(sort: Option<string>): Option<Strategy> {
    match sort
    case Some("hot") => Some(Hot)
    case Some("top") => Some(Top)
    case Some("controversial") => Some(Controversial)
    case _ => None
  }

  /** The `hot` criterion calls `created_at.setHours(0, 0, 0, 0)`, truncating the post itself. */
  function Truncated(p: FeedPost): FeedPost {
    p.(createdAt := StartOfDay(p.createdAt))
  }

  function TruncateAll(posts: seq<FeedPost>): (r: seq<FeedPost>)
    ensures |r| == |posts|
    ensures forall k :: 0 <= k < |posts| ==> r[k] == Truncated(posts[k])
  {
    if posts == [] then [] else [Truncated(posts[0])] + TruncateAll(posts[1..])
  }

  /** The list `_.orderBy` sorts for strategy s: `_.orderBy(null)` is []. */
  function Prepared(posts: Option<seq<FeedPost>>, s: Strategy): seq<FeedPost> {
    var ps := posts.GetOr([]);
    if s == Hot then TruncateAll(ps) else ps
  }

  /** The `switch (variables.sort)` of formatResponse. */
  function Rank(posts: Option<seq<FeedPost>>, sort: Option<string>): Option<seq<FeedPost>> {
    match StrategyOf(sort)
    case None => posts
    case Some(s) => Some(OrderBy(Prepared(posts, s), s))
  }

  /** formatResponse(response, { request: { operationName, variables } }) */
  function FormatResponse(response: Response, request: Request): (r: Result<Response, Failure>)
    ensures !IsFeedOperation(request.operationName) ==> r == Ok(response)
    ensures IsFeedOperation(request.operationName) ==>
              (r == Err(DataMissing) <==> response.data.None?) &&
              (r == Err(VariablesMissing) <==> response.data.Some? && request.variables.None?)
    ensures IsFeedOperation(request.operationName) && r.Ok? ==>
              r.value.others == response.others &&
              r.value.data.Some? && r.value.data.value.Keys == {ResultKey(request.operationName.value)}
  {
    if !IsFeedOperation(request.operationName) then Ok(response)
    else
      var key := ResultKey(request.operationName.value);
      match response.data
      case None => Err(DataMissing)
      case Some(data) =>
        var posts := if key in data then data[key] else None;
        match request.variables
        case None => Err(VariablesMissing)
        case Some(variables) =>
          Ok(Response(Some(map[key := Rank(posts, variables.sort)]), response.others))
  }

  // ---------------------------------------------------------------------
  // What the caller gets.

  /** The result keys of the two feed queries. */
  lemma FeedResultKeys()
    ensures ResultKey("HomePagePosts") == "homePagePosts"
    ensures ResultKey("ExplorePagePosts") == "explorePagePosts"
  {
  }

  /** The input posts of a feed response, as formatResponse reads them. */
  function FeedPosts(response: Response, operationName: string): Option<seq<FeedPost>>
    requires |operationName| > 0 && response.data.Some?
  {
    var key := ResultKey(operationName);
    if key in response.data.value then response.data.value[key] else None
  }

  /**
   * For `hot`, `top` and `controversial` the answer's post list is the input
   * list (truncated to midnight for `hot`) put in descending order of the
   * strategy's criteria, with ties kept in input order.
   */
  lemma FormatResponseRanks(response: Response, request: Request, s: Strategy)
    requires IsFeedOperation(request.operationName)
    requires response.data.Some? && request.variables.Some?
    requires StrategyOf(request.variables.value.sort) == Some(s)
    ensures var r := FormatResponse(response, request);
            var key := ResultKey(request.operationName.value);
            var input := Prepared(FeedPosts(response, request.operationName.value), s);
            r.Ok? && r.value.data.value[key].Some? &&
            var ranked := r.value.data.value[key].value;
            multiset(ranked) == multiset(input) &&
            Descending(ranked, s) &&
            forall c :: Ties(ranked, s, c) == Ties(input, s, c)
  {
    var input := Prepared(FeedPosts(response, request.operationName.value), s);
    OrderByPermutation(input, s);
    OrderByDescending(input, s);
    forall c ensures Ties(OrderBy(input, s), s, c) == Ties(input, s, c) {
      OrderByStable(input, s, c);
    }
  }

  /** Any other `sort` (absent, "new", unknown) keeps the post list as it was. */
  lemma FormatResponseKeepsOrder(response: Response, request: Request)
    requires IsFeedOperation(request.operationName)
    requires response.data.Some? && request.variables.Some?
    requires StrategyOf(request.variables.value.sort).None?
    ensures var key := ResultKey(request.operationName.value);
            FormatResponse(response, request) ==
              Ok(Response(Some(map[key := FeedPosts(response, request.operationName.value)]), response.others))
  {
  }

  /** Truncating `created_at` does not move a post under the `hot` criteria. */
  lemma {:induction false} InsertTruncated(p: FeedPost, sorted: seq<FeedPost>)
    ensures Insert(Truncated(p), TruncateAll(sorted), Hot) == TruncateAll(Insert(p, sorted, Hot))
  {
    if sorted != [] {
      assert TruncateAll(sorted)[1..] == TruncateAll(sorted[1..]);
      assert Criteria(Truncated(p), Hot) == Criteria(p, Hot);
      assert Criteria(Truncated(sorted[0]), Hot) == Criteria(sorted[0], Hot);
      if Above(Criteria(sorted[0], Hot), Criteria(p, Hot)) {
        InsertTruncated(p, sorted[1..]);
        assert TruncateAll([sorted[0]] + Insert(p, sorted[1..], Hot))[1..]
               == TruncateAll(Insert(p, sorted[1..], Hot));
      } else {
        assert TruncateAll([p] + sorted)[1..] == TruncateAll(sorted);
      }
    }
  }

  /**
   * The `hot` ranking is the one the untruncated posts would get: the
   * in-place truncation changes the returned posts' `created_at`, not their
   * order.
   */
  lemma {:induction false} HotRankingIgnoresTimeOfDay(posts: seq<FeedPost>)
    ensures OrderBy(TruncateAll(posts), Hot) == TruncateAll(OrderBy(posts, Hot))
  {
    if posts != [] {
      assert TruncateAll(posts)[1..] == TruncateAll(posts[1..]);
      HotRankingIgnoresTimeOfDay(posts[1..]);
      InsertTruncated(posts[0], OrderBy(posts[1..], Hot));
    }
  }
}
