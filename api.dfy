/**
 * The request policy of src/api.js: the retry loop for throttled requests,
 * the games-page query and cache keys, and the selection of the AI review
 * whose analysis is fetched. The network is a response oracle (the i-th
 * response of a call), the session cache a map, and the AI review socket a
 * function from the review metadata to its result.
 */
module Api {
  import opened Wrappers
  import opened Text
  import opened Js
  import opened ReviewData
  import opened Series
  import opened Utils

  /** The default number of attempts of `fetchJsonWithRetry`. */
  const DefaultAttempts: nat := 3

  /** The status a throttled request gets back. */
  const TooManyRequests: nat := 429

  const ThrottledMessage: string := "Request was throttled."
  const NoReviewsMessage: string := "No AI reviews found for this game"

  /** One HTTP response: its status and its parsed body. */
  datatype Response<T> = Response(status: nat, body: T)

  /** `res.ok`. */
  predicate IsOk<T>(res: Response<T>)
  {
    200 <= res.status <= 299
  }

  /** The message of the error thrown for a non-throttled failure. */
  function FailedMessage(status: nat): string
  {
    "Request failed (" + NatToString(status) + ")"
  }

  /**
   * What a call of `fetchJsonWithRetry` does: its value or its error, the
   * number of requests it sends, and the waits between them in milliseconds.
   */
  datatype Fetch<T> = Fetch(result: Result<T>, requests: nat, delays: seq<nat>)

  /**
   * The attempts from number `i` on. An attempt past the first is only made
   * after a throttled one, so running out of attempts with `i > 0` rethrows
   * the throttling error.
   */
  function RetryFrom<T>(server: nat -> Response<T>, attempts: nat, i: nat): Fetch<T>
    decreases attempts - i
  {
    if i >= attempts then Fetch(Err(if i == 0 then "Request failed" else ThrottledMessage), i, [])
    else
      var res := server(i);
      if IsOk(res) then Fetch(Ok(res.body), i + 1, [])
      else if res.status == TooManyRequests then
        var rest := RetryFrom(server, attempts, i + 1);
        Fetch(rest.result, rest.requests, [800 * (i + 1)] + rest.delays)
      else Fetch(Err(FailedMessage(res.status)), i + 1, [])
  }

  /** The outcome of the attempts after waits `delays` already made. */
  function After<T>(delays: seq<nat>, f: Fetch<T>): Fetch<T>
  {
    Fetch(f.result, f.requests, delays + f.delays)
  }

  /** A throttled attempt adds its wait and leaves the rest to the next attempt. */
  lemma ThrottledStep<T>(server: nat -> Response<T>, attempts: nat, i: nat, delays: seq<nat>)
    requires i < attempts && !IsOk(server(i)) && server(i).status == TooManyRequests
    ensures After(delays, RetryFrom(server, attempts, i)) == After(delays + [800 * (i + 1)], RetryFrom(server, attempts, i + 1))
  {
    var rest := RetryFrom(server, attempts, i + 1);
    assert delays + ([800 * (i + 1)] + rest.delays) == delays + [800 * (i + 1)] + rest.delays;
  }

  /** `fetchJsonWithRetry(url, options, attempts)` against the responses `server(0), server(1), ...`. */
  method FetchJsonWithRetry<T>(server: nat -> Response<T>, attempts: nat) returns (r: Result<T>, requests: nat, delays: seq<nat>)
    ensures Fetch(r, requests, delays) == RetryFrom(server, attempts, 0)
  {
    var lastError: Option<string> := None;
    delays := [];
    var i := 0;
    assert RetryFrom(server, attempts, 0) == After(delays, RetryFrom(server, attempts, 0));
    while i < attempts
      invariant i <= attempts
      invariant lastError == if i == 0 then None else Some(ThrottledMessage)
      invariant RetryFrom(server, attempts, 0) == After(delays, RetryFrom(server, attempts, i))
    {
      var res := server(i);
      if IsOk(res) {
        return Ok(res.body), i + 1, delays;
      }
      if res.status == TooManyRequests {
        ThrottledStep(server, attempts, i, delays);
        lastError := Some(ThrottledMessage);
        delays := delays + [800 * (i + 1)];
        i := i + 1;
        continue;
      }
      return Err(FailedMessage(res.status)), i + 1, delays;
    }
    r := Err(if lastError.Some? then lastError.value else "Request failed");
    requests := i;
  }

  /**
   * What the retry loop promises: at most `attempts` requests, every one but
   * the last throttled, one wait of 800·(i+1) ms after the i-th, and the
   * result decided by the last response.
   */
  lemma {:induction false} RetryShape<T>(server: nat -> Response<T>, attempts: nat, i: nat)
    requires i <= attempts
    ensures var f := RetryFrom(server, attempts, i);
            && i <= f.requests <= attempts
            && (i == attempts ==> f.requests == i)
            && (forall j :: i <= j < f.requests - 1 ==> server(j).status == TooManyRequests)
            && (f.requests < attempts ==> f.requests > i && server(f.requests - 1).status != TooManyRequests)
            && |f.delays| == f.requests - i - (if f.requests > i && server(f.requests - 1).status != TooManyRequests then 1 else 0)
            && (forall j :: 0 <= j < |f.delays| ==> f.delays[j] == 800 * (i + j + 1))
    decreases attempts - i
  {
    if i < attempts {
      var res := server(i);
      if !IsOk(res) && res.status == TooManyRequests {
        RetryShape(server, attempts, i + 1);
      }
    }
  }

  /** The result is the body of the first ok response, reached through throttled ones only. */
  lemma {:induction false} RetryResult<T>(server: nat -> Response<T>, attempts: nat, i: nat)
    requires i <= attempts
    ensures var f := RetryFrom(server, attempts, i);
            && (f.result.Ok? <==> f.requests > i && IsOk(server(f.requests - 1)))
            && (f.result.Ok? ==> f.result.value == server(f.requests - 1).body)
            && (f.requests > i && !IsOk(server(f.requests - 1)) && server(f.requests - 1).status != TooManyRequests ==>
                  f.result == Err(FailedMessage(server(f.requests - 1).status)))
            && (f.requests > i && server(f.requests - 1).status == TooManyRequests ==> f.result == Err(ThrottledMessage))
    decreases attempts - i
  {
    if i < attempts {
      var res := server(i);
      if !IsOk(res) && res.status == TooManyRequests {
        RetryResult(server, attempts, i + 1);
        RetryShape(server, attempts, i + 1);
      }
    }
  }

  /** When every attempt is throttled, all of them are made and the throttling error is thrown. */
  lemma AllThrottled<T>(server: nat -> Response<T>, attempts: nat)
    requires attempts >= 1
    requires forall j :: 0 <= j < attempts ==> server(j).status == TooManyRequests
    ensures RetryFrom(server, attempts, 0).result == Err(ThrottledMessage)
    ensures RetryFrom(server, attempts, 0).requests == attempts
  {
    RetryShape(server, attempts, 0);
    RetryResult(server, attempts, 0);
  }

  /** `options.pageSize || 25`. */
  function PageSizeOf(pageSize: Option<nat>): (n: nat)
    ensures n >= 1
    ensures pageSize.None? || pageSize.value == 0 ==> n == 25
  {
    if pageSize.Some? && pageSize.value != 0 then pageSize.value else 25
  }

  /** `String(b)`. */
  function BoolText(b: bool): string
  {
    if b then "true" else "false"
  }

  /** `options.ranked ?? 'all'`, rendered into the cache key. */
  function RankedText(ranked: Option<bool>): string
  {
    match ranked
    case None => "all"
    case Some(b) => BoolText(b)
  }

  /** The key of a games page in the session cache: `ogs.games.<player>.page.<page>.<ranked>.<size>`. */
  function GamesCacheKey(playerId: string, page: nat, ranked: Option<bool>, pageSize: Option<nat>): string
  {
    Join(["ogs", "games", playerId, "page", NatToString(page), RankedText(ranked), NatToString(PageSizeOf(pageSize))], '.')
  }

  /** The key of a review list: `ogs.review.<game>`. */
  function ReviewCacheKey(gameId: nat): string
  {
    Join(["ogs", "review", NatToString(gameId)], '.')
  }

  /** The key of an analysis: `ogs.ai.<game>`. */
  function AnalysisCacheKey(gameId: nat): string
  {
    Join(["ogs", "ai", NatToString(gameId)], '.')
  }

  lemma DigitsLackDot(s: string)
    requires AllDigits(s)
    ensures Lacks(s, '.')
  {
  }

  /**
   * Two games-page requests share a cache entry only when they agree on the
   * player, the page, the ranked option and the page size (player ids
   * without a dot, as `parsePlayerId` produces).
   */
  lemma GamesCacheKeyInjective(p1: string, page1: nat, r1: Option<bool>, s1: Option<nat>,
                               p2: string, page2: nat, r2: Option<bool>, s2: Option<nat>)
    requires Lacks(p1, '.') && Lacks(p2, '.')
    requires GamesCacheKey(p1, page1, r1, s1) == GamesCacheKey(p2, page2, r2, s2)
    ensures p1 == p2 && page1 == page2 && r1 == r2 && PageSizeOf(s1) == PageSizeOf(s2)
  {
    var a := ["ogs", "games", p1, "page", NatToString(page1), RankedText(r1), NatToString(PageSizeOf(s1))];
    var b := ["ogs", "games", p2, "page", NatToString(page2), RankedText(r2), NatToString(PageSizeOf(s2))];
    DigitsLackDot(NatToString(page1));
    DigitsLackDot(NatToString(page2));
    DigitsLackDot(NatToString(PageSizeOf(s1)));
    DigitsLackDot(NatToString(PageSizeOf(s2)));
    JoinInjective(a, b, '.');
    assert a[4] == b[4] && a[5] == b[5] && a[6] == b[6];
    NatToStringInjective(page1, page2);
    NatToStringInjective(PageSizeOf(s1), PageSizeOf(s2));
    assert RankedText(r1) == RankedText(r2);
  }

  /** Review lists of different games never share a key. */
  lemma ReviewCacheKeyInjective(g1: nat, g2: nat)
    requires ReviewCacheKey(g1) == ReviewCacheKey(g2)
    ensures g1 == g2
  {
    var r1, r2 := ["ogs", "review", NatToString(g1)], ["ogs", "review", NatToString(g2)];
    DigitsLackDot(NatToString(g1));
    DigitsLackDot(NatToString(g2));
    JoinInjective(r1, r2, '.');
    assert r1[2] == r2[2];
    NatToStringInjective(g1, g2);
  }

  /** Analyses of different games never share a key. */
  lemma AnalysisCacheKeyInjective(g1: nat, g2: nat)
    requires AnalysisCacheKey(g1) == AnalysisCacheKey(g2)
    ensures g1 == g2
  {
    var a1, a2 := ["ogs", "ai", NatToString(g1)], ["ogs", "ai", NatToString(g2)];
    DigitsLackDot(NatToString(g1));
    DigitsLackDot(NatToString(g2));
    JoinInjective(a1, a2, '.');
    assert a1[2] == a2[2];
    NatToStringInjective(g1, g2);
  }

  /** The three kinds of entry never share a key. */
  lemma CacheKeyKindsDistinct(playerId: string, page: nat, ranked: Option<bool>, pageSize: Option<nat>, g1: nat, g2: nat)
    requires Lacks(playerId, '.')
    ensures ReviewCacheKey(g1) != AnalysisCacheKey(g2)
    ensures GamesCacheKey(playerId, page, ranked, pageSize) != ReviewCacheKey(g1)
    ensures GamesCacheKey(playerId, page, ranked, pageSize) != AnalysisCacheKey(g2)
  {
    var r := ["ogs", "review", NatToString(g1)];
    var a := ["ogs", "ai", NatToString(g2)];
    var gs := ["ogs", "games", playerId, "page", NatToString(page), RankedText(ranked), NatToString(PageSizeOf(pageSize))];
    DigitsLackDot(NatToString(g1));
    DigitsLackDot(NatToString(g2));
    DigitsLackDot(NatToString(page));
    DigitsLackDot(NatToString(PageSizeOf(pageSize)));
    SplitJoin(r, '.');
    SplitJoin(a, '.');
    SplitJoin(gs, '.');
    assert Split(ReviewCacheKey(g1), '.')[1] != Split(AnalysisCacheKey(g2), '.')[1];
  }

  /** One `name=value` pair of a `URLSearchParams`. */
  datatype Param = Param(name: string, value: string)

  /** `params.get(name)`: the value of the first pair with that name. */
  function Lookup(params: seq<Param>, name: string): Option<string>
  {
    if |params| == 0 then None
    else if params[0].name == name then Some(params[0].value)
    else Lookup(params[1..], name)
  }

  /** The first pair with a name is the one `get` finds. */
  lemma {:induction false} LookupAt(params: seq<Param>, k: nat)
    requires k < |params|
    requires forall j :: 0 <= j < k ==> params[j].name != params[k].name
    ensures Lookup(params, params[k].name) == Some(params[k].value)
  {
    if k > 0 {
      LookupAt(params[1..], k - 1);
    }
  }

  /** A name no pair has is not found. */
  lemma {:induction false} LookupAbsent(params: seq<Param>, name: string)
    requires forall j :: 0 <= j < |params| ==> params[j].name != name
    ensures Lookup(params, name) == None
  {
    if |params| > 0 {
      LookupAbsent(params[1..], name);
    }
  }

  /** `name=value`. */
  function PairText(p: Param): string
  {
    p.name + "=" + p.value
  }

  /** `params.toString()` for names and values that need no percent-encoding. */
  function Query(params: seq<Param>): string
  {
    if |params| == 0 then "" else Join(seq(|params|, i requires 0 <= i < |params| => PairText(params[i])), '&')
  }

  /** The query string gives its pairs back when no name or value holds `&`. */
  lemma QueryPairs(params: seq<Param>)
    requires |params| >= 1
    requires forall i :: 0 <= i < |params| ==> Lacks(params[i].name, '&') && Lacks(params[i].value, '&')
    ensures Split(Query(params), '&') == seq(|params|, i requires 0 <= i < |params| => PairText(params[i]))
  {
    var pairs := seq(|params|, i requires 0 <= i < |params| => PairText(params[i]));
    forall j | 0 <= j < |pairs|
      ensures Lacks(pairs[j], '&')
    {
      var p := params[j];
      assert pairs[j] == p.name + "=" + p.value;
      forall k | 0 <= k < |pairs[j]|
        ensures pairs[j][k] != '&'
      {
        if k < |p.name| {
          assert pairs[j][k] == p.name[k];
        } else if k > |p.name| {
          assert pairs[j][k] == p.value[k - |p.name| - 1];
        }
      }
    }
    SplitJoin(pairs, '&');
  }

  /** The path of a player's games listing. */
  function GamesEndpoint(playerId: string): string
  {
    "https://online-go.com/api/v1/players/" + playerId + "/games/?"
  }

  /** The names `buildGamesUrl` sets, in order. */
  const GamesParamNames: seq<string> := ["page", "page_size", "source", "ended__isnull", "annulled", "ordering", "ranked"]

  lemma GamesParamNamesDistinct()
    ensures forall i, j :: 0 <= i < j < |GamesParamNames| ==> GamesParamNames[i] != GamesParamNames[j]
  {
  }

  /** In a list named by `GamesParamNames`, every name finds its own pair, and `ranked` is absent from a list of six. */
  lemma GamesParamLookups(params: seq<Param>)
    requires 6 <= |params| <= |GamesParamNames|
    requires forall k :: 0 <= k < |params| ==> params[k].name == GamesParamNames[k]
    ensures forall k :: 0 <= k < |params| ==> Lookup(params, GamesParamNames[k]) == Some(params[k].value)
    ensures |params| == 6 ==> Lookup(params, "ranked") == None
    ensures forall i, j :: 0 <= i < j < |params| ==> params[i].name != params[j].name
  {
    GamesParamNamesDistinct();
    forall k | 0 <= k < |params|
      ensures Lookup(params, GamesParamNames[k]) == Some(params[k].value)
    {
      LookupAt(params, k);
    }
    if |params| == 6 {
      LookupAbsent(params, GamesParamNames[6]);
    }
  }

  /** The pairs `buildGamesUrl` sets, in order; `ranked` only when the option is a boolean. */
  function GamesParams(page: nat, pageSize: Option<nat>, ranked: Option<bool>): seq<Param>
  {
    [Param("page", NatToString(page)), Param("page_size", NatToString(PageSizeOf(pageSize))),
     Param("source", "play"), Param("ended__isnull", "false"), Param("annulled", "false"),
     Param("ordering", "-ended")]
    + (if ranked.Some? then [Param("ranked", BoolText(ranked.value))] else [])
  }

  /**
   * The games query always carries the page, the page size (25 by default)
   * and the four fixed filters, and carries `ranked` exactly when the option
   * is a boolean; no name is set twice.
   */
  lemma GamesParamsCarry(page: nat, pageSize: Option<nat>, ranked: Option<bool>)
    ensures var params := GamesParams(page, pageSize, ranked);
            && Lookup(params, "page") == Some(NatToString(page))
            && Lookup(params, "page_size") == Some(NatToString(PageSizeOf(pageSize)))
            && Lookup(params, "source") == Some("play")
            && Lookup(params, "ended__isnull") == Some("false")
            && Lookup(params, "annulled") == Some("false")
            && Lookup(params, "ordering") == Some("-ended")
            && Lookup(params, "ranked") == (if ranked.Some? then Some(BoolText(ranked.value)) else None)
            && |params| == (if ranked.Some? then 7 else 6)
            && (forall i, j :: 0 <= i < j < |params| ==> params[i].name != params[j].name)
  {
    var params := GamesParams(page, pageSize, ranked);
    assert forall k :: 0 <= k < |params| ==> params[k].name == GamesParamNames[k];
    GamesParamLookups(params);
    assert Lookup(params, GamesParamNames[0]) == Some(params[0].value);
    assert Lookup(params, GamesParamNames[1]) == Some(params[1].value);
    assert Lookup(params, GamesParamNames[2]) == Some(params[2].value);
    assert Lookup(params, GamesParamNames[3]) == Some(params[3].value);
    assert Lookup(params, GamesParamNames[4]) == Some(params[4].value);
    assert Lookup(params, GamesParamNames[5]) == Some(params[5].value);
    if ranked.Some? {
      assert Lookup(params, GamesParamNames[6]) == Some(params[6].value);
    }
  }

  /**
   * `buildGamesUrl`: the query parameters are set one after the other (each
   * name is new, so every `set` appends), then rendered after the path.
   */
  method BuildGamesUrl(playerId: string, page: nat, pageSize: Option<nat>, ranked: Option<bool>) returns (url: string, params: seq<Param>)
    ensures params == GamesParams(page, pageSize, ranked)
    ensures url == GamesEndpoint(playerId) + Query(params)
  {
    params := [];
    params := params + [Param("page", NatToString(page))];
    params := params + [Param("page_size", NatToString(PageSizeOf(pageSize)))];
    params := params + [Param("source", "play")];
    params := params + [Param("ended__isnull", "false")];
    params := params + [Param("annulled", "false")];
    params := params + [Param("ordering", "-ended")];
    assert params == GamesParams(page, pageSize, None);
    if ranked == Some(true) {
      params := params + [Param("ranked", "true")];
    }
    if ranked == Some(false) {
      params := params + [Param("ranked", "false")];
    }
    url := GamesEndpoint(playerId) + Query(params);
  }

  /** The part of a games page the ingestion loop reads: `data.results` when it is an array, and `Boolean(data.next)`. */
  datatype GamesPage = GamesPage(results: Option<seq<Game>>, next: bool)

  /**
   * `fetchPlayerGamesPage`: a cached page is returned without a request;
   * otherwise the page is fetched and, when that succeeds, cached.
   */
  method FetchPlayerGamesPage(playerId: string, page: nat, ranked: Option<bool>, pageSize: Option<nat>,
                              cache: map<string, GamesPage>, server: nat -> Response<GamesPage>)
    returns (r: Result<GamesPage>, cache': map<string, GamesPage>, requests: nat)
    ensures var key := GamesCacheKey(playerId, page, ranked, pageSize);
            key in cache ==> r == Ok(cache[key]) && cache' == cache && requests == 0
    ensures var key := GamesCacheKey(playerId, page, ranked, pageSize);
            var f := RetryFrom(server, DefaultAttempts, 0);
            key !in cache ==> r == f.result && requests == f.requests &&
                              cache' == if r.Ok? then cache[key := r.value] else cache
  {
    var key := GamesCacheKey(playerId, page, ranked, pageSize);
    if key in cache {
      return Ok(cache[key]), cache, 0;
    }
    var url, params := BuildGamesUrl(playerId, page, pageSize, ranked);
    var delays;
    r, requests, delays := FetchJsonWithRetry(server, DefaultAttempts);
    cache' := if r.Ok? then cache[key := r.value] else cache;
  }

  /** A review entry of `/games/<id>/ai_reviews`: its fields, `Undefined` for a missing one. */
  type Review = JsObject

  /** The body of a review-list response: a JSON array, an object (with its `results` member), or anything else. */
  datatype ReviewBody = ArrayBody(items: seq<Review>) | ObjectBody(results: ReviewBody) | OtherBody

  /** `Array.isArray(body?.results) ? body.results : Array.isArray(body) ? body : []`. */
  function ReviewListOf(body: ReviewBody): seq<Review>
  {
    if body.ObjectBody? && body.results.ArrayBody? then body.results.items
    else if body.ArrayBody? then body.items
    else []
  }

  /** The review list `fetchAiReviewList` yields for a game. */
  function ReviewListFor(gameId: nat, cache: map<string, seq<Review>>, server: nat -> Response<ReviewBody>): Result<seq<Review>>
  {
    var key := ReviewCacheKey(gameId);
    if key in cache then Ok(cache[key])
    else
      match RetryFrom(server, DefaultAttempts, 0).result
      case Ok(body) => Ok(ReviewListOf(body))
      case Err(m) => Err(m)
  }

  /**
   * `fetchAiReviewList`: a cached list is returned as is; a fetched body is
   * normalised to its `results` array, itself when it is an array, or no
   * reviews, and the list is cached.
   */
  method FetchAiReviewList(gameId: nat, cache: map<string, seq<Review>>, server: nat -> Response<ReviewBody>)
    returns (r: Result<seq<Review>>, cache': map<string, seq<Review>>, requests: nat)
    ensures r == ReviewListFor(gameId, cache, server)
    ensures ReviewCacheKey(gameId) in cache ==> cache' == cache && requests == 0
    ensures ReviewCacheKey(gameId) !in cache ==> requests == RetryFrom(server, DefaultAttempts, 0).requests
    ensures ReviewCacheKey(gameId) !in cache ==> cache' == if r.Ok? then cache[ReviewCacheKey(gameId) := r.value] else cache
    ensures var body := RetryFrom(server, DefaultAttempts, 0).result;
            ReviewCacheKey(gameId) !in cache && body.Ok? ==>
              (body.value.ObjectBody? && body.value.results.ArrayBody? ==> r == Ok(body.value.results.items)) &&
              (body.value.ArrayBody? ==> r == Ok(body.value.items)) &&
              (body.value.OtherBody? || (body.value.ObjectBody? && !body.value.results.ArrayBody?) ==> r == Ok([]))
  {
    var key := ReviewCacheKey(gameId);
    if key in cache {
      return Ok(cache[key]), cache, 0;
    }
    var body, delays;
    body, requests, delays := FetchJsonWithRetry(server, DefaultAttempts);
    if body.Err? {
      return Err(body.message), cache, requests;
    }
    var list := ReviewListOf(body.value);
    r := Ok(list);
    cache' := cache[key := list];
  }

  /** The `meta` object sent to the AI review socket. */
  datatype ReviewMeta = ReviewMeta(gameId: nat, aiReviewId: JsValue, uuid: JsValue)

  /** The last review of a non-empty list, and its id (`review.id || review.ai_review_id`). */
  function SelectReview(gameId: nat, list: seq<Review>): (r: Result<ReviewMeta>)
    ensures r.Err? <==> |list| == 0
    ensures r.Err? ==> r.message == NoReviewsMessage
    ensures r.Ok? ==> r.value.gameId == gameId && r.value.uuid == Member(list[|list| - 1], "uuid")
    ensures r.Ok? && Truthy(Member(list[|list| - 1], "id")) ==> r.value.aiReviewId == Member(list[|list| - 1], "id")
    ensures r.Ok? && !Truthy(Member(list[|list| - 1], "id")) ==> r.value.aiReviewId == Member(list[|list| - 1], "ai_review_id")
  {
    if |list| == 0 then Err(NoReviewsMessage)
    else
      var review := list[|list| - 1];
      Ok(ReviewMeta(gameId, Or(Member(review, "id"), Member(review, "ai_review_id")), Member(review, "uuid")))
  }

  /** `metadata?.game_state?.moves?.length || 0`. */
  function MetadataMovesLength(metadata: Metadata): nat
  {
    match metadata.gameState
    case Some(gs) => |gs.moves|
    case None => 0
  }

  /** `Array.isArray(metadata?.scores) ? metadata.scores : []`. */
  function MetadataScores(metadata: Metadata): seq<Sample>
  {
    match metadata.scores
    case Some(s) => s
    case None => []
  }

  /** The analysis record built from the review's metadata. */
  function AnalysisOf(gameId: nat, metadata: Metadata): (a: Analysis)
    ensures a.gameId == gameId && a.metadata == Some(metadata)
    ensures |a.scoreLosses| == MetadataMovesLength(metadata)
    ensures a.scoreLosses == LossSeries(Some(MetadataScores(metadata)), MetadataMovesLength(metadata))
  {
    Analysis(gameId, Some(metadata), LossSeries(Some(MetadataScores(metadata)), MetadataMovesLength(metadata)))
  }

  /** A game's analysis from its review list: no reviews, the socket's error, or the analysis of its metadata. */
  function AnalysisFromList(gameId: nat, list: seq<Review>, connect: ReviewMeta -> Result<Metadata>): Result<Analysis>
  {
    match SelectReview(gameId, list)
    case Err(m) => Err(m)
    case Ok(meta) =>
      match connect(meta)
      case Err(m) => Err(m)
      case Ok(metadata) => Ok(AnalysisOf(gameId, metadata))
  }

  /**
   * `fetchAnalysisForGame(gameId, reviewList)`: a cached analysis is returned
   * as is; otherwise the given list (or the fetched one) selects the review
   * whose metadata the socket returns, and the new analysis is cached.
   */
  method FetchAnalysisForGame(gameId: nat, reviewList: Option<seq<Review>>,
                              aiCache: map<string, Analysis>, reviewCache: map<string, seq<Review>>,
                              server: nat -> Response<ReviewBody>, connect: ReviewMeta -> Result<Metadata>)
    returns (r: Result<Analysis>, aiCache': map<string, Analysis>, reviewCache': map<string, seq<Review>>)
    ensures AnalysisCacheKey(gameId) in aiCache ==>
              r == Ok(aiCache[AnalysisCacheKey(gameId)]) && aiCache' == aiCache && reviewCache' == reviewCache
    ensures var list := if reviewList.Some? then Ok(reviewList.value) else ReviewListFor(gameId, reviewCache, server);
            AnalysisCacheKey(gameId) !in aiCache ==>
              r == (if list.Err? then Err(list.message) else AnalysisFromList(gameId, list.value, connect))
    ensures AnalysisCacheKey(gameId) !in aiCache ==>
              aiCache' == if r.Ok? then aiCache[AnalysisCacheKey(gameId) := r.value] else aiCache
    ensures reviewList.Some? ==> reviewCache' == reviewCache
    ensures var key := ReviewCacheKey(gameId);
            var fetched := ReviewListFor(gameId, reviewCache, server);
            reviewList.None? && AnalysisCacheKey(gameId) !in aiCache ==>
              reviewCache' == if key !in reviewCache && fetched.Ok? then reviewCache[key := fetched.value] else reviewCache
  {
    var key := AnalysisCacheKey(gameId);
    if key in aiCache {
      return Ok(aiCache[key]), aiCache, reviewCache;
    }
    var list: seq<Review>;
    reviewCache' := reviewCache;
    if reviewList.Some? {
      list := reviewList.value;
    } else {
      var fetched, requests;
      fetched, reviewCache', requests := FetchAiReviewList(gameId, reviewCache, server);
      if fetched.Err? {
        return Err(fetched.message), aiCache, reviewCache';
      }
      list := fetched.value;
    }
    if |list| == 0 {
      return Err(NoReviewsMessage), aiCache, reviewCache';
    }
    var review := list[|list| - 1];
    var meta := ReviewMeta(gameId, Or(Member(review, "id"), Member(review, "ai_review_id")), Member(review, "uuid"));
    var metadata := connect(meta);
    if metadata.Err? {
      return Err(metadata.message), aiCache, reviewCache';
    }
    var movesLength := MetadataMovesLength(metadata.value);
    var scores := MetadataScores(metadata.value);
    var scoreLosses := ComputeScoreLosses(Some(scores), movesLength);
    var analysis := Analysis(gameId, Some(metadata.value), scoreLosses);
    r := Ok(analysis);
    aiCache' := aiCache[key := analysis];
  }

  /** A fetched analysis is for the requested game, and it has one score loss per move of its metadata. */
  lemma AnalysisFits(gameId: nat, list: seq<Review>, connect: ReviewMeta -> Result<Metadata>)
    ensures var r := AnalysisFromList(gameId, list, connect);
            r.Ok? ==> r.value.gameId == gameId && r.value.metadata.Some? &&
                      |r.value.scoreLosses| == MetadataMovesLength(r.value.metadata.value)
    ensures |list| == 0 ==> AnalysisFromList(gameId, list, connect) == Err(NoReviewsMessage)
    ensures |list| > 0 ==> (AnalysisFromList(gameId, list, connect).Ok? <==>
                             connect(SelectReview(gameId, list).value).Ok?)
  {
  }
}
