/**
 * Properties of the output-cache protocol: the key, the pre-hook, the
 * post-hook and expiry, each over all stores, clocks, results and views.
 */
module OutputCacheProperties {
  import opened Wrappers
  import opened MemoryCacheStore
  import opened OutputCache

  /** The key reads back as the controller value, a dash at its end, then the action value. */
  lemma CacheKeyLayout(route: RouteValues)
    ensures var k, n := CacheKey(route), |route.controller|;
      && |k| == n + 1 + |route.action|
      && k[..n] == route.controller
      && k[n] == '-'
      && k[n + 1..] == route.action
  {
  }

  /**
   * When controller names contain no dash, two routes with the same key are
   * the same route: the dash after the controller is the key's first dash.
   */
  lemma CacheKeyInjective(r1: RouteValues, r2: RouteValues)
    requires '-' !in r1.controller && '-' !in r2.controller
    requires CacheKey(r1) == CacheKey(r2)
    ensures r1 == r2
  {
    // The dash each layout places after its controller is the key's first dash, so the controllers have one length.
    CacheKeyLayout(r1);
    CacheKeyLayout(r2);
  }

  /** With a dash inside the controller value, two different routes share a key. */
  lemma CacheKeyCollision()
    ensures RouteValues("a-b", "c") != RouteValues("a", "b-c")
    ensures CacheKey(RouteValues("a-b", "c")) == CacheKey(RouteValues("a", "b-c"))
  {
  }

  /** A live entry for the key blocks the post-hook: the store is left exactly as it was. */
  lemma LiveEntryIsNotOverwritten(entries: Store, now: int, context: ResultExecutedContext, views: ViewEngine, duration: int)
    requires CacheKey(context.route) in entries && now < entries[CacheKey(context.route)].expiresAt
    ensures PostHook(entries, now, context, views, duration) == entries
  {
  }

  /** The post-hook changes at most the entry for the request's own key. */
  lemma PostHookTouchesOnlyItsKey(entries: Store, now: int, context: ResultExecutedContext, views: ViewEngine, duration: int, other: string)
    requires other != CacheKey(context.route)
    ensures other in PostHook(entries, now, context, views, duration) <==> other in entries
    ensures other in entries ==> PostHook(entries, now, context, views, duration)[other] == entries[other]
  {
  }

  /** On a miss, an object result is stored as its value's text with the response's content type and status code. */
  lemma ObjectResultIsStored(entries: Store, now: int, context: ResultExecutedContext, views: ViewEngine, duration: int)
    requires Lookup(entries, CacheKey(context.route), now).None?
    requires context.result.ObjectResult?
    ensures PostHook(entries, now, context, views, duration)
         == entries[CacheKey(context.route) := StoredEntry(
              OutputCacheModel(context.result.valueText, context.response.contentType, context.response.statusCode),
              now + duration)]
  {
  }

  /**
   * On a miss, a view result renders the view named by its ViewName, or by
   * the action value when that is null; when the view is found its rendered
   * text is stored, when it is not, nothing is.
   */
  lemma ViewResultIsStoredIfFound(entries: Store, now: int, context: ResultExecutedContext, views: ViewEngine, duration: int)
    requires Lookup(entries, CacheKey(context.route), now).None?
    requires context.result.ViewResult?
    ensures var name := if context.result.viewName.Some? then context.result.viewName.value else context.route.action;
      && (views(name).None? ==> PostHook(entries, now, context, views, duration) == entries)
      && (views(name).Some? ==>
            PostHook(entries, now, context, views, duration)
            == entries[CacheKey(context.route) := StoredEntry(
                 OutputCacheModel(views(name).value, context.response.contentType, context.response.statusCode),
                 now + duration)])
  {
  }

  /** A result that is neither an object result nor a view result is never stored. */
  lemma OtherResultsAreNotStored(entries: Store, now: int, context: ResultExecutedContext, views: ViewEngine, duration: int)
    requires !context.result.ObjectResult? && !context.result.ViewResult?
    ensures PostHook(entries, now, context, views, duration) == entries
  {
  }

  /** Running the post-hook twice at the same instant writes at most once. */
  lemma PostHookIsIdempotent(entries: Store, now: int, context: ResultExecutedContext, views: ViewEngine, duration: int)
    requires duration > 0
    ensures var once := PostHook(entries, now, context, views, duration);
      PostHook(once, now, context, views, duration) == once
  {
  }

  /**
   * After a hit the pre-hook has put a content result into the context; the
   * post-hook that follows leaves the store as it was, whether or not the
   * entry has expired in between.
   */
  lemma HitThenPostHookKeepsStore(entries: Store, now: int, route: RouteValues, current: Option<ActionResult>,
                                                     later: int, response: Response, views: ViewEngine, duration: int)
    requires Lookup(entries, CacheKey(route), now).Some?
    ensures var shortCircuit := PreHook(entries, now, route, current);
      shortCircuit.Some?
      && PostHook(entries, later, ResultExecutedContext(route, shortCircuit.value, response), views, duration) == entries
  {
  }

  /**
   * A miss whose result is captured as `m` makes every later request for the
   * same route, before `duration` seconds have passed, a hit that is served
   * a content result with m's body, content type and status code.
   */
  lemma MissThenHit(entries: Store, now: int, context: ResultExecutedContext, views: ViewEngine, duration: int,
                                       later: int, current: Option<ActionResult>)
    requires duration > 0 && now <= later < now + duration
    requires Lookup(entries, CacheKey(context.route), now).None?
    requires Capture(context.result, context.response, context.route, views).Some?
    ensures var m := Capture(context.result, context.response, context.route, views).value;
      PreHook(PostHook(entries, now, context, views, duration), later, context.route, current)
        == Some(ContentResult(m.content, m.contentType, m.statusCode))
  {
  }

  /**
   * An entry written at `written` is a miss from `written + duration` on,
   * and the next post-hook then writes afresh, to expire `duration` seconds
   * after that second write.
   */
  lemma ExpiredEntryIsRewritten(entries: Store, written: int, m: OutputCacheModel, duration: int,
                                                   later: int, context: ResultExecutedContext, views: ViewEngine)
    requires later >= written + duration
    requires Capture(context.result, context.response, context.route, views).Some?
    ensures var key := CacheKey(context.route);
      var afterFirst := Stored(entries, key, m, written, duration);
      && Lookup(afterFirst, key, later).None?
      && PostHook(afterFirst, later, context, views, duration)
         == afterFirst[key := StoredEntry(Capture(context.result, context.response, context.route, views).value, later + duration)]
  {
  }

  /**
   * Duration 5 on the route Products/List: a write of A at t=0 is served at
   * t=4, expired at t=6 where B is written, and B is served at t=7.
   */
  lemma ProductsListScenario(a: string, b: string, response: Response, views: ViewEngine)
    ensures var route := RouteValues("Products", "List");
      var s0 := PostHook(map[], 0, ResultExecutedContext(route, ObjectResult(a), response), views, 5);
      var s6 := PostHook(s0, 6, ResultExecutedContext(route, ObjectResult(b), response), views, 5);
      && CacheKey(route) == "Products-List"
      && PreHook(s0, 4, route, None) == Some(ContentResult(a, response.contentType, response.statusCode))
      && PreHook(s0, 6, route, None) == None
      && PreHook(s6, 7, route, None) == Some(ContentResult(b, response.contentType, response.statusCode))
  {
  }

  /**
   * Two attribute instances over one store, as the static store at
   * OutputCache.cs:14 makes every instance share: a miss at t=0 through the first is
   * populated, the second serves it at t=29 and misses at t=30.
   */
  method SharedStoreRequests(a: string, response: Response, views: ViewEngine)
    returns (first: Option<ActionResult>, second: Option<ActionResult>, expired: Option<ActionResult>)
    ensures first == None
    ensures second == Some(ContentResult(a, response.contentType, response.statusCode))
    ensures expired == None
  {
    var cache := new MemoryCache<OutputCacheModel>(0);
    var one := new OutputCacheAttribute(cache);
    var other := new OutputCacheAttribute(cache);
    var route := RouteValues("Products", "List");

    var request := new ActionExecutingContext(route);
    one.OnActionExecuting(request);
    first := request.result;
    one.OnResultExecuted(ResultExecutedContext(route, ObjectResult(a), response), views);

    cache.SetClock(29);
    request := new ActionExecutingContext(route);
    other.OnActionExecuting(request);
    second := request.result;

    cache.SetClock(30);
    request := new ActionExecutingContext(route);
    other.OnActionExecuting(request);
    expired := request.result;
  }
}
