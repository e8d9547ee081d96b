/**
 * The output-cache action filter. Before an action runs it looks the
 * request's key up in the shared store and, on a live hit, replaces the
 * action with a content result copied from the cached entry. After a result
 * has executed it stores the result's text, once per key and expiry window:
 * the text of an object result, or the rendered text of a view result whose
 * view exists; any other result is not stored.
 */
module OutputCache {
  import opened Wrappers
  import opened MemoryCacheStore

  /** What is cached per key: the body, its content type and its status code. */
  datatype OutputCacheModel = OutputCacheModel(content: string, contentType: string, statusCode: int)

  /** The two route values the key is built from. */
  datatype RouteValues = RouteValues(controller: string, action: string)

  /**
   * The result an action produced. An object result is represented by the
   * text its value's ToString() yields; a view result by its ViewName, None
   * when that is null; every other kind of result is `OtherResult`.
   */
  datatype ActionResult =
    | ContentResult(content: string, contentType: string, statusCode: int)
    | ObjectResult(valueText: string)
    | ViewResult(viewName: Option<string>)
    | OtherResult(kind: string)

  /** The response's content type and status code when the result has executed. */
  datatype Response = Response(contentType: string, statusCode: int)

  /** What the post-hook sees of a request. */
  datatype ResultExecutedContext = ResultExecutedContext(route: RouteValues, result: ActionResult, response: Response)

  /** The view engine: finds a view by name and renders it, or reports it missing. */
  type ViewEngine = string -> Option<string>

  type Store = Entries<OutputCacheModel>

  /** The TTL, in seconds, of every write unless the attribute is configured otherwise. */
  const DefaultDuration: int := 30

  /** The cache key: the controller value, a dash, then the action value. */
  function CacheKey(route: RouteValues): string
  {
    route.controller + "-" + route.action
  }

  /** The view the post-hook renders: the result's ViewName when it is set, otherwise the action value. */
  function ViewNameFor(viewName: Option<string>, route: RouteValues): (name: string)
    ensures viewName.Some? ==> name == viewName.value
    ensures viewName.None? ==> name == route.action
  {
    match viewName
    case Some(n) => n
    case None => route.action
  }

  /**
   * The entry a result would be cached as, or None when nothing is to be
   * cached for it.
   */
  function Capture(result: ActionResult, response: Response, route: RouteValues, views: ViewEngine): (m: Option<OutputCacheModel>)
    ensures result.ObjectResult? ==> m == Some(OutputCacheModel(result.valueText, response.contentType, response.statusCode))
    ensures result.ViewResult? ==> (m.Some? <==> views(ViewNameFor(result.viewName, route)).Some?)
    ensures result.ViewResult? && m.Some? ==> m.value.content == views(ViewNameFor(result.viewName, route)).value
    ensures m.Some? ==> m.value.contentType == response.contentType && m.value.statusCode == response.statusCode
    ensures m.Some? ==> result.ObjectResult? || result.ViewResult?
  {
    match result
    case ObjectResult(text) => Some(OutputCacheModel(text, response.contentType, response.statusCode))
    case ViewResult(viewName) =>
      (match views(ViewNameFor(viewName, route))
       case Some(rendered) => Some(OutputCacheModel(rendered, response.contentType, response.statusCode))
       case None => None)
    case _ => None
  }

  /** Whether the post-hook writes: no live entry for the key, and the result has something to cache. */
  predicate Writes(entries: Store, now: int, context: ResultExecutedContext, views: ViewEngine)
  {
    Lookup(entries, CacheKey(context.route), now).None?
    && Capture(context.result, context.response, context.route, views).Some?
  }

  /**
   * The result OnActionExecuting leaves in the context: a content result
   * copied from the live entry for the route's key, otherwise the result
   * that was there.
   */
  function PreHook(entries: Store, now: int, route: RouteValues, current: Option<ActionResult>): (r: Option<ActionResult>)
    ensures var key := CacheKey(route);
      key in entries && now < entries[key].expiresAt ==>
        var m := entries[key].value;
        r.Some? && r.value.ContentResult?
        && r.value.contentType == m.contentType && r.value.statusCode == m.statusCode && r.value.content == m.content
    ensures var key := CacheKey(route);
      !(key in entries && now < entries[key].expiresAt) ==> r == current
  {
    match Lookup(entries, CacheKey(route), now)
    case Some(m) => Some(ContentResult(m.content, m.contentType, m.statusCode))
    case None => current
  }

  /** The store after OnResultExecuted at time `now` with the attribute's `duration`. */
  function PostHook(entries: Store, now: int, context: ResultExecutedContext, views: ViewEngine, duration: int): Store
  {
    if Writes(entries, now, context, views) then
      Stored(entries, CacheKey(context.route), Capture(context.result, context.response, context.route, views).value, now, duration)
    else
      entries
  }

  /** The context a filter sees before the action runs; its result is what the filter may set. */
  class ActionExecutingContext {
    const route: RouteValues
    var result: Option<ActionResult>

    constructor (route: RouteValues)
      ensures this.route == route && result == None
    {
      this.route := route;
      result := None;
    }
  }

  /** The attribute: a reference to the store all its instances share, and the TTL it writes with. */
  class OutputCacheAttribute {
    const cache: MemoryCache<OutputCacheModel>
    var duration: int

    constructor (cache: MemoryCache<OutputCacheModel>)
      ensures this.cache == cache && duration == DefaultDuration
    {
      this.cache := cache;
      duration := DefaultDuration;
    }

    /** On a live hit, short-circuit the action with the cached response; on a miss, leave the context as it is. */
    method OnActionExecuting(context: ActionExecutingContext)
      modifies context
      ensures context.result == PreHook(cache.entries, cache.now, context.route, old(context.result))
    {
      var key := CacheKey(context.route);
      var hit := cache.Get(key);
      if hit.Some? {
        var m := hit.value;
        context.result := Some(ContentResult(m.content, m.contentType, m.statusCode));
      }
    }

    /**
     * When no live entry exists for the key, cache an object result's text or
     * a found view's rendered text with the response's content type and
     * status code for `duration` seconds. A write needs a positive duration.
     */
    method OnResultExecuted(context: ResultExecutedContext, views: ViewEngine)
      requires Writes(cache.entries, cache.now, context, views) ==> duration > 0
      modifies cache
      ensures cache.now == old(cache.now)
      ensures cache.entries == PostHook(old(cache.entries), old(cache.now), context, views, duration)
    {
      var key := CacheKey(context.route);
      var existing := cache.Get(key);
      if existing.None? {
        match context.result {
          case ObjectResult(text) =>
            var m := OutputCacheModel(text, context.response.contentType, context.response.statusCode);
            cache.Set(key, m, duration);
          case ViewResult(viewName) =>
            var name := ViewNameFor(viewName, context.route);
            var rendered := views(name);
            if rendered.Some? {
              var m := OutputCacheModel(rendered.value, context.response.contentType, context.response.statusCode);
              cache.Set(key, m, duration);
            }
          case _ =>
        }
      }
    }
  }
}
