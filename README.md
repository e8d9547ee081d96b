# Output cache action filter — Dafny model

This project models `OutputCacheAttribute`, an ASP.NET Core action filter that caches an action's output per route. Before an action runs, the filter builds the key `controller-action` from the route values. If the shared in-memory store holds a live entry for that key, the filter replaces the action with a content result copied from the entry. After a result has executed, the filter writes to the store only when no live entry exists for the key:

- an object result is stored as its value's `ToString()` text;
- a view result is stored as the rendered text of its view, named by `ViewName` or, when that is null, by the action value, provided the view is found;
- any other result is not stored.

Every write carries the response's content type and status code and expires `Duration` seconds later (default 30).

Files and modules:

- `wrappers.dfy` (`Wrappers`): the `Option` type.
- `memory_cache.dfy` (`MemoryCacheStore`): the store as a map from key to (value, absolute expiry) with an explicit integer clock. `Lookup` is the live read; `Stored` is a write. The class `MemoryCache` holds the entries and the clock and has the methods `Get`, `Set` and `SetClock`.
- `output_cache.dfy` (`OutputCache`): the cached record, the route values, the result kinds and the response, plus these pure parts:
  - `CacheKey`, the key;
  - `ViewNameFor`, the view-name fallback;
  - `Capture`, the classification of a result;
  - `PreHook` and `PostHook`, the effect of each hook as functions of the store and the clock.

  The class `OutputCacheAttribute` holds a reference to the shared store and the `duration` field. Its methods `OnActionExecuting` and `OnResultExecuted` call the store's methods as OutputCache.cs does, and their contracts tie them to `PreHook` and `PostHook`.
- `output_cache_properties.dfy` (`OutputCacheProperties`): lemmas about the key, both hooks and expiry, plus a client method that drives two attribute instances over one store.

Modelling choices:

- The clock is the store's `now` field, in whole seconds. It never goes back, so an entry once read as expired is never served again, as in the store, which removes an entry it finds expired. An entry is live while `now < expiresAt`; the store treats an entry whose absolute expiry has been reached as expired.
- The key is built from the controller and action route values alone. It ignores the area and the HTTP method, so different actions with the same two values share an entry: an `[HttpGet]` and an `[HttpPost]` action of one name, or `Home/Index` at the root and in an `Admin` area. On a live entry, a request to the second action is served the first action's cached response. This is like the dash collision that `CacheKeyCollision` records.
- The static store field at OutputCache.cs:14 becomes a store passed to `OutputCacheAttribute`'s constructor. Nothing in the model forces every instance to share it. Clients reproduce OutputCache.cs by passing one store to every instance, as `SharedStoreRequests` does.
- The view engine is a parameter `views: string -> Option<string>`. It maps a view name to the rendered text, or to `None` when the view is not found.
- An object result stands for the text its value's `ToString()` returns. No content-type-dependent serialiser exists in the code: the object branch always stores `Value.ToString()`.
- A `ContentResult` (what the pre-hook produces) is one of the "other" results. The filter never stores it.

## Model

| member | source | states |
|---|---|---|
| MemoryCacheStore.StoredThenLookup | OutputCache.cs:40 | a write with a relative expiry of `relative` seconds at time `now` reads back as the written value at every t < now + relative and as a miss at every t ≥ now + relative; every other key reads as before |
| MemoryCacheStore.MemoryCache.constructor | OutputCache.cs:14 | the store starts empty, with its clock at the given time |
| MemoryCacheStore.MemoryCache.Get | OutputCache.cs:20 | a read finds a value exactly when the key is present and its expiry time is after the clock, and the value found is the stored one |
| MemoryCacheStore.MemoryCache.Set | OutputCache.cs:40 | a write replaces the key's entry with the value and expiry now + relative, changes no other key and leaves the clock alone; the relative expiry must be positive |
| MemoryCacheStore.MemoryCache.SetClock | OutputCache.cs:14 | the store's clock moves forward, never back, and nothing stored changes, so an entry once read as expired stays expired |
| OutputCache.ViewNameFor | OutputCache.cs:45 | the view looked up is the result's ViewName when it is set, otherwise the action route value |
| OutputCache.Capture | OutputCache.cs:37-66 | an object result always yields an entry holding its value's text; a view result yields one exactly when the view named by the fallback rule is found, holding the rendered text; anything stored carries the response's content type and status code, and no other result yields an entry |
| OutputCache.PreHook | OutputCache.cs:19-28 | on a live entry for the route's key the context's result becomes a content result whose ContentType, StatusCode and Content are the entry's; otherwise the result is unchanged |
| OutputCache.ActionExecutingContext.constructor | OutputCache.cs:17 | a fresh context carries the route values and no result yet |
| OutputCache.OutputCacheAttribute.constructor | OutputCache.cs:14-15 | an attribute refers to the given shared store and has Duration 30 |
| OutputCache.OutputCacheAttribute.OnActionExecuting | OutputCache.cs:17-30 | sets the context's result as PreHook describes and changes nothing else; the store is not modified |
| OutputCache.OutputCacheAttribute.OnResultExecuted | OutputCache.cs:32-68 | the store's entries become PostHook of the old entries at the current time with the attribute's Duration, and the clock stays put; a positive Duration is needed only when a write happens |
| OutputCacheProperties.CacheKeyLayout | OutputCache.cs:19 | the key is the controller value, then "-", then the action value |
| OutputCacheProperties.CacheKeyInjective | OutputCache.cs:34 | when controller values contain no dash, two routes with the same key are the same route, so both hooks of one request, and only requests with the same controller and action values, meet on one entry |
| OutputCacheProperties.CacheKeyCollision | OutputCache.cs:19 | with a dash inside the controller value, the different routes (a-b, c) and (a, b-c) share the key a-b-c |
| OutputCacheProperties.LiveEntryIsNotOverwritten | OutputCache.cs:35 | when a live entry exists for the key, the post-hook leaves the whole store exactly as it was |
| OutputCacheProperties.PostHookTouchesOnlyItsKey | OutputCache.cs:35-66 | the post-hook adds, removes or changes no key other than the request's own |
| OutputCacheProperties.ObjectResultIsStored | OutputCache.cs:37-40 | on a miss, an object result is stored as its value's text with the response's ContentType and StatusCode, expiring Duration seconds after the write |
| OutputCacheProperties.ViewResultIsStoredIfFound | OutputCache.cs:42-64 | on a miss, a view result with a found view is stored as exactly the rendered text with the response's ContentType and StatusCode; a view that is not found causes no write |
| OutputCacheProperties.OtherResultsAreNotStored | OutputCache.cs:37-66 | a result that is neither an object result nor a view result leaves the store unchanged |
| OutputCacheProperties.PostHookIsIdempotent | OutputCache.cs:35-40 | with a positive Duration, a second post-hook at the same instant writes nothing more |
| OutputCacheProperties.HitThenPostHookKeepsStore | OutputCache.cs:20-35 | after a hit, the post-hook that runs on the short-circuit content result leaves the store as it was, even when the entry has expired in between |
| OutputCacheProperties.MissThenHit | OutputCache.cs:20-40 | a miss whose result is captured makes every pre-hook on that route within Duration seconds a hit that serves the captured body, content type and status code |
| OutputCacheProperties.ExpiredEntryIsRewritten | OutputCache.cs:40 | an entry is a miss from Duration seconds after its write, and the next post-hook with something to store writes a new entry expiring Duration seconds after that write |
| OutputCacheProperties.ProductsListScenario | OutputCache.cs:17-68 | with Duration 5 on Products/List, the key is "Products-List"; entry A written at t=0 is served at t=4 and expired at t=6; entry B written at t=6 is served at t=7 |
| OutputCacheProperties.SharedStoreRequests | OutputCache.cs:14-15 | two attribute instances over one store: the first request misses and populates; a request through the other instance at t=29 is served the cached body, content type and status code; at t=30 it misses |

## Left out

- Concurrency: `OnResultExecuted` is `async void`, and requests interleave, including two requests racing to write one key (the last writer wins). The model is sequential: the read of the store and the write that follows happen with nothing in between.
- No time passes during rendering. At OutputCache.cs:54-58 the view branch awaits `RenderAsync` before `cache.Set`, so there the expiry counts from the end of rendering, and ContentType and StatusCode are read after the await. The model writes at the instant of the guard at line 35, with the response as it was then.
- View resolution and rendering: the composite view engine, its lookup through the request's services, `RenderAsync`, `ViewContext`, the `StringWriter` and the HTML helper options are one abstract function from view name to optional text. View data and temp data are not inputs of that function.
- The console message for a view that is not found is I/O. Only the outcome is modelled: nothing is written.
- `MemoryCache` internals are not modelled: eviction, size limits, compaction, options, sliding expiry and timers. The store is a map read lazily against its clock.
- `TimeSpan.FromSeconds` over a `double` is modelled as whole integer seconds added to the clock.
- MemoryCacheStore.MemoryCache.Set: the store throws for a non-positive relative expiry, and the model turns that into a precondition rather than an error path. `OnResultExecuted` therefore requires a positive Duration, but only when it would write.
- Null route values (lines 19, 34, 45) and a null object-result value (line 39) would throw in the code; the model's types exclude them.
- A null `ToString()` result is stored and later served as an empty body; in the model the text is never null.
- A null response content type is not told apart from any other content type: the content type is an opaque string, copied verbatim.
- `OutputCacheModel` is declared outside OutputCache.cs; its three properties are those OutputCache.cs sets at lines 39 and 57.
- Framework plumbing that does not affect the cached outcome is not modelled: `HttpContext`, dependency injection, the filter pipeline itself.
