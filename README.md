# Cache-aside for posts, modelled in Dafny

The system serves "posts" over HTTP twice. A Node/Express caching proxy reads through Redis to MySQL.
A Lumen (PHP) API reads through the framework cache. Both use the same key scheme: `posts:all` for the
listing and `posts:{id}` for one post. Each read looks in the cache first. On a hit it answers the stored
value and does not query the table. On a miss it queries the table, stores the result for 60 seconds and
answers it. A post that is not found is never cached. The API's `store` action is the only write. It
validates the request, inserts one row owned by the authenticated user, then forgets `posts:all` and
nothing else. The API's exception handler turns a thrown exception into a JSON error response.

The model has these parts:

- `Posts` (posts.dfy): the `posts` row. It also covers how an id is written in a URL, and how the store
  coerces a raw path segment to an integer id: the value of its leading digits, 0 when there are none.
  Rows are kept in ascending id order, so `ORDER BY id DESC` is the rows reversed.
- `Keys` (keys.dfy): `posts:all` and `posts:` followed by the unnormalised segment.
- `Cache` (cache.dfy): entries with an expiry time, TTL = 60, and an explicit clock. Class
  `KeyValueStore` has `Get`, `Set`, `Forget` and `Advance`.
- `Store` (store.dfy): class `Database` holds the table and its auto-increment counter. A ghost counter
  of issued statements lets contracts say "no query".
- `Coherence` (coherence.dfy): the invariant every cache keeps. A listing entry holds the table's rows as
  they were at some earlier moment. A per-post entry holds a table row whose id its key selects.
- `NodeCache` (node_cache.dfy): class `CacheService` with the two Express handlers.
- `Validation` (validation.dfy) and `ErrorHandler` (error_handler.dfy): the `store` rule table;
  `Handler::render` and `class_basename`.
- `Lumen` (lumen.dfy): class `PostController` with `index`, `store` and `show`.
- `Scenarios` (scenarios.dfy): client methods that chain several requests. They show the round trip
  within the TTL, the reload after `store`, and the proxy serving stale data until the TTL runs out.

Some properties of the code that a reader might not expect:

- The key scheme is not collision-free. The segment is used raw, so `GET /cache/posts/all` and
  `show('all')` use the listing key. When the listing is cached they answer the whole listing
  (`Keys.EntityKeyIsCollectionKey`). On a miss the segment selects id 0, so they answer "not found" and
  cache nothing.
- Neither service treats an unreachable cache as a miss: a cache error is not caught on the read path.
  Outages are left out.
- The two services answer a missing post differently. In the API, `findOrFail` throws
  `ModelNotFoundException`. This is not an HTTP exception and the overridden `render` does not convert
  it, so a missing post is answered with 500 (`Lumen.MissingPostIs500`). The proxy answers 404.
- Only the proxy's listing query is ordered, newest first. The API's `Post::all()` has no `ORDER BY`, so
  the model only promises the API's listing is a permutation of the rows.
- The proxy never invalidates anything. Its listing can miss a post the API created until the entry
  expires, at most 60 seconds later (`Scenarios.ProxyStaleUntilExpiry`). The two services use separate
  caches over one shared table.

## Model

| member | source | states |
|---|---|---|
| `NodeCache.CacheService.GetAllPosts` | node-cache/src/index.ts:39-46 | looks up `posts:all`. A hit answers the cached value, leaves the cache as it was and issues no query. A miss answers every row newest first, caches exactly that under `posts:all` for 60 s and issues one query. The answer is always a newest-first snapshot of the table |
| `NodeCache.CacheService.GetPost` | node-cache/src/index.ts:48-60 | looks up `posts:` + raw segment. A hit answers what the key holds, with no query and no write. A miss with a matching row caches that one row under the key for 60 s and answers it. A miss without a row answers 404 with `Post not found` and writes nothing. For every segment except `all`, a success equals the table's current row |
| `Lumen.PostController.Index` | lumen-api/app/Http/Controllers/PostController.php:11-16 | `remember('posts:all', 60, Post::all)`. A hit answers the cached listing with no query. A miss answers a permutation of all rows and caches it for 60 s. The answer is always a snapshot of the table, status 200 |
| `Lumen.PostController.Store` | lumen-api/app/Http/Controllers/PostController.php:18-32 | a request failing validation throws `ValidationException` carrying the field errors, with no insert, no query and no cache change. A valid request appends exactly one row with the next id, the given title and content, and `user_id` = the authenticated id. It then removes only `posts:all` and answers the post with 201 |
| `Lumen.PostController.Show` | lumen-api/app/Http/Controllers/PostController.php:34-39 | `remember('posts:{id}', 60, findOrFail)`. A hit answers what the key holds. A miss caches and answers the row, or throws `ModelNotFoundException` and caches nothing. For every segment except `all`, a success is the current row |
| `Cache.KeyValueStore.Get` | node-cache/src/index.ts:40 | returns a value exactly when the key is present and not yet expired, and that value is the stored one |
| `Cache.KeyValueStore.Set` | node-cache/src/index.ts:44 | replaces the key's entry wholesale with the value and expiry now + ttl; no other key changes |
| `Cache.KeyValueStore.Forget` | lumen-api/app/Http/Controllers/PostController.php:30 | removes exactly that key |
| `Cache.LookupAfterInserted` | node-cache/src/index.ts:44-45 | a value set with TTL 60 is returned by every lookup before the TTL ends and by none after; other keys read as before |
| `Cache.LookupAfterRemoved` | lumen-api/app/Http/Controllers/PostController.php:30 | after a forget the key misses at every time; every other key reads as before |
| `Cache.RemovedIdempotent` | lumen-api/app/Http/Controllers/PostController.php:30 | forgetting an absent key changes nothing; forgetting twice equals forgetting once |
| `Cache.NothingLivesPastTtl` | node-cache/src/index.ts:58 | when no entry expires later than now + 60, nothing is served 60 s later: staleness is bounded by the TTL |
| `Store.Database.SelectAllByIdDesc` | node-cache/src/index.ts:43 | answers exactly the table's rows (as a multiset), strictly descending by id |
| `Store.Database.SelectAll` | lumen-api/app/Http/Controllers/PostController.php:14 | answers exactly the table's rows, in no promised order |
| `Store.Database.SelectById` | node-cache/src/index.ts:54-55 | answers the row whose id equals the coerced segment, if there is one |
| `Store.Database.Insert` | lumen-api/app/Http/Controllers/PostController.php:25-29 | appends one row with the next id, larger than every existing id, and keeps ids ascending |
| `Posts.CoercedId` | node-cache/src/index.ts:54 | the id a raw segment selects is the value of its digit run that is not followed by another digit, the longest digit prefix |
| `Posts.RowWithId` | node-cache/src/index.ts:54-55 | returns a row of the table with the requested id, or nothing exactly when no row has it |
| `Posts.RowWithIdUnique` | node-cache/src/index.ts:55 | with ascending (distinct) ids, the first row found is the only row with that id |
| `Posts.ReversedIsByIdDesc` | node-cache/src/index.ts:43 | rows kept in ascending id order, reversed, are the same rows strictly descending by id |
| `Posts.CoercedIdOfDecimal` | node-cache/src/index.ts:54 | a post fetched by its decimal id selects that id |
| `Posts.DecimalStringInjective` | node-cache/src/index.ts:50 | distinct ids are written as distinct segments, so they get distinct keys |
| `Posts.CoercedIdWithoutDigits` | node-cache/src/index.ts:54 | a segment without a leading digit, such as `all`, selects id 0 |
| `Keys.EntityKey` | node-cache/src/index.ts:50 | the key is `posts:` followed by the segment, unchanged, so the segment can be read back from the key |
| `Keys.EntityKeyInjective` | node-cache/src/index.ts:50 | two per-post keys are equal exactly when their segments are |
| `Keys.EntityKeyIsCollectionKey` | node-cache/src/index.ts:50 | the per-post key equals `posts:all` exactly when the segment is `all` |
| `Keys.PostKeyIsNotCollectionKey` | lumen-api/app/Http/Controllers/PostController.php:36 | the key of a post fetched by its decimal id is never `posts:all` |
| `Coherence.SoundAfterAppend` | lumen-api/app/Http/Controllers/PostController.php:25-29 | inserting a row keeps every cache entry sound, including the caches of the other service |
| `Coherence.SoundAfterCachingListing` | node-cache/src/index.ts:43-44 | caching a listing equal to today's rows keeps the cache sound |
| `Coherence.SoundAfterCachingPost` | node-cache/src/index.ts:54-58 | caching the row a segment selects under that segment's key keeps the cache sound |
| `Coherence.FoundKeyIsNotCollectionKey` | node-cache/src/index.ts:56-58 | a segment that finds a row never writes `posts:all` |
| `Coherence.ListingHitIsSnapshot` | node-cache/src/index.ts:41 | a listing hit is the table's rows as they were at some earlier moment |
| `Coherence.PostHitIsCurrent` | node-cache/src/index.ts:51-52 | a per-post hit for any segment but `all` is exactly what a miss would load now |
| `Coherence.FreshPostNotInSnapshot` | lumen-api/app/Http/Controllers/PostController.php:25-29 | a post created after a listing was cached is not in that listing |
| `Coherence.NoEntryForFreshId` | lumen-api/app/Http/Controllers/PostController.php:30 | no per-post entry selects an id larger than every existing id, so `store` need only forget `posts:all` |
| `Validation.FailedRules` | lumen-api/app/Http/Controllers/PostController.php:21-22 | a field fails no rule exactly when it is a non-blank string within the length bounds; an absent or blank field fails `required` only |
| `Validation.ValidationErrors` | lumen-api/app/Http/Controllers/PostController.php:20-23 | no errors exactly when the title is a non-blank string of 1..255 characters and the content a non-blank string of 1..5000; each failing field has one entry, title first, and the entry lists exactly the rules that field fails with its own bounds; a field with no failed rule has no entry |
| `Validation.AcceptedBounds` | lumen-api/app/Http/Controllers/PostController.php:21-22 | an accepted request has a 1..255-character title and a 1..5000-character content |
| `Validation.EmptyFieldsRejected` | lumen-api/tests/PostTest.php:57-66 | an empty title and an empty content each fail `required` |
| `ErrorHandler.Render` | lumen-api/app/Exceptions/Handler.php:32-61 | the status is 422, 401, 500 or the HTTP exception's own code. Details appear exactly for validation exceptions and a type exactly for generic ones. The error text is non-empty except for a generic exception with an empty message |
| `ErrorHandler.RenderByKind` | lumen-api/app/Exceptions/Handler.php:35-60 | validation gives 422 `Validation failed` with the field errors as details. Authentication gives 401 `Unauthorized`. HTTP gives its own code with its message, or `HTTP Error` when the message is `""` or `"0"`. Anything else gives 500 with its message and class basename |
| `ErrorHandler.ClassBasename` | lumen-api/app/Exceptions/Handler.php:59 | the result is the suffix after the last backslash: it contains no backslash and what precedes it is empty or ends in one |
| `ErrorHandler.BasenameOfQualified` | lumen-api/app/Exceptions/Handler.php:59 | the basename of `namespace\Name` is `Name` |
| `Lumen.ModelNotFound` | lumen-api/app/Http/Controllers/PostController.php:37 | `findOrFail` on a missing id throws the model-not-found exception, which is not an HTTP exception; its message ends in the id |
| `Lumen.Respond` | lumen-api/app/Exceptions/Handler.php:32 | a returned response reaches the client unchanged; a thrown exception reaches it as `render` of that exception, with status 422, 401, 500 or an HTTP exception's own code |
| `Lumen.RejectedStoreIs422` | lumen-api/app/Exceptions/Handler.php:35-40 | a rejected `store` reaches the client as 422 `Validation failed` with its field errors |
| `Lumen.MissingPostIs500` | lumen-api/app/Exceptions/Handler.php:57-60 | `show` of a missing id reaches the client as 500 with type `ModelNotFoundException` |
| `Lumen.ModelNotFoundBasename` | lumen-api/app/Exceptions/Handler.php:59 | the `type` reported for the not-found exception is `ModelNotFoundException` |
| `Scenarios.ListingReadAgainWithinTtl` | node-cache/src/index.ts:41-45 | a listing cached on a miss is answered again, unchanged and with no further query, by a request less than 60 s later |
| `Scenarios.PostReadAgainWithinTtl` | node-cache/src/index.ts:52-59 | a post cached on a miss is answered again, unchanged and with no further query, within 60 s. A not-found leaves the cache as it was |
| `Scenarios.StoreThenIndex` | lumen-api/app/Http/Controllers/PostController.php:13-30 | after a successful `store`, the next `index` reloads, and its listing holds the new post and every row |
| `Scenarios.ProxyStaleUntilExpiry` | node-cache/src/index.ts:39-46 | after the API creates a post, the proxy's cached listing still lacks it; once 60 s have passed, the proxy's next listing includes it |

## Left out

- JSON text: the caches hold decoded values, so encoding and decoding are the identity. The proxy's
  `if (cached)` test is modelled as presence, because the JSON text of a value is never empty.
- Validation.FailedRules: for a present value that is not a string, it reports only the `string` rule.
  How `min`/`max` judge numbers or arrays is not modelled; the accept/reject verdict is unaffected.
  Rules are named, not the framework's message sentences.
- Posts.CoercedId: models MySQL's string-to-integer coercion as the leading digit run only. Leading
  whitespace, a sign, a fractional part and an exponent are not modelled.
- Timestamps (`created_at`, `updated_at`) of a row, and any column other than id, title, content and
  user_id.
- Authentication and JWT: the authenticated id is a parameter of `store`. The middleware that answers
  401 is framework wiring; only `render`'s 401 branch is modelled.
- Cache or database outages, and the proxy's error middleware and 404 fallback route
  (node-cache/src/index.ts:62-77). The code has no degrade-to-store path.
- Concurrency: requests are sequential in the model, so two interleaved misses (a stampede) are not
  represented.
- Redis's removal of expired keys: an expired entry stays in the map but is never served, which is all
  a client can observe.
- Process setup: Express, `init()`, environment configuration, framework bootstrap and routes, and
  `Handler::report` (logging).
- The frontend.
