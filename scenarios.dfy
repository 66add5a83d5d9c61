/**
 * Properties that relate several requests, stated as client methods that
 * drive the services through their contracts alone.
 */
module Scenarios {
  import opened Wrappers
  import opened Posts
  import opened Keys
  import opened Cache
  import opened Store
  import opened Coherence
  import opened Validation
  import opened ErrorHandler
  import opened NodeCache
  import opened Lumen

  /**
   * A listing the proxy loads on a miss is served again, without a query,
   * by every request made before its TTL runs out.
   */
  method ListingReadAgainWithinTtl(s: CacheService, wait: nat) returns (first: Reply, second: Reply)
    requires s.Valid() && wait < TTL
    requires !Live(s.redis.entries, s.redis.now, CollectionKey)
    modifies s.redis, s.pool`queries
    ensures s.Valid()
    ensures second == first && s.pool.queries == old(s.pool.queries) + 1
  {
    first := s.GetAllPosts();
    s.redis.Advance(wait);
    ExpiriesWithinLater(s.redis.entries, old(s.redis.now), s.redis.now);
    second := s.GetAllPosts();
  }

  /** The same round trip for a single post the proxy found on a miss. */
  method PostReadAgainWithinTtl(s: CacheService, id: string, wait: nat) returns (first: Reply, second: Reply)
    requires s.Valid() && wait < TTL
    requires !Live(s.redis.entries, s.redis.now, EntityKey(id))
    modifies s.redis, s.pool`queries
    ensures s.Valid()
    ensures first.Found? ==> second == first && s.pool.queries == old(s.pool.queries) + 1
    ensures first.NotFound? ==> s.redis.entries == old(s.redis.entries)
  {
    first := s.GetPost(id);
    s.redis.Advance(wait);
    ExpiriesWithinLater(s.redis.entries, old(s.redis.now), s.redis.now);
    second := s.GetPost(id);
  }

  /**
   * After a successful `store`, the next `index` misses and reloads, so the
   * listing it answers holds the new post.
   */
  method StoreThenIndex(c: PostController, req: PostRequest, userId: nat)
    returns (stored: Result<Json, Exception>, listed: Json)
    requires c.Valid()
    modifies c.db, c.cache`entries
    ensures c.Valid()
    ensures stored.Success? <==> ValidationErrors(req) == []
    ensures listed.value.PostList?
    ensures stored.Success? ==>
      stored.value.value.SinglePost? &&
      stored.value.value.post in listed.value.posts && multiset(listed.value.posts) == multiset(c.db.rows)
  {
    stored := c.Store(req, userId);
    listed := c.Index();
    if stored.Success? {
      assert stored.value.value.post in c.db.rows;
      assert stored.value.value.post in multiset(c.db.rows);
    }
  }

  /**
   * The proxy has no invalidation path: after the API creates a post in the
   * shared table, the proxy keeps answering its cached listing, which lacks
   * the post, until the entry expires; at most TTL seconds later it reloads
   * and the post is there.
   */
  method ProxyStaleUntilExpiry(node: CacheService, api: PostController, req: PostRequest, userId: nat)
    returns (created: Result<Json, Exception>, stale: Reply, refreshed: Reply)
    requires node.Valid() && api.Valid()
    requires node.pool == api.db && node.redis != api.cache
    requires ValidationErrors(req) == []
    requires Live(node.redis.entries, node.redis.now, CollectionKey)
    modifies node.redis, node.pool, api.cache`entries
    ensures created.Success? && created.value.value.SinglePost?
    ensures stale.Found? && stale.value.PostList? && refreshed.Found? && refreshed.value.PostList?
    ensures created.value.value.post !in stale.value.posts
    ensures created.value.value.post in refreshed.value.posts
  {
    ghost var listing := node.redis.entries[CollectionKey].value.posts;
    ghost var before := node.pool.rows;
    created := api.Store(req, userId);
    var p := created.value.value.post;
    SoundAfterAppend(node.redis.entries, before, p);
    FreshPostNotInSnapshot(listing, before, p);

    stale := node.GetAllPosts();

    node.redis.Advance(TTL);
    ExpiriesWithinLater(node.redis.entries, old(node.redis.now), node.redis.now);
    NothingLivesPastTtl(node.redis.entries, old(node.redis.now), node.redis.now, CollectionKey);
    refreshed := node.GetAllPosts();
    assert p in node.pool.rows;
    assert p in multiset(node.pool.rows);
  }
}
