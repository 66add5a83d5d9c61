/**
 * The Node caching proxy: two Express handlers that read through Redis to
 * MySQL. It never writes to the table and never deletes a key.
 */
module NodeCache {
  import opened Wrappers
  import opened Posts
  import opened Keys
  import opened Cache
  import opened Store
  import opened Coherence

  /** A handler's answer: 200 with the decoded value, or 404 with an `error` text. */
  datatype Reply = Found(value: Value) | NotFound(error: string)

  const NotFoundError: string := "Post not found"

  function Status(r: Reply): int
  {
    if r.Found? then 200 else 404
  }

  /**
   * The invariant of the proxy's Redis: sound for the table, and a cached
   * listing is newest first.
   */
  ghost predicate ProxyCacheSound(m: Entries, rows: seq<Post>)
  {
    && CacheSound(m, rows)
    && (CollectionKey in m ==> m[CollectionKey].value.PostList? && IdsDescending(m[CollectionKey].value.posts))
  }

  /** The proxy with its two connections, passed in rather than module-level. */
  class CacheService {
    const redis: KeyValueStore
    const pool: Database

    ghost predicate Valid()
      reads this, redis, pool
    {
      && pool.Valid()
      && ProxyCacheSound(redis.entries, pool.rows)
      && ExpiriesWithin(redis.entries, redis.now, TTL)
    }

    constructor (redis: KeyValueStore, pool: Database)
      requires pool.Valid() && ProxyCacheSound(redis.entries, pool.rows)
      requires ExpiriesWithin(redis.entries, redis.now, TTL)
      ensures this.redis == redis && this.pool == pool && Valid()
    {
      this.redis := redis;
      this.pool := pool;
    }

    /**
     * `GET /cache/posts`. A hit answers the cached listing and issues no query;
     * a miss answers every row newest first and caches exactly that for TTL.
     */
    method GetAllPosts() returns (reply: Reply)
      requires Valid()
      modifies redis`entries, pool`queries
      ensures Valid()
      ensures Status(reply) == 200
      ensures reply.Found? && reply.value.PostList? && IdsDescending(reply.value.posts)
      ensures IsSnapshot(reply.value.posts, pool.rows)
      ensures Live(old(redis.entries), redis.now, CollectionKey) ==>
        && reply.value == old(redis.entries)[CollectionKey].value
        && redis.entries == old(redis.entries)
        && pool.queries == old(pool.queries)
      ensures !Live(old(redis.entries), redis.now, CollectionKey) ==>
        && multiset(reply.value.posts) == multiset(pool.rows)
        && redis.entries == Inserted(old(redis.entries), redis.now, CollectionKey, reply.value, TTL)
        && pool.queries == old(pool.queries) + 1
    {
      var cached := redis.Get(CollectionKey);
      if cached.Some? {
        ListingHitIsSnapshot(redis.entries, pool.rows, redis.now);
        return Found(cached.value);
      }
      var rows := pool.SelectAllByIdDesc();
      SoundAfterCachingListing(redis.entries, pool.rows, redis.now, rows);
      assert pool.rows[..|pool.rows|] == pool.rows;
      redis.Set(CollectionKey, PostList(rows), TTL);
      reply := Found(PostList(rows));
    }

    /**
     * `GET /cache/posts/:id`, keyed by the raw segment. A hit answers whatever
     * the key holds; a miss caches and answers the selected row, or answers
     * 404 and writes nothing. For any segment but `"all"` the answer is the
     * table's current row.
     */
    method GetPost(id: string) returns (reply: Reply)
      requires Valid()
      modifies redis`entries, pool`queries
      ensures Valid()
      ensures Live(old(redis.entries), redis.now, EntityKey(id)) ==>
        && reply == Found(old(redis.entries)[EntityKey(id)].value)
        && redis.entries == old(redis.entries)
        && pool.queries == old(pool.queries)
      ensures !Live(old(redis.entries), redis.now, EntityKey(id)) ==>
        && pool.queries == old(pool.queries) + 1
        && var row := RowWithId(pool.rows, CoercedId(id));
        && (row.None? ==> reply == NotFound(NotFoundError) && redis.entries == old(redis.entries))
        && (row.Some? ==>
              && reply == Found(SinglePost(row.value))
              && redis.entries == Inserted(old(redis.entries), redis.now, EntityKey(id), reply.value, TTL))
      ensures Status(reply) == 404 <==> reply == NotFound(NotFoundError)
      ensures id != "all" && reply.Found? ==>
        reply.value.SinglePost? && RowWithId(pool.rows, CoercedId(id)) == Some(reply.value.post)
    {
      var key := EntityKey(id);
      var cached := redis.Get(key);
      if cached.Some? {
        if id != "all" {
          PostHitIsCurrent(redis.entries, pool.rows, redis.now, id);
        }
        return Found(cached.value);
      }
      var row := pool.SelectById(id);
      if row.None? {
        return NotFound(NotFoundError);
      }
      var p := row.value;
      FoundKeyIsNotCollectionKey(id, p);
      SoundAfterCachingPost(redis.entries, pool.rows, redis.now, id, p);
      redis.Set(key, SinglePost(p), TTL);
      reply := Found(SinglePost(p));
    }
  }
}
