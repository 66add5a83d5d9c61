/**
 * The key-value cache with per-key expiry (Redis for the Node service, the
 * framework cache for the Lumen API). Values are held decoded: the JSON text
 * in between is not modelled.
 */
module Cache {
  import opened Wrappers
  import opened Posts

  /** What a cache entry holds: a listing or a single post. */
  datatype Value = PostList(posts: seq<Post>) | SinglePost(post: Post)

  /** A stored value and the clock reading at which it stops being served. */
  datatype Entry = Entry(value: Value, expiresAt: int)

  type Entries = map<string, Entry>

  /** Lifetime, in seconds, of every entry the read-through handlers write. */
  const TTL: nat := 60

  /** `key` is present and has not yet reached its expiry. */
  predicate Live(m: Entries, now: int, key: string)
  {
    key in m && now < m[key].expiresAt
  }

  /** `GET key`: the stored value while it lives, nothing otherwise. */
  function Lookup(m: Entries, now: int, key: string): Option<Value>
  {
    if Live(m, now, key) then Some(m[key].value) else None
  }

  /** `SET key value EX ttl`: the entry is replaced wholesale. */
  function Inserted(m: Entries, now: int, key: string, v: Value, ttl: nat): Entries
  {
    m[key := Entry(v, now + ttl)]
  }

  /** `forget key` / `DEL key`. */
  function Removed(m: Entries, key: string): Entries
  {
    m - {key}
  }

  /**
   * A value set with a lifetime is returned by every lookup of its key made
   * before the lifetime runs out and by none after; other keys read as before.
   */
  lemma LookupAfterInserted(m: Entries, now: int, key: string, v: Value, ttl: nat, later: int, other: string)
    ensures Lookup(Inserted(m, now, key, v, ttl), later, key) == (if later < now + ttl then Some(v) else None)
    ensures other != key ==> Lookup(Inserted(m, now, key, v, ttl), later, other) == Lookup(m, later, other)
  {
  }

  /** After a forget the key misses at every time; other keys read as before. */
  lemma LookupAfterRemoved(m: Entries, key: string, at: int, other: string)
    ensures Lookup(Removed(m, key), at, key) == None
    ensures other != key ==> Lookup(Removed(m, key), at, other) == Lookup(m, at, other)
  {
  }

  /** Forgetting a key that is absent changes nothing; forgetting twice is forgetting once. */
  lemma RemovedIdempotent(m: Entries, key: string)
    ensures key !in m ==> Removed(m, key) == m
    ensures Removed(Removed(m, key), key) == Removed(m, key)
  {
  }

  /** No entry outlives `ttl` seconds from `now`: each was written at or before `now`. */
  ghost predicate ExpiriesWithin(m: Entries, now: int, ttl: nat)
  {
    forall k :: k in m ==> m[k].expiresAt <= now + ttl
  }

  lemma ExpiriesWithinLater(m: Entries, now: int, later: int)
    requires ExpiriesWithin(m, now, TTL) && now <= later
    ensures ExpiriesWithin(m, later, TTL)
  {
  }

  /**
   * Staleness is bounded: once TTL seconds have passed, no entry written
   * before is served any more.
   */
  lemma NothingLivesPastTtl(m: Entries, now: int, later: int, key: string)
    requires ExpiriesWithin(m, now, TTL) && now + TTL <= later
    ensures Lookup(m, later, key) == None
  {
  }

  /** A cache server: its entries and its own clock, in seconds. */
  class KeyValueStore {
    var entries: Entries
    var now: int

    constructor ()
      ensures entries == map[] && now == 0
    {
      entries := map[];
      now := 0;
    }

    method Get(key: string) returns (v: Option<Value>)
      ensures v.Some? <==> Live(entries, now, key)
      ensures v.Some? ==> v.value == entries[key].value
    {
      v := Lookup(entries, now, key);
    }

    method Set(key: string, v: Value, ttl: nat)
      modifies this`entries
      ensures entries == Inserted(old(entries), now, key, v, ttl)
    {
      entries := Inserted(entries, now, key, v, ttl);
    }

    method Forget(key: string)
      modifies this`entries
      ensures entries == Removed(old(entries), key)
    {
      entries := Removed(entries, key);
    }

    /** Time passes; entries stay stored and stop living once their expiry is reached. */
    method Advance(seconds: nat)
      modifies this`now
      ensures now == old(now) + seconds
    {
      now := now + seconds;
    }
  }
}
