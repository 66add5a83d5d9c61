/**
 * What the cache may hold relative to the table. Both services keep this
 * invariant: a listing entry is the table as it was at some earlier moment,
 * and a per-post entry is a row of the table whose id its key selects.
 */
module Coherence {
  import opened Wrappers
  import opened Posts
  import opened Keys
  import opened Cache

  /**
   * `list` holds exactly the rows the table had at some earlier moment; rows
   * are only appended, so those are a prefix of today's rows.
   */
  ghost predicate IsSnapshot(list: seq<Post>, rows: seq<Post>)
  {
    exists n :: 0 <= n <= |rows| && multiset(list) == multiset(rows[..n])
  }

  /** `k` is a per-post key whose segment selects the row with id `id`. */
  predicate IsKeyFor(k: string, id: nat)
  {
    |Prefix| <= |k| && k[..|Prefix|] == Prefix && CoercedId(k[|Prefix|..]) == id
  }

  ghost predicate EntrySound(k: string, v: Value, rows: seq<Post>)
  {
    if k == CollectionKey then v.PostList? && IsSnapshot(v.posts, rows)
    else v.SinglePost? && v.post in rows && IsKeyFor(k, v.post.id)
  }

  ghost predicate CacheSound(m: Entries, rows: seq<Post>)
  {
    forall k :: k in m ==> EntrySound(k, m[k].value, rows)
  }

  /** An insert into the table keeps every cache entry sound. */
  lemma SoundAfterAppend(m: Entries, rows: seq<Post>, p: Post)
    requires CacheSound(m, rows)
    ensures CacheSound(m, rows + [p])
  {
    forall k | k in m
      ensures EntrySound(k, m[k].value, rows + [p])
    {
      if k == CollectionKey {
        var list := m[k].value.posts;
        var n :| 0 <= n <= |rows| && multiset(list) == multiset(rows[..n]);
        assert (rows + [p])[..n] == rows[..n];
      }
    }
  }

  /** Forgetting a key keeps the cache sound. */
  lemma SoundAfterRemoved(m: Entries, rows: seq<Post>, key: string)
    requires CacheSound(m, rows)
    ensures CacheSound(Removed(m, key), rows)
  {
  }

  /** Caching a listing that holds exactly today's rows keeps the cache sound. */
  lemma SoundAfterCachingListing(m: Entries, rows: seq<Post>, now: int, list: seq<Post>)
    requires CacheSound(m, rows)
    requires multiset(list) == multiset(rows)
    ensures CacheSound(Inserted(m, now, CollectionKey, PostList(list), TTL), rows)
  {
    assert rows[..|rows|] == rows;
  }

  /** A segment that selects an existing row (ids start at 1) is never `"all"`. */
  lemma FoundKeyIsNotCollectionKey(segment: string, p: Post)
    requires p.id == CoercedId(segment) && 1 <= p.id
    ensures EntityKey(segment) != CollectionKey
  {
    EntityKeyIsCollectionKey(segment);
    if segment == "all" {
      CoercedIdWithoutDigits(segment);
    }
  }

  /** Caching the row that a segment selects, under that segment's key, keeps the cache sound. */
  lemma SoundAfterCachingPost(m: Entries, rows: seq<Post>, now: int, segment: string, p: Post)
    requires CacheSound(m, rows)
    requires p in rows && p.id == CoercedId(segment) && 1 <= p.id
    ensures CacheSound(Inserted(m, now, EntityKey(segment), SinglePost(p), TTL), rows)
  {
    FoundKeyIsNotCollectionKey(segment, p);
  }

  /** A post created after a snapshot was taken is not in it. */
  lemma FreshPostNotInSnapshot(list: seq<Post>, rows: seq<Post>, p: Post)
    requires IsSnapshot(list, rows)
    requires forall i :: 0 <= i < |rows| ==> rows[i].id < p.id
    ensures p !in list
  {
    var n :| 0 <= n <= |rows| && multiset(list) == multiset(rows[..n]);
    assert p !in rows[..n];
    assert p !in multiset(list);
  }

  /** A listing hit serves the table as it was at some earlier moment. */
  lemma ListingHitIsSnapshot(m: Entries, rows: seq<Post>, now: int)
    requires CacheSound(m, rows) && Live(m, now, CollectionKey)
    ensures m[CollectionKey].value.PostList? && IsSnapshot(m[CollectionKey].value.posts, rows)
  {
  }

  /**
   * Posts are never updated or deleted, so a per-post hit (for any segment
   * other than `"all"`) is exactly what a miss would load from the table now.
   */
  lemma PostHitIsCurrent(m: Entries, rows: seq<Post>, now: int, segment: string)
    requires CacheSound(m, rows) && IdsAscending(rows)
    requires segment != "all" && Live(m, now, EntityKey(segment))
    ensures m[EntityKey(segment)].value.SinglePost?
    ensures RowWithId(rows, CoercedId(segment)) == Some(m[EntityKey(segment)].value.post)
  {
    var k := EntityKey(segment);
    EntityKeyIsCollectionKey(segment);
    assert EntrySound(k, m[k].value, rows);
    var p := m[k].value.post;
    var i :| 0 <= i < |rows| && rows[i] == p;
    RowWithIdUnique(rows, CoercedId(segment), i);
  }

  /**
   * Why creating a post only forgets the listing: no per-post entry can
   * select an id larger than every id in the table, such as the next one.
   */
  lemma NoEntryForFreshId(m: Entries, rows: seq<Post>, id: nat)
    requires CacheSound(m, rows)
    requires forall i :: 0 <= i < |rows| ==> rows[i].id < id
    ensures forall k :: k in m && k != CollectionKey ==> !IsKeyFor(k, id)
  {
    forall k | k in m && k != CollectionKey
      ensures !IsKeyFor(k, id)
    {
      assert EntrySound(k, m[k].value, rows);
      var i :| 0 <= i < |rows| && rows[i] == m[k].value.post;
    }
  }
}
