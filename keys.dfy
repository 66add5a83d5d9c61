/** The two cache key families: the listing key and the per-post key. */
module Keys {
  import opened Posts

  const Prefix: string := "posts:"

  /** The key under which the full listing is cached. */
  const CollectionKey: string := "posts:all"

  /**
   * The per-post key: the prefix followed by the raw, unnormalised path
   * segment, which can be read back from the key.
   */
  function EntityKey(id: string): (k: string)
    ensures |k| == |Prefix| + |id|
    ensures k[..|Prefix|] == Prefix && k[|Prefix|..] == id
  {
    Prefix + id
  }

  /** Different path segments never share a per-post key. */
  lemma EntityKeyInjective(a: string, b: string)
    ensures EntityKey(a) == EntityKey(b) <==> a == b
  {
    var ka, kb := EntityKey(a), EntityKey(b);
  }

  /**
   * The segment is not normalised, so exactly one segment, `"all"`, makes the
   * per-post key coincide with the listing key.
   */
  lemma EntityKeyIsCollectionKey(id: string)
    ensures EntityKey(id) == CollectionKey <==> id == "all"
  {
    if EntityKey(id) == CollectionKey {
      assert id == CollectionKey[|Prefix|..];
    }
  }

  /** The key of a post fetched by its decimal id is never the listing key. */
  lemma PostKeyIsNotCollectionKey(n: nat)
    ensures EntityKey(DecimalString(n)) != CollectionKey
  {
    EntityKeyIsCollectionKey(DecimalString(n));
    assert IsDigit(DecimalString(n)[0]);
  }
}
