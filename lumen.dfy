/**
 * The Lumen API's `PostController`: `index` and `show` read through the
 * framework cache with `Cache::remember(key, 60, loader)`; `store` is the only
 * write and forgets the listing key afterwards. An action either returns a
 * JSON response or throws; what it throws is rendered by `Handler::render`.
 */
module Lumen {
  import opened Wrappers
  import opened Posts
  import opened Keys
  import opened Cache
  import opened Store
  import opened Coherence
  import opened Validation
  import opened ErrorHandler

  /** A successful action's response: a status and the serialised value. */
  datatype Json = Json(status: int, value: Value)

  /** What the client receives: the action's response, or the rendering of what it threw. */
  datatype HttpResponse = Ok(json: Json) | Error(response: ErrorResponse)

  const OkStatus: int := 200
  const CreatedStatus: int := 201

  const ModelNotFoundClass: string := "Illuminate\\Database\\Eloquent\\ModelNotFoundException"

  /**
   * What `Post::findOrFail($id)` throws when no row has the id: the framework's
   * model-not-found exception, which is not an HTTP exception, with a message
   * ending in the id.
   */
  function ModelNotFound(id: string): (e: Exception)
    ensures e.GenericException? && e.className == ModelNotFoundClass
    ensures |e.message| >= |id| && e.message[|e.message| - |id|..] == id
  {
    GenericException(ModelNotFoundClass, "No query results for model [App\\Models\\Post] " + id)
  }

  /**
   * The framework's dispatch: a returned response goes to the client as is, a
   * thrown exception is handed to `Handler::render`.
   */
  function Respond(r: Result<Json, Exception>): (resp: HttpResponse)
    ensures resp.Ok? <==> r.Success?
    ensures resp.Ok? ==> resp.json == r.value
    ensures resp.Error? ==> resp.response == Render(r.error)
    ensures resp.Error? ==> resp.response.status in {422, 401, 500} || r.error.HttpException?
  {
    match r
    case Success(json) => Ok(json)
    case Failure(e) => Error(Render(e))
  }

  class PostController {
    const cache: KeyValueStore
    const db: Database

    ghost predicate Valid()
      reads this, cache, db
    {
      && db.Valid()
      && CacheSound(cache.entries, db.rows)
      && ExpiriesWithin(cache.entries, cache.now, TTL)
    }

    constructor (cache: KeyValueStore, db: Database)
      requires db.Valid() && CacheSound(cache.entries, db.rows)
      requires ExpiriesWithin(cache.entries, cache.now, TTL)
      ensures this.cache == cache && this.db == db && Valid()
    {
      this.cache := cache;
      this.db := db;
    }

    /**
     * `index`: the cached listing if `posts:all` lives, otherwise every row,
     * cached under `posts:all` for TTL. The order of a reloaded listing is not
     * fixed by the query.
     */
    method Index() returns (resp: Json)
      requires Valid()
      modifies cache`entries, db`queries
      ensures Valid()
      ensures resp.status == OkStatus && resp.value.PostList? && IsSnapshot(resp.value.posts, db.rows)
      ensures Live(old(cache.entries), cache.now, CollectionKey) ==>
        && resp.value == old(cache.entries)[CollectionKey].value
        && cache.entries == old(cache.entries)
        && db.queries == old(db.queries)
      ensures !Live(old(cache.entries), cache.now, CollectionKey) ==>
        && multiset(resp.value.posts) == multiset(db.rows)
        && cache.entries == Inserted(old(cache.entries), cache.now, CollectionKey, resp.value, TTL)
        && db.queries == old(db.queries) + 1
    {
      var cached := cache.Get(CollectionKey);
      if cached.Some? {
        ListingHitIsSnapshot(cache.entries, db.rows, cache.now);
        return Json(OkStatus, cached.value);
      }
      var rows := db.SelectAll();
      SoundAfterCachingListing(cache.entries, db.rows, cache.now, rows);
      assert db.rows[..|db.rows|] == db.rows;
      cache.Set(CollectionKey, PostList(rows), TTL);
      resp := Json(OkStatus, PostList(rows));
    }

    /**
     * `store`: a request the validator rejects throws before anything is
     * touched; otherwise exactly one row is added, owned by `userId`, and only
     * `posts:all` is forgotten; the created post is answered with 201.
     */
    method Store(req: PostRequest, userId: nat) returns (r: Result<Json, Exception>)
      requires Valid()
      modifies db`rows, db`nextId, db`queries, cache`entries
      ensures Valid()
      ensures ValidationErrors(req) != [] ==>
        && r == Failure(ValidationException(ValidationErrors(req)))
        && db.rows == old(db.rows) && db.nextId == old(db.nextId) && db.queries == old(db.queries)
        && cache.entries == old(cache.entries)
      ensures ValidationErrors(req) == [] ==>
        && var p := Post(old(db.nextId), req.title.text, req.content.text, userId);
        && r == Success(Json(CreatedStatus, SinglePost(p)))
        && db.rows == old(db.rows) + [p] && db.nextId == old(db.nextId) + 1
        && (forall i :: 0 <= i < |old(db.rows)| ==> old(db.rows)[i].id < p.id)
        && cache.entries == Removed(old(cache.entries), CollectionKey)
    {
      var errors := ValidationErrors(req);
      if errors != [] {
        return Failure(ValidationException(errors));
      }
      var p := db.Insert(req.title.text, req.content.text, userId);
      SoundAfterAppend(cache.entries, old(db.rows), p);
      SoundAfterRemoved(cache.entries, db.rows, CollectionKey);
      cache.Forget(CollectionKey);
      r := Success(Json(CreatedStatus, SinglePost(p)));
    }

    /**
     * `show($id)`, keyed by the raw segment. A hit answers whatever the key
     * holds; a miss caches and answers the row, or throws
     * `ModelNotFoundException` and caches nothing. For any segment but
     * `"all"` a success is the table's current row.
     */
    method Show(id: string) returns (r: Result<Json, Exception>)
      requires Valid()
      modifies cache`entries, db`queries
      ensures Valid()
      ensures Live(old(cache.entries), cache.now, EntityKey(id)) ==>
        && r == Success(Json(OkStatus, old(cache.entries)[EntityKey(id)].value))
        && cache.entries == old(cache.entries)
        && db.queries == old(db.queries)
      ensures !Live(old(cache.entries), cache.now, EntityKey(id)) ==>
        && db.queries == old(db.queries) + 1
        && var row := RowWithId(db.rows, CoercedId(id));
        && (row.None? ==> r == Failure(ModelNotFound(id)) && cache.entries == old(cache.entries))
        && (row.Some? ==>
              && r == Success(Json(OkStatus, SinglePost(row.value)))
              && cache.entries == Inserted(old(cache.entries), cache.now, EntityKey(id), SinglePost(row.value), TTL))
      ensures id != "all" && r.Success? ==>
        r.value.value.SinglePost? && RowWithId(db.rows, CoercedId(id)) == Some(r.value.value.post)
    {
      var key := EntityKey(id);
      var cached := cache.Get(key);
      if cached.Some? {
        if id != "all" {
          PostHitIsCurrent(cache.entries, db.rows, cache.now, id);
        }
        return Success(Json(OkStatus, cached.value));
      }
      var row := db.SelectById(id);
      if row.None? {
        return Failure(ModelNotFound(id));
      }
      var p := row.value;
      SoundAfterCachingPost(cache.entries, db.rows, cache.now, id, p);
      cache.Set(key, SinglePost(p), TTL);
      r := Success(Json(OkStatus, SinglePost(p)));
    }
  }

  /** A rejected `store` reaches the client as 422 with the field errors as details. */
  lemma RejectedStoreIs422(req: PostRequest)
    requires ValidationErrors(req) != []
    ensures Respond(Failure(ValidationException(ValidationErrors(req))))
      == Error(ErrorResponse(422, WithDetails("Validation failed", ValidationErrors(req))))
  {
  }

  /**
   * `findOrFail` throws an exception that is not an HTTP exception, and this
   * `render` does not convert it, so a missing post reaches the client as 500.
   */
  lemma MissingPostIs500(id: string)
    ensures Respond(Failure(ModelNotFound(id)))
      == Error(ErrorResponse(500, WithType(ModelNotFound(id).message, "ModelNotFoundException")))
  {
    ModelNotFoundBasename();
  }

  lemma ModelNotFoundBasename()
    ensures ClassBasename(ModelNotFoundClass) == "ModelNotFoundException"
  {
    var namespace, base := "Illuminate\\Database\\Eloquent", "ModelNotFoundException";
    assert ModelNotFoundClass == namespace + "\\" + base;
    BasenameOfQualified(namespace, base);
  }
}
