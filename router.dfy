/**
  The `GET /api/assets` handler: validate the query, serve the cached list when there
  is one, otherwise list the common and the variant prefixes, build the list, cache it
  and return it. Any store failure becomes a 500.

  `Handle` states the whole behaviour of one request on a store snapshot; the method
  `HandleAssets` runs it against a `Store` object and is proved to agree with it.
 */
module Router {
  import opened Wrappers
  import opened Request
  import opened Assets
  import opened Json
  import opened ObjectStore

  /** An HTTP response: status, body, Content-Type and the optional Cache-Control header. */
  datatype Response = Response(status: int, body: string, contentType: string, cacheControl: Option<string>)

  const BadRequestBody: string := "{\"error\":\"Missing or invalid platform or arch query parameters\"}"
  const ServerErrorBody: string := "{\"error\":\"Internal Server Error\"}"
  const CachedFor: string := "public, max-age=3600"

  const BadRequest: Response := Response(400, BadRequestBody, JsonType, None)
  const ServerError: Response := Response(500, ServerErrorBody, JsonType, None)

  /** The response for a cached entry: its body, unchanged, cacheable for an hour. */
  function CachedResponse(e: Entry): (r: Response)
  {
    Response(200, e.body, JsonType, Some(CachedFor))
  }

  /** The response for a freshly generated list: no Cache-Control header. */
  function FreshResponse(body: string): (r: Response)
  {
    Response(200, body, JsonType, None)
  }

  /** What one request does: its response, the objects afterwards, the store calls it made. */
  datatype Run = Run(response: Response, entries: map<string, Entry>, calls: seq<Op>)

  /** The listing a request for variant key would generate on a miss in s. */
  function Generated(s: Snapshot, key: string): (body: string)
    requires ListReply(s, CommonPrefix).Ok? && ListReply(s, VariantPrefix(key)).Ok?
  {
    Serialize(BuildAssetList(ListReply(s, CommonPrefix).value, ListReply(s, VariantPrefix(key)).value))
  }

  /** One request with the given query against the store snapshot s. */
  function Handle(s: Snapshot, query: Query): (run: Run)
  {
    match Validate(query)
    case None => Run(BadRequest, s.entries, [])
    case Some(key) =>
      var path := JsonPath(key);
      match GetReply(s, path)
      case Failed => Run(ServerError, s.entries, [GetOp(path)])
      case Ok(Some(e)) => Run(CachedResponse(e), s.entries, [GetOp(path)])
      case Ok(None) =>
        // both listings are issued before either outcome is looked at (a join)
        var listed := [GetOp(path), ListOp(CommonPrefix), ListOp(VariantPrefix(key))];
        var common, native := ListReply(s, CommonPrefix), ListReply(s, VariantPrefix(key));
        if common.Failed? || native.Failed? then Run(ServerError, s.entries, listed)
        else
          var body := Serialize(BuildAssetList(common.value, native.value));
          match PutReply(s, path, body)
          case Failed => Run(ServerError, s.entries, listed + [PutOp(path)])
          case Ok(entries) => Run(FreshResponse(body), entries, listed + [PutOp(path)])
  }

  /** The handler, run against the store object. */
  method HandleAssets(store: Store, query: Query) returns (response: Response)
    modifies store
    ensures var run := Handle(old(store.State()), query);
      && response == run.response
      && store.entries == run.entries
      && store.calls == old(store.calls) + run.calls
    ensures store.listings == old(store.listings) && store.faults == old(store.faults)
  {
    var valid := Validate(query);
    if valid.None? {
      return BadRequest;
    }
    var key := valid.value;
    var path := JsonPath(key);
    var cached := store.Get(path);
    if cached.Failed? {
      return ServerError;
    }
    if cached.value.Some? {
      return CachedResponse(cached.value.value);
    }
    var common := store.List(CommonPrefix);
    var native := store.List(VariantPrefix(key));
    if common.Failed? || native.Failed? {
      return ServerError;
    }
    var body := Serialize(BuildAssetList(common.value, native.value));
    var stored := store.Put(path, body);
    if !stored {
      return ServerError;
    }
    response := FreshResponse(body);
  }

  /**
    A request is rejected with 400 and the fixed body exactly when it is not accepted;
    it then makes no store call and changes nothing.
   */
  lemma RejectedIff(s: Snapshot, query: Query)
    ensures Handle(s, query).response.status == 400 <==> !Accepted(query)
    ensures !Accepted(query) ==>
      Handle(s, query) == Run(Response(400, BadRequestBody, JsonType, None), s.entries, [])
  {
  }

  /**
    On a hit the stored body is returned unchanged with Cache-Control, after a single
    `get`; nothing is listed or written.
   */
  lemma CacheHit(s: Snapshot, query: Query)
    requires Accepted(query)
    requires var path := JsonPath(Validate(query).value); path in s.entries && GetOp(path) !in s.faults
    ensures var path := JsonPath(Validate(query).value);
      Handle(s, query) == Run(Response(200, s.entries[path].body, JsonType, Some(CachedFor)), s.entries, [GetOp(path)])
  {
  }

  /**
    On a miss where no call fails the generated list is returned without Cache-Control,
    and afterwards the cache path holds exactly that body while every other path is
    unchanged.
   */
  lemma CacheMiss(s: Snapshot, query: Query)
    requires Accepted(query)
    requires var key := Validate(query).value; var path := JsonPath(key);
      && path !in s.entries
      && GetOp(path) !in s.faults && PutOp(path) !in s.faults
      && ListOp(CommonPrefix) !in s.faults && ListOp(VariantPrefix(key)) !in s.faults
    ensures var key := Validate(query).value; var path := JsonPath(key); var run := Handle(s, query);
      && run.response == Response(200, Generated(s, key), JsonType, None)
      && run.entries == s.entries[path := Entry(Generated(s, key), JsonType)]
      && run.calls == [GetOp(path), ListOp(CommonPrefix), ListOp(VariantPrefix(key)), PutOp(path)]
  {
  }

  /** The failure of a call made on the path the request takes. */
  predicate StoreFails(s: Snapshot, key: string)
  {
    var path := JsonPath(key);
    GetOp(path) in s.faults
    || (path !in s.entries
        && (ListOp(CommonPrefix) in s.faults || ListOp(VariantPrefix(key)) in s.faults || PutOp(path) in s.faults))
  }

  /**
    The response is 500 with the generic body exactly when a store call the request makes
    fails; the objects are then unchanged.
   */
  lemma ServerErrorIff(s: Snapshot, query: Query)
    ensures Handle(s, query).response.status == 500 <==> Accepted(query) && StoreFails(s, Validate(query).value)
    ensures Handle(s, query).response.status == 500 ==>
      Handle(s, query).response == Response(500, ServerErrorBody, JsonType, None) && Handle(s, query).entries == s.entries
  {
  }

  /** A failing `put` discards the generated list: its body is never the response. */
  lemma FailedPutHidesList(s: Snapshot, query: Query)
    requires Accepted(query)
    requires var key := Validate(query).value; var path := JsonPath(key);
      && path !in s.entries && GetOp(path) !in s.faults && PutOp(path) in s.faults
      && ListOp(CommonPrefix) !in s.faults && ListOp(VariantPrefix(key)) !in s.faults
    ensures Handle(s, query).response.status == 500
    ensures Handle(s, query).response.body != Generated(s, Validate(query).value)
  {
    var g := Generated(s, Validate(query).value);
    assert g[0] == '[' && ServerErrorBody[0] == '{';
  }

  /**
    The shape of every response: status 200, 400 or 500, always JSON, and Cache-Control
    only on a 200 served from the cache.
   */
  lemma ResponseShape(s: Snapshot, query: Query)
    ensures var r := Handle(s, query).response;
      && r.status in {200, 400, 500}
      && r.contentType == JsonType
      && (r.cacheControl.Some? <==>
            r.status == 200 && JsonPath(Validate(query).value) in s.entries)
      && (r.cacheControl.Some? ==> r.cacheControl.value == CachedFor)
  {
  }

  /** The only object a request can write is its own cache file. */
  lemma OnlyCachePathWritten(s: Snapshot, query: Query, p: string)
    requires p in s.entries || p in Handle(s, query).entries
    requires !Accepted(query) || p != JsonPath(Validate(query).value)
    ensures p in s.entries && p in Handle(s, query).entries
    ensures Handle(s, query).entries[p] == s.entries[p]
  {
  }

  /**
    Repeating a successful request with nothing else changing the store is a cache hit
    that returns the same body after a single `get`, and writes nothing.
   */
  lemma RepeatIsHit(s: Snapshot, query: Query)
    requires Handle(s, query).response.status == 200
    ensures var first := Handle(s, query);
      var second := Handle(s.(entries := first.entries), query);
      && JsonPath(Validate(query).value) in first.entries
      && second.response == CachedResponse(first.entries[JsonPath(Validate(query).value)])
      && second.response.status == 200
      && second.response.body == first.response.body
      && second.response.cacheControl == Some(CachedFor)
      && second.entries == first.entries
      && second.calls == [GetOp(JsonPath(Validate(query).value))]
  {
  }
}
