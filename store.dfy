/**
  The object store bound as `env.BLOCKGAME_ASSETS`: objects by path (read by `get`,
  written by `put`) and the replies its `list({prefix})` gives. Which calls throw is
  fixed by a set of failing operations, so every run of the handler is deterministic.
 */
module ObjectStore {
  import opened Wrappers
  import opened Assets

  /** A stored object: its payload and its content-type metadata. */
  datatype Entry = Entry(body: string, contentType: string)

  /** One call into the store. */
  datatype Op = GetOp(path: string) | ListOp(prefix: string) | PutOp(path: string)

  const JsonType: string := "application/json"

  /** A snapshot of the store. */
  datatype Snapshot = Snapshot(entries: map<string, Entry>, listings: map<string, Listing>, faults: set<Op>)

  /** `get(path)`: the stored object or null, unless the call throws. */
  function GetReply(s: Snapshot, path: string): (r: Result<Option<Entry>>)
    ensures r.Failed? <==> GetOp(path) in s.faults
    ensures r.Ok? ==> (r.value.Some? <==> path in s.entries)
    ensures r.Ok? && r.value.Some? ==> r.value.value == s.entries[path]
  {
    if GetOp(path) in s.faults then Failed
    else if path in s.entries then Ok(Some(s.entries[path]))
    else Ok(None)
  }

  /** `list({prefix})`: the backend's reply; a prefix it has no reply for lists nothing. */
  function ListReply(s: Snapshot, prefix: string): (r: Result<Listing>)
    ensures r.Failed? <==> ListOp(prefix) in s.faults
    ensures r.Ok? && prefix !in s.listings ==> Objects(r.value) == []
  {
    if ListOp(prefix) in s.faults then Failed
    else if prefix in s.listings then Ok(s.listings[prefix])
    else Ok(Listing(Some([])))
  }

  /** `put(path, body, {contentType: 'application/json'})`: the objects afterwards. */
  function PutReply(s: Snapshot, path: string, body: string): (r: Result<map<string, Entry>>)
    ensures r.Failed? <==> PutOp(path) in s.faults
    ensures r.Ok? ==> r.value.Keys == s.entries.Keys + {path} && r.value[path] == Entry(body, JsonType)
    ensures r.Ok? ==> forall p :: p in s.entries && p != path ==> r.value[p] == s.entries[p]
  {
    if PutOp(path) in s.faults then Failed else Ok(s.entries[path := Entry(body, JsonType)])
  }

  class Store {
    var entries: map<string, Entry>
    var listings: map<string, Listing>
    var faults: set<Op>
    /** Every call made to the store so far, in order. */
    ghost var calls: seq<Op>

    constructor (entries: map<string, Entry>, listings: map<string, Listing>, faults: set<Op>)
      ensures State() == Snapshot(entries, listings, faults) && calls == []
    {
      this.entries := entries;
      this.listings := listings;
      this.faults := faults;
      calls := [];
    }

    function State(): (s: Snapshot)
      reads this
    {
      Snapshot(entries, listings, faults)
    }

    method Get(path: string) returns (r: Result<Option<Entry>>)
      modifies this`calls
      ensures r == GetReply(State(), path)
      ensures calls == old(calls) + [GetOp(path)]
    {
      if GetOp(path) in faults {
        r := Failed;
      } else if path in entries {
        r := Ok(Some(entries[path]));
      } else {
        r := Ok(None);
      }
      calls := calls + [GetOp(path)];
    }

    method List(prefix: string) returns (r: Result<Listing>)
      modifies this`calls
      ensures r == ListReply(State(), prefix)
      ensures calls == old(calls) + [ListOp(prefix)]
    {
      if ListOp(prefix) in faults {
        r := Failed;
      } else if prefix in listings {
        r := Ok(listings[prefix]);
      } else {
        r := Ok(Listing(Some([])));
      }
      calls := calls + [ListOp(prefix)];
    }

    /** Stores body at path; a failing call leaves the objects as they were. */
    method Put(path: string, body: string) returns (ok: bool)
      modifies this`entries, this`calls
      ensures ok == PutReply(old(State()), path, body).Ok?
      ensures entries == if ok then PutReply(old(State()), path, body).value else old(entries)
      ensures calls == old(calls) + [PutOp(path)]
    {
      ok := PutOp(path) !in faults;
      if ok {
        entries := entries[path := Entry(body, JsonType)];
      }
      calls := calls + [PutOp(path)];
    }
  }
}
