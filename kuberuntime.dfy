/**
  Abstract models of the controller-runtime and client-go collaborators the
  linked resource handler talks to: objects and their keys, the scheme, the
  informer cache with its field indexes, the work queue, a replacement enqueue
  hook, the logger, and the per-event request set.
 */
module KubeRuntime {
  import opened Wrappers

  /** types.NamespacedName, the key `client.ObjectKeyFromObject` returns. */
  datatype NamespacedName = NamespacedName(namespace: string, name: string)

  /** reconcile.Request: the key of an object to reconcile; equality is structural. */
  datatype Request = Request(namespacedName: NamespacedName)

  /**
    An object as the cache and the event sources hold it. `payload` stands for
    whatever an extractor reads (spec fields, labels). `isClientObject` is false
    for a list item that does not implement client.Object.
   */
  datatype Obj = Obj(kind: string, namespace: string, name: string, payload: seq<string>, isClientObject: bool)

  /** client.ObjectKeyFromObject */
  function ObjectKey(o: Obj): NamespacedName
  {
    NamespacedName(o.namespace, o.name)
  }

  datatype Error =
    | KindNotRegistered(kind: string)        // the scheme does not know the object type
    | ListKindNotRegistered(kind: string)    // the scheme does not know the list type
    | CacheStarted                           // an index is added after the informer started
    | IndexConflict(kind: string, field: string)
    | IndexNotFound(field: string)           // a field selector names an index nobody registered
    | ListFailed(reason: string)             // any other failure of the cache's List
    | NotClientObject                        // a list item failed the client.Object conversion

  /** The scheme: the object kinds and the list kinds it can resolve. */
  datatype Scheme = Scheme(kinds: set<string>, listKinds: set<string>)

  /** Resolving the group/version/kind of the linked type against the scheme. */
  function SetGroupVersionKind(scheme: Scheme, objType: string): (err: Option<Error>)
    ensures err.None? <==> objType in scheme.kinds
  {
    if objType in scheme.kinds then None else Some(KindNotRegistered(objType))
  }

  /** Creating an empty list object for a kind. */
  function NewListObject(scheme: Scheme, kind: string): (err: Option<Error>)
    ensures err.None? <==> kind in scheme.listKinds
  {
    if kind in scheme.listKinds then None else Some(ListKindNotRegistered(kind))
  }

  /** An index function: the "<namespace>/<name>" keys of the objects an object links to. */
  type Extractor = Obj -> seq<string>

  /** The objects an exact-match field selector `field == value` lists, in cache order. */
  function Select(objects: seq<Obj>, kind: string, toId: Extractor, value: string): (r: seq<Obj>)
    ensures |r| <= |objects|
    ensures forall o :: o in r <==> o in objects && o.kind == kind && value in toId(o)
  {
    if objects == [] then []
    else
      var head := if objects[0].kind == kind && value in toId(objects[0]) then [objects[0]] else [];
      head + Select(objects[1..], kind, toId, value)
  }

  /** Listing keeps the cache order: selecting from a concatenation concatenates the selections. */
  lemma {:induction false} SelectAppend(a: seq<Obj>, b: seq<Obj>, kind: string, toId: Extractor, value: string)
    ensures Select(a + b, kind, toId, value) == Select(a, kind, toId, value) + Select(b, kind, toId, value)
  {
    if a != [] {
      assert (a + b)[1..] == a[1..] + b;
      SelectAppend(a[1..], b, kind, toId, value);
    } else {
      assert a + b == b;
    }
  }

  /**
    The informer cache: the cached objects, the field indexes registered per
    (kind, index name), whether the informers have started, and an injected
    failure of List (a cache that is not synced, a cancelled context).
   */
  class Cache {
    var objects: seq<Obj>
    var indexes: map<(string, string), Extractor>
    var started: bool
    var listError: Option<Error>

    constructor (objects: seq<Obj>, listError: Option<Error>)
      ensures this.objects == objects && this.listError == listError
      ensures indexes == map[] && !started
    {
      this.objects := objects;
      this.listError := listError;
      indexes := map[];
      started := false;
    }

    /** Why IndexField would refuse to add this index now, if it would. */
    function IndexFieldError(kind: string, field: string): (err: Option<Error>)
      reads this
      ensures err.None? <==> !started && (kind, field) !in indexes
    {
      if started then Some(CacheStarted)
      else if (kind, field) in indexes then Some(IndexConflict(kind, field))
      else None
    }

    /** cache.IndexField: registers `extract` as the index `field` of `kind`. */
    method IndexField(kind: string, field: string, extract: Extractor) returns (err: Option<Error>)
      modifies this
      ensures err == old(IndexFieldError(kind, field))
      ensures indexes == if err.None? then old(indexes)[(kind, field) := extract] else old(indexes)
      ensures objects == old(objects) && started == old(started) && listError == old(listError)
    {
      err := IndexFieldError(kind, field);
      if err.None? {
        indexes := indexes[(kind, field) := extract];
      }
    }

    /** cache.List with the field selector `field == value`. */
    function List(kind: string, field: string, value: string): (r: Result<seq<Obj>, Error>)
      reads this
      ensures r.Success? <==> listError.None? && (kind, field) in indexes
      ensures r.Success? ==> r.value == Select(objects, kind, indexes[(kind, field)], value)
    {
      if listError.Some? then Failure(listError.value)
      else if (kind, field) !in indexes then Failure(IndexNotFound(field))
      else Success(Select(objects, kind, indexes[(kind, field)], value))
    }
  }

  /** The rate-limited work queue, seen as the sequence of requests added to it. */
  class Queue {
    var items: seq<Request>

    constructor ()
      ensures items == []
    {
      items := [];
    }

    /** q.Add */
    method Add(req: Request)
      modifies this
      ensures items == old(items) + [req]
    {
      items := items + [req];
    }
  }

  /** One call of the `addToQueue` hook: the queue it was handed and the request. */
  datatype HookCall = HookCall(queue: Queue, request: Request)

  /** A caller-supplied `addToQueue` function, seen as the sequence of its calls. */
  class QueueHook {
    var calls: seq<HookCall>

    constructor ()
      ensures calls == []
    {
      calls := [];
    }

    method Invoke(q: Queue, req: Request)
      modifies this
      ensures calls == old(calls) + [HookCall(q, req)]
    {
      calls := calls + [HookCall(q, req)];
    }
  }

  /** One `logger.Error` line: the error, the message and the key of the triggering object. */
  datatype LogEntry = LogEntry(err: Error, message: string, objectKey: NamespacedName)

  class Logger {
    var entries: seq<LogEntry>

    constructor ()
      ensures entries == []
    {
      entries := [];
    }

    method Error(err: Error, message: string, objectKey: NamespacedName)
      modifies this
      ensures entries == old(entries) + [LogEntry(err, message, objectKey)]
    {
      entries := entries + [LogEntry(err, message, objectKey)];
    }
  }

  /** The map[reconcile.Request]struct{} that one event's calls share. */
  class RequestSet {
    var members: set<Request>

    constructor ()
      ensures members == {}
    {
      members := {};
    }

    method Insert(req: Request)
      modifies this
      ensures members == old(members) + {req}
    {
      members := members + {req};
    }
  }
}
