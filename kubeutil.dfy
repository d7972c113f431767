/**
  The linked resource handler: an event handler that turns a watch event on a
  target object into reconcile requests for every cached linked object whose
  index function lists the target's "<namespace>/<name>" key.
 */
module KubeUtil {
  import opened Wrappers
  import opened KubeRuntime
  import Strings

  // ---------------------------------------------------------------------------
  // Index name generation
  // ---------------------------------------------------------------------------

  /** The alphabet of generated index names: 26 lower-case, then 26 upper-case ASCII letters, no digits. */
  const LetterRunes: string := "abcdefghijklmnopqrstuvwxyzABCDEFGHIJKLMNOPQRSTUVWXYZ"
  const IndexNamePrefix: string := ".x-index."
  const IndexNameLength: nat := 10

  /** A value `rand.Intn(len(letterRunes))` can return. */
  type LetterIndex = i: nat | i < 52

  predicate IsLetter(c: char)
  {
    'a' <= c <= 'z' || 'A' <= c <= 'Z'
  }

  /** The i-th character of `s` is the letter `first` advanced by i, for every i. */
  predicate LetterRun(s: string, first: char)
  {
    forall i :: 0 <= i < |s| ==> s[i] as int == first as int + i
  }

  lemma LowerRun(s: string)
    requires s == "abcdefghijklmnopqrstuvwxyz"
    ensures |s| == 26 && LetterRun(s, 'a')
  {
  }

  lemma UpperRun(s: string)
    requires s == "ABCDEFGHIJKLMNOPQRSTUVWXYZ"
    ensures |s| == 26 && LetterRun(s, 'A')
  {
  }

  lemma LetterRunesAreLetters()
    ensures |LetterRunes| == 52
    ensures forall i :: 0 <= i < |LetterRunes| ==> IsLetter(LetterRunes[i])
    ensures forall i, j :: 0 <= i < j < |LetterRunes| ==> LetterRunes[i] != LetterRunes[j]
  {
    var lower, upper := LetterRunes[..26], LetterRunes[26..];
    assert lower == "abcdefghijklmnopqrstuvwxyz" && upper == "ABCDEFGHIJKLMNOPQRSTUVWXYZ";
    LowerRun(lower);
    UpperRun(upper);
    forall i | 0 <= i < |LetterRunes|
      ensures IsLetter(LetterRunes[i])
    {
      if i < 26 { assert LetterRunes[i] == lower[i]; } else { assert LetterRunes[i] == upper[i - 26]; }
    }
    forall i, j | 0 <= i < j < |LetterRunes|
      ensures LetterRunes[i] != LetterRunes[j]
    {
      var ci := if i < 26 then lower[i] else upper[i - 26];
      var cj := if j < 26 then lower[j] else upper[j - 26];
      assert LetterRunes[i] == ci && LetterRunes[j] == cj;
    }
  }

  /** The string `randStringRunes` builds from the draws `draws[0..n)` of the random source. */
  function RunesFor(draws: seq<LetterIndex>, n: nat): (s: string)
    requires n <= |draws|
  {
    seq(n, i requires 0 <= i < n => LetterRunes[draws[i]])
  }

  /** randStringRunes: fills a buffer of n runes, each drawn from the alphabet. */
  method RandStringRunes(n: nat, draws: seq<LetterIndex>) returns (s: string)
    requires n <= |draws|
    ensures s == RunesFor(draws, n)
    ensures |s| == n && forall i :: 0 <= i < n ==> IsLetter(s[i])
  {
    LetterRunesAreLetters();
    var b := new char[n];
    for i := 0 to n
      invariant forall k :: 0 <= k < i ==> b[k] == LetterRunes[draws[k]]
    {
      b[i] := LetterRunes[draws[i]];
    }
    s := b[..];
  }

  /** The index name a handler registers for the given draws of the random source. */
  function GeneratedIndexName(draws: seq<LetterIndex>): string
    requires IndexNameLength <= |draws|
  {
    IndexNamePrefix + RunesFor(draws, IndexNameLength)
  }

  /** Every generated index name is ".x-index." followed by exactly ten letters. */
  lemma GeneratedIndexNameShape(draws: seq<LetterIndex>)
    requires IndexNameLength <= |draws|
    ensures var name := GeneratedIndexName(draws);
      |name| == |IndexNamePrefix| + 10 && name[..|IndexNamePrefix|] == IndexNamePrefix
      && forall i :: |IndexNamePrefix| <= i < |name| ==> IsLetter(name[i])
  {
    LetterRunesAreLetters();
    var name := GeneratedIndexName(draws);
    assert name[..|IndexNamePrefix|] == IndexNamePrefix;
    forall i | |IndexNamePrefix| <= i < |name|
      ensures IsLetter(name[i])
    {
      assert name[i] == LetterRunes[draws[i - |IndexNamePrefix|]];
    }
  }

  // ---------------------------------------------------------------------------
  // findObjectsForKind, as a specification
  // ---------------------------------------------------------------------------

  const MsgNewListObject: string := "While creating a List object"
  const MsgList: string := "While listing liked resources"
  const MsgEachListItem: string := "While itterating list"

  /** The field selector value for a target object: "<namespace>/<name>"; the namespace may be empty. */
  function LookupKey(namespace: string, name: string): string
  {
    namespace + "/" + name
  }

  /** Namespaces never contain '/', so the key determines the target it was built from. */
  lemma LookupKeyInjective(ns1: string, n1: string, ns2: string, n2: string)
    requires '/' !in ns1 && '/' !in ns2
    requires LookupKey(ns1, n1) == LookupKey(ns2, n2)
    ensures ns1 == ns2 && n1 == n2
  {
    var key := LookupKey(ns1, n1);
    assert key == ns1 + ['/'] + n1 && key == ns2 + ['/'] + n2;
    Strings.IndexOfAfterFree(ns1, '/', n1);
    Strings.IndexOfAfterFree(ns2, '/', n2);
    assert ns1 == key[..|ns1|] && ns2 == key[..|ns2|];
    assert n1 == key[|ns1| + 1..] && n2 == key[|ns2| + 1..];
  }

  /**
    The requests for the listed items, in list order: the conversion of each item
    to client.Object must succeed, and one failure spoils the whole list.
   */
  function ToRequests(items: seq<Obj>): (r: Option<seq<Request>>)
    ensures r.None? <==> exists i :: 0 <= i < |items| && !items[i].isClientObject
    ensures r.Some? ==> |r.value| == |items| && forall i :: 0 <= i < |items| ==> r.value[i] == Request(ObjectKey(items[i]))
  {
    if items == [] then Some([])
    else
      var init := items[..|items| - 1];
      var last := items[|items| - 1];
      var prefix := ToRequests(init);
      assert forall i :: 0 <= i < |items| - 1 ==> items[i] == init[i];
      if prefix.None? || !last.isClientObject then None
      else Some(prefix.value + [Request(ObjectKey(last))])
  }

  /** What one findObjectsForKind call produces: its requests and the failure it logs, if any. */
  datatype Found = Found(requests: seq<Request>, failure: Option<(Error, string)>)

  /** findObjectsForKind given the outcome of NewListObject and of the cache List call. */
  function MapListing(listObject: Option<Error>, listing: Result<seq<Obj>, Error>): Found
  {
    if listObject.Some? then Found([], Some((listObject.value, MsgNewListObject)))
    else match listing
      case Failure(e) => Found([], Some((e, MsgList)))
      case Success(items) =>
        match ToRequests(items)
        case None => Found([], Some((NotClientObject, MsgEachListItem)))
        case Some(rs) => Found(rs, None)
  }

  /** The entries findObjectsForKind logs for a target object. */
  function LogFor(found: Found, target: Obj): seq<LogEntry>
  {
    if found.failure.Some? then [LogEntry(found.failure.value.0, found.failure.value.1, ObjectKey(target))] else []
  }

  /**
    Fail-open: a failure to create the list object, to list, or to convert an
    item yields no request and exactly one log line about the target, and no
    error reaches the caller; otherwise every listed item yields its request,
    in list order, and nothing is logged.
   */
  lemma MapListingFailOpen(listObject: Option<Error>, listing: Result<seq<Obj>, Error>, target: Obj)
    ensures var found := MapListing(listObject, listing);
      found.failure.Some? <==>
        listObject.Some? || listing.Failure? || exists i :: 0 <= i < |listing.value| && !listing.value[i].isClientObject
    ensures var found := MapListing(listObject, listing);
      found.failure.Some? ==> (found.requests == [] && |LogFor(found, target)| == 1
                               && LogFor(found, target)[0].objectKey == ObjectKey(target))
    ensures var found := MapListing(listObject, listing);
      found.failure.None? ==> (LogFor(found, target) == [] && |found.requests| == |listing.value|
                               && forall i :: 0 <= i < |listing.value| ==> found.requests[i] == Request(ObjectKey(listing.value[i])))
  {
  }

  /**
    Index correctness and no false positives: when every cached object converts,
    the requests for a target are exactly the keys of the cached objects of the
    linked kind whose index function lists the target's key.
   */
  lemma FoundRequestsAreLinked(objects: seq<Obj>, kind: string, toId: Extractor, target: Obj)
    requires forall o :: o in objects ==> o.isClientObject
    ensures var key := LookupKey(target.namespace, target.name);
      var found := MapListing(None, Success(Select(objects, kind, toId, key)));
      found.failure.None? &&
      forall k :: Request(k) in found.requests <==>
        exists o :: o in objects && o.kind == kind && key in toId(o) && ObjectKey(o) == k
  {
  }

  // ---------------------------------------------------------------------------
  // Per-event deduplication, as a specification
  // ---------------------------------------------------------------------------

  function Elems(s: seq<Request>): set<Request>
  {
    set x | x in s
  }

  predicate Distinct(s: seq<Request>)
  {
    forall i, j :: 0 <= i < j < |s| ==> s[i] != s[j]
  }

  /**
    The requests mapAndEnqueue pushes when it maps `rs` against the set `seen`:
    each request of `rs` that is not in `seen`, once, at its first occurrence.
   */
  function NewInOrder(rs: seq<Request>, seen: set<Request>): seq<Request>
  {
    if rs == [] then []
    else
      var init := rs[..|rs| - 1];
      var last := rs[|rs| - 1];
      NewInOrder(init, seen) + (if last in seen || last in init then [] else [last])
  }

  /** A request is pushed iff it was found and was not in the set already. */
  lemma {:induction false} NewInOrderMembers(rs: seq<Request>, seen: set<Request>)
    ensures forall x :: x in NewInOrder(rs, seen) <==> x in rs && x !in seen
  {
    if rs != [] {
      var init := rs[..|rs| - 1];
      assert rs == init + [rs[|rs| - 1]];
      NewInOrderMembers(init, seen);
    }
  }

  /** No request is pushed twice for one event. */
  lemma {:induction false} NewInOrderDistinct(rs: seq<Request>, seen: set<Request>)
    ensures Distinct(NewInOrder(rs, seen))
  {
    if rs != [] {
      var init := rs[..|rs| - 1];
      NewInOrderDistinct(init, seen);
      NewInOrderMembers(init, seen);
    }
  }

  /** One iteration of the enqueue loop: the next request is pushed iff neither the set nor the prefix holds it. */
  lemma NewInOrderStep(found: seq<Request>, i: nat, seen: set<Request>)
    requires i < |found|
    ensures Elems(found[..i + 1]) == Elems(found[..i]) + {found[i]}
    ensures NewInOrder(found[..i + 1], seen)
         == NewInOrder(found[..i], seen) + (if found[i] in seen + Elems(found[..i]) then [] else [found[i]])
  {
    assert found[..i + 1] == found[..i] + [found[i]];
    assert found[..i + 1][..i] == found[..i];
  }

  /** The first index of `x` in `s`. */
  function FirstIndex(s: seq<Request>, x: Request): (i: nat)
    requires x in s
    ensures i < |s| && s[i] == x && x !in s[..i]
  {
    if s[0] == x then 0
    else
      var j := FirstIndex(s[1..], x);
      assert s[..j + 1] == [s[0]] + s[1..][..j];
      j + 1
  }

  lemma FirstIndexUnique(s: seq<Request>, x: Request, i: nat)
    requires i < |s| && s[i] == x && x !in s[..i]
    ensures FirstIndex(s, x) == i
  {
  }

  /** Push order is the order of first occurrence in the mapped requests. */
  lemma {:induction false} NewInOrderFirstOccurrence(rs: seq<Request>, seen: set<Request>, i: nat, j: nat)
    requires i < j < |NewInOrder(rs, seen)|
    ensures var r := NewInOrder(rs, seen);
      r[i] in rs && r[j] in rs && FirstIndex(rs, r[i]) < FirstIndex(rs, r[j])
  {
    var r := NewInOrder(rs, seen);
    NewInOrderMembers(rs, seen);
    assert r[i] in r && r[j] in r;
    assert rs != [];
    var init := rs[..|rs| - 1];
    var last := rs[|rs| - 1];
    assert rs == init + [last];
    var r0 := NewInOrder(init, seen);
    NewInOrderMembers(init, seen);
    assert r[i] in r0 ==> FirstIndex(rs, r[i]) == FirstIndex(init, r[i]) by {
      if r[i] in r0 {
        var k := FirstIndex(init, r[i]);
        assert rs[..k] == init[..k];
        FirstIndexUnique(rs, r[i], k);
      }
    }
    if j < |r0| {
      assert r[i] == r0[i] && r[j] == r0[j];
      NewInOrderFirstOccurrence(init, seen, i, j);
      var k := FirstIndex(init, r[j]);
      assert rs[..k] == init[..k];
      FirstIndexUnique(rs, r[j], k);
    } else {
      assert r[j] == last && last !in init;
      assert rs[..|rs| - 1] == init;
      FirstIndexUnique(rs, last, |rs| - 1);
      assert r[i] == r0[i];
    }
  }

  /**
    Mapping `a` and then `b` into one shared set pushes what one pass over `a + b`
    pushes: the second pass skips everything the first one recorded.
   */
  lemma {:induction false} NewInOrderAppend(a: seq<Request>, b: seq<Request>, seen: set<Request>)
    ensures NewInOrder(a + b, seen) == NewInOrder(a, seen) + NewInOrder(b, seen + Elems(a))
  {
    if b == [] {
      assert a + b == a;
    } else {
      var b' := b[..|b| - 1];
      var x := b[|b| - 1];
      assert (a + b)[..|a + b| - 1] == a + b';
      assert (a + b)[|a + b| - 1] == x;
      NewInOrderAppend(a, b', seen);
      assert (x in seen || x in a + b') <==> (x in seen + Elems(a) || x in b');
    }
  }

  lemma {:induction false} DistinctCount(s: seq<Request>, x: Request)
    requires Distinct(s)
    ensures multiset(s)[x] == if x in s then 1 else 0
  {
    if s != [] {
      assert s == [s[0]] + s[1..];
      assert Distinct(s[1..]) by {
        forall i, j | 0 <= i < j < |s[1..]| ensures s[1..][i] != s[1..][j] {
          assert s[1..][i] == s[i + 1] && s[1..][j] == s[j + 1];
        }
      }
      DistinctCount(s[1..], x);
      assert s[0] !in s[1..] by {
        forall k | 0 <= k < |s[1..]| ensures s[1..][k] != s[0] {
          assert s[1..][k] == s[k + 1];
        }
      }
    }
  }

  /**
    At-most-once per event: a request found for an event is pushed exactly once
    if it was not already recorded, and never otherwise.
   */
  lemma NewInOrderExactlyOnce(rs: seq<Request>, seen: set<Request>, x: Request)
    ensures multiset(NewInOrder(rs, seen))[x] == if x in rs && x !in seen then 1 else 0
  {
  }

  /** A one-item listing of a client object yields that object's request. */
  lemma SingleToRequest(o: Obj)
    requires o.isClientObject
    ensures ToRequests([o]) == Some([Request(ObjectKey(o))])
  {
    var r := ToRequests([o]);
    assert r.Some? && |r.value| == 1 && r.value[0] == Request(ObjectKey(o));
    assert r.value == [Request(ObjectKey(o))];
  }

  /** Selecting from a two-object cache keeps each object that matches, in order. */
  lemma SelectPair(a: Obj, b: Obj, kind: string, toId: Extractor, value: string)
    ensures Select([a, b], kind, toId, value)
         == (if a.kind == kind && value in toId(a) then [a] else [])
          + (if b.kind == kind && value in toId(b) then [b] else [])
  {
    assert [a, b][1..] == [b];
    assert [b][1..] == [];
  }

  /** Two different requests pushed from an empty set are pushed in order. */
  lemma NewInOrderPair(r1: Request, r2: Request)
    requires r1 != r2
    ensures NewInOrder([r1] + [r2], {}) == [r1, r2]
  {
    var both := [r1] + [r2];
    assert both[..1] == [r1] && both[1] == r2 && [r1][..0] == [];
    assert NewInOrder([r1], {}) == [r1];
  }

  /**
    An update that moves the target from one key to another: one linked object
    names the old key, another names the new one, and both are pushed once, the
    old side's first.
   */
  lemma UpdateMovesLink(a2: Obj, a3: Obj, kind: string, oldKey: string, newKey: string)
    requires a2.kind == kind && a3.kind == kind && a2.isClientObject && a3.isClientObject
    requires ObjectKey(a2) != ObjectKey(a3) && oldKey != newKey
    requires a2.payload == [oldKey] && a3.payload == [newKey]
    ensures var toId := (o: Obj) => o.payload;
      var first := MapListing(None, Success(Select([a2, a3], kind, toId, oldKey))).requests;
      var second := MapListing(None, Success(Select([a2, a3], kind, toId, newKey))).requests;
      NewInOrder(first + second, {}) == [Request(ObjectKey(a2)), Request(ObjectKey(a3))]
  {
    var toId := (o: Obj) => o.payload;
    SelectPair(a2, a3, kind, toId, oldKey);
    SelectPair(a2, a3, kind, toId, newKey);
    assert toId(a2) == [oldKey] && toId(a3) == [newKey];
    assert Select([a2, a3], kind, toId, oldKey) == [a2];
    assert Select([a2, a3], kind, toId, newKey) == [a3];
    SingleToRequest(a2);
    SingleToRequest(a3);
    NewInOrderPair(Request(ObjectKey(a2)), Request(ObjectKey(a3)));
  }

  /** The calls of the hook that pushing `rs` onto `q` makes. */
  function CallsFor(q: Queue, rs: seq<Request>): (calls: seq<HookCall>)
  {
    if rs == [] then [] else CallsFor(q, rs[..|rs| - 1]) + [HookCall(q, rs[|rs| - 1])]
  }

  lemma CallsForSnoc(q: Queue, rs: seq<Request>, x: Request)
    ensures CallsFor(q, rs + [x]) == CallsFor(q, rs) + [HookCall(q, x)]
  {
  }

  lemma {:induction false} CallsForAppend(q: Queue, a: seq<Request>, b: seq<Request>)
    ensures CallsFor(q, a + b) == CallsFor(q, a) + CallsFor(q, b)
  {
    if b == [] {
      assert a + b == a;
    } else {
      assert (a + b)[..|a + b| - 1] == a + b[..|b| - 1];
      CallsForAppend(q, a, b[..|b| - 1]);
    }
  }

  /**
    Going from queue contents `items0` and hook calls `calls0` to `items` and
    `calls`, `pushed` went in order to the hook when there is one (and nothing
    to the queue), and otherwise to the queue.
   */
  predicate Delivered(hooked: bool, q: Queue, items0: seq<Request>, calls0: seq<HookCall>,
                      items: seq<Request>, calls: seq<HookCall>, pushed: seq<Request>)
  {
    if hooked then items == items0 && calls == calls0 + CallsFor(q, pushed)
    else items == items0 + pushed && calls == calls0
  }

  /** Two deliveries in a row are one delivery of both batches. */
  lemma DeliveredChain(hooked: bool, q: Queue, items0: seq<Request>, calls0: seq<HookCall>,
                       items1: seq<Request>, calls1: seq<HookCall>, items: seq<Request>, calls: seq<HookCall>,
                       first: seq<Request>, second: seq<Request>)
    requires Delivered(hooked, q, items0, calls0, items1, calls1, first)
    requires Delivered(hooked, q, items1, calls1, items, calls, second)
    ensures Delivered(hooked, q, items0, calls0, items, calls, first + second)
  {
    CallsForAppend(q, first, second);
  }

  // ---------------------------------------------------------------------------
  // The handler
  // ---------------------------------------------------------------------------

  datatype CreateEvent = CreateEvent(obj: Obj)
  datatype UpdateEvent = UpdateEvent(objectOld: Obj, objectNew: Obj)
  datatype DeleteEvent = DeleteEvent(obj: Obj)
  datatype GenericEvent = GenericEvent(obj: Obj)

  class LinkedResourceHandler {
    const cache: Cache
    const objType: string
    const addToQueue: QueueHook?
    const refField: string
    const scheme: Scheme
    const logger: Logger

    /** The struct literal that NewLinkedResourceHandler returns on success. */
    constructor (logger: Logger, scheme: Scheme, cache: Cache, objType: string, addToQueue: QueueHook?, refField: string)
      ensures this.logger == logger && this.scheme == scheme && this.cache == cache
      ensures this.objType == objType && this.addToQueue == addToQueue && this.refField == refField
    {
      this.logger := logger;
      this.scheme := scheme;
      this.cache := cache;
      this.objType := objType;
      this.addToQueue := addToQueue;
      this.refField := refField;
    }

    /** What findObjectsForKind produces for a target object in the current cache. */
    function Find(target: Obj): Found
      reads cache
    {
      MapListing(NewListObject(scheme, objType), cache.List(objType, refField, LookupKey(target.namespace, target.name)))
    }

    /**
      Once the handler's index is the one registered for `toId`, the requests it
      finds for a target are exactly the keys of the cached objects of the linked
      type whose index function lists the target's key.
     */
    lemma FindIsLinked(target: Obj, toId: Extractor)
      requires objType in scheme.listKinds && cache.listError.None?
      requires (objType, refField) in cache.indexes && cache.indexes[(objType, refField)] == toId
      requires forall o :: o in cache.objects ==> o.isClientObject
      ensures Find(target).failure.None?
      ensures forall k :: Request(k) in Find(target).requests <==>
        exists o :: o in cache.objects && o.kind == objType && LookupKey(target.namespace, target.name) in toId(o)
                    && ObjectKey(o) == k
    {
    }

    /** The calls the hook has received so far; none when there is no hook. */
    function HookCalls(): seq<HookCall>
      reads addToQueue
    {
      if addToQueue == null then [] else addToQueue.calls
    }

    /** findObjectsForKind */
    method FindObjectsForKind(target: Obj) returns (requests: seq<Request>)
      modifies logger
      ensures requests == Find(target).requests
      ensures logger.entries == old(logger.entries) + LogFor(Find(target), target)
    {
      var key := ObjectKey(target);
      var listErr := NewListObject(scheme, objType);
      if listErr.Some? {
        logger.Error(listErr.value, MsgNewListObject, key);
        return [];
      }
      var listing := cache.List(objType, refField, LookupKey(target.namespace, target.name));
      if listing.Failure? {
        logger.Error(listing.error, MsgList, key);
        return [];
      }
      var items := listing.value;
      requests := [];
      for i := 0 to |items|
        invariant ToRequests(items[..i]) == Some(requests)
        invariant logger.entries == old(logger.entries)
      {
        if !items[i].isClientObject {
          logger.Error(NotClientObject, MsgEachListItem, key);
          return [];
        }
        assert items[..i + 1][..i] == items[..i];
        requests := requests + [Request(ObjectKey(items[i]))];
      }
      assert items[..|items|] == items;
    }

    /** mapAndEnqueue: pushes each found request that `reqs` does not hold yet, and records it. */
    method MapAndEnqueue(q: Queue, target: Obj, reqs: RequestSet) returns (ghost found: seq<Request>)
      modifies q, reqs, logger, addToQueue
      ensures found == Find(target).requests
      ensures reqs.members == old(reqs.members) + Elems(found)
      ensures Delivered(addToQueue != null, q, old(q.items), old(HookCalls()), q.items, HookCalls(), NewInOrder(found, old(reqs.members)))
      ensures logger.entries == old(logger.entries) + LogFor(Find(target), target)
    {
      var requests := FindObjectsForKind(target);
      EnqueueNew(q, requests, reqs);
      found := requests;
    }

    /** The loop of mapAndEnqueue over the requests findObjectsForKind returned. */
    method EnqueueNew(q: Queue, found: seq<Request>, reqs: RequestSet)
      modifies q, reqs, addToQueue
      ensures reqs.members == old(reqs.members) + Elems(found)
      ensures Delivered(addToQueue != null, q, old(q.items), old(HookCalls()), q.items, HookCalls(), NewInOrder(found, old(reqs.members)))
    {
      ghost var seen := reqs.members;
      ghost var pushed: seq<Request> := [];
      for i := 0 to |found|
        invariant reqs.members == seen + Elems(found[..i])
        invariant pushed == NewInOrder(found[..i], seen)
        invariant Delivered(addToQueue != null, q, old(q.items), old(HookCalls()), q.items, HookCalls(), pushed)
      {
        var req := found[i];
        NewInOrderStep(found, i, seen);
        if req !in reqs.members {
          if addToQueue != null {
            addToQueue.Invoke(q, req);
          } else {
            q.Add(req);
          }
          CallsForSnoc(q, pushed, req);
          pushed := pushed + [req];
          reqs.Insert(req);
        }
      }
      assert found[..|found|] == found;
    }

    /** Create: maps the object against a fresh set. */
    method Create(evt: CreateEvent, q: Queue)
      modifies q, logger, addToQueue
      ensures Delivered(addToQueue != null, q, old(q.items), old(HookCalls()), q.items, HookCalls(), NewInOrder(Find(evt.obj).requests, {}))
      ensures logger.entries == old(logger.entries) + LogFor(Find(evt.obj), evt.obj)
    {
      var reqs := new RequestSet();
      ghost var found := MapAndEnqueue(q, evt.obj, reqs);
    }

    /** Update: maps the old and then the new object against one shared set. */
    method Update(evt: UpdateEvent, q: Queue)
      modifies q, logger, addToQueue
      ensures Delivered(addToQueue != null, q, old(q.items), old(HookCalls()), q.items, HookCalls(),
                        NewInOrder(Find(evt.objectOld).requests + Find(evt.objectNew).requests, {}))
      ensures logger.entries == old(logger.entries) + LogFor(Find(evt.objectOld), evt.objectOld)
                                                    + LogFor(Find(evt.objectNew), evt.objectNew)
    {
      var reqs := new RequestSet();
      ghost var items0, calls0 := q.items, HookCalls();
      ghost var first := MapAndEnqueue(q, evt.objectOld, reqs);
      ghost var items1, calls1 := q.items, HookCalls();
      ghost var second := MapAndEnqueue(q, evt.objectNew, reqs);
      NewInOrderAppend(first, second, {});
      DeliveredChain(addToQueue != null, q, items0, calls0, items1, calls1, q.items, HookCalls(),
                     NewInOrder(first, {}), NewInOrder(second, {} + Elems(first)));
    }

    /** Delete: maps the last known state of the object against a fresh set. */
    method Delete(evt: DeleteEvent, q: Queue)
      modifies q, logger, addToQueue
      ensures Delivered(addToQueue != null, q, old(q.items), old(HookCalls()), q.items, HookCalls(), NewInOrder(Find(evt.obj).requests, {}))
      ensures logger.entries == old(logger.entries) + LogFor(Find(evt.obj), evt.obj)
    {
      var reqs := new RequestSet();
      ghost var found := MapAndEnqueue(q, evt.obj, reqs);
    }

    /** Generic: maps the object against a fresh set. */
    method Generic(evt: GenericEvent, q: Queue)
      modifies q, logger, addToQueue
      ensures Delivered(addToQueue != null, q, old(q.items), old(HookCalls()), q.items, HookCalls(), NewInOrder(Find(evt.obj).requests, {}))
      ensures logger.entries == old(logger.entries) + LogFor(Find(evt.obj), evt.obj)
    {
      var reqs := new RequestSet();
      ghost var found := MapAndEnqueue(q, evt.obj, reqs);
    }
  }

  // ---------------------------------------------------------------------------
  // Construction
  // ---------------------------------------------------------------------------

  /**
    NewLinkedResourceHandler: draws the index name, resolves the linked type in
    the scheme, registers the index function on the cache, and returns the
    handler, or no handler and the first error.
   */
  method NewLinkedResourceHandler(logger: Logger, scheme: Scheme, cache: Cache, objType: string, toId: Extractor,
                                  addToQueue: QueueHook?, draws: seq<LetterIndex>)
    returns (h: LinkedResourceHandler?, err: Option<Error>)
    requires IndexNameLength <= |draws|
    modifies cache
    ensures h == null <==> err.Some?
    ensures SetGroupVersionKind(scheme, objType).Some? ==>
              err == SetGroupVersionKind(scheme, objType) && cache.indexes == old(cache.indexes)
    ensures SetGroupVersionKind(scheme, objType).None? ==>
              err == old(cache.IndexFieldError(objType, GeneratedIndexName(draws)))
    ensures err.Some? ==> cache.indexes == old(cache.indexes)
    ensures err.None? ==> cache.indexes == old(cache.indexes)[(objType, GeneratedIndexName(draws)) := toId]
    ensures h != null ==> (fresh(h) && h.refField == GeneratedIndexName(draws)
                           && h.logger == logger && h.scheme == scheme && h.cache == cache
                           && h.objType == objType && h.addToQueue == addToQueue)
    ensures cache.objects == old(cache.objects) && cache.started == old(cache.started)
    ensures cache.listError == old(cache.listError)
  {
    var suffix := RandStringRunes(IndexNameLength, draws);
    var refField := IndexNamePrefix + suffix;
    err := SetGroupVersionKind(scheme, objType);
    if err.Some? {
      return null, err;
    }
    err := cache.IndexField(objType, refField, toId);
    if err.Some? {
      return null, err;
    }
    h := new LinkedResourceHandler(logger, scheme, cache, objType, addToQueue, refField);
  }
}
