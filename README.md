# athenz-issuer: linked resource handler and identity helpers, in Dafny

This project models two parts of the Athenz cert-manager issuer and proves properties of them.

**The linked resource handler** (`internal/kubeutil/watch.go`, modules `KubeRuntime` and `KubeUtil`). A watch event on a *target* object becomes reconcile requests for every *linked* object in the informer cache whose index function names the target's `"<namespace>/<name>"` key.
- Construction draws a random index name `".x-index." + 10 letters`. It then resolves the linked type in the scheme and registers the index on the cache.
- `findObjectsForKind` lists the cache through that index. It fails open: errors are logged, never returned.
- `mapAndEnqueue` pushes each found request at most once per event, either to the work queue or to a caller-supplied hook.
- `Update` maps the old and the new object into one shared set.

The handler is a class with the source's fields. The queue, the hook, the logger and the per-event request set are classes whose methods append to sequences or sets. Each method is proved against specification functions:
- `Find` is what the cache lookup yields;
- `NewInOrder` is what a pass of `mapAndEnqueue` pushes;
- `CallsFor` is how the hook sees those pushes;
- `LogFor` is what gets logged.

Lemmas tie these functions to the promised properties.

**The identity helpers** (`internal/util.go`, module `IssuerUtil`). These are pure functions:
- parsing `spiffe://<td>/ns/<ns>/sa/<sa>`;
- reading the identity annotation;
- splitting a service account name into an Athenz domain and service;
- choosing the SPIFFE URI out of a certificate signing request.

`wrappers.dfy` holds an Option/Result pair. `strings.dfy` holds the two `strings` calls the helpers make (`LastIndex`, `HasPrefix`) and the scanning helpers of the parser that stands in for the SPIFFE URI regular expression.

Two consequences of the code that are easy to miss:
- The index-name alphabet is the 52 ASCII letters `a-z`, `A-Z` (`internal/kubeutil/watch.go:145`), with no digits. Names therefore range over 52^10 values.
- One list item that cannot be converted to `client.Object` makes `findObjectsForKind` log once and return no requests (`internal/kubeutil/watch.go:128-140`). The items already converted are dropped too.

## Model

| member | source | states |
|---|---|---|
| KubeUtil.LetterRunesAreLetters | internal/kubeutil/watch.go:145 | the alphabet, written as the literal of the source, is exactly 52 distinct ASCII letters |
| KubeUtil.RandStringRunes | internal/kubeutil/watch.go:147-153 | the result has length n, its i-th rune is the alphabet entry picked by the i-th draw, and every rune is a letter |
| KubeUtil.GeneratedIndexNameShape | internal/kubeutil/watch.go:76 | the index name is ".x-index." followed by exactly ten letters |
| KubeUtil.NewLinkedResourceHandler | internal/kubeutil/watch.go:66-98 | a scheme failure is returned first and leaves the cache's indexes untouched; otherwise the IndexField refusal is returned; the handler is null exactly when an error is returned; on success the index (objType, generated name) maps to toId and a fresh handler holds the given collaborators and the generated name |
| KubeUtil.LinkedResourceHandler.constructor | internal/kubeutil/watch.go:89-97 | the handler's fields are the values it is given |
| KubeRuntime.SetGroupVersionKind | internal/kubeutil/watch.go:78-80 | an assumed definition of the collaborator, not a proved result about it: resolution succeeds exactly when the scheme knows the type |
| KubeRuntime.Cache.IndexField | internal/kubeutil/watch.go:85-87 | an assumed definition of the collaborator: the index is added exactly when the cache has not started and the (kind, field) pair is free; the error says which; nothing else in the cache changes |
| KubeRuntime.NewListObject | internal/kubeutil/watch.go:113-117 | an assumed definition of the collaborator: creating the list object succeeds exactly when the scheme knows the list kind |
| KubeRuntime.Select | internal/kubeutil/watch.go:118-122 | an assumed definition of the field-selector filter: it lists precisely the cached objects of the kind whose index function yields the value, never more than the cache holds |
| KubeRuntime.SelectAppend | internal/kubeutil/watch.go:118-122 | listing keeps cache order: selecting from a concatenation concatenates the selections |
| KubeRuntime.Cache.List | internal/kubeutil/watch.go:122-125 | an assumed definition of the collaborator: List succeeds exactly when no failure is injected and the index is registered, and then returns the selection |
| KubeRuntime.ObjectKey | internal/kubeutil/watch.go:133-135 | definition: client.ObjectKeyFromObject, the (namespace, name) of an object |
| KubeUtil.LookupKey | internal/kubeutil/watch.go:119 | definition: the field selector value namespace + "/" + name; LookupKeyInjective characterises it |
| KubeUtil.LookupKeyInjective | internal/kubeutil/watch.go:119 | the "<namespace>/<name>" key, with a possibly empty namespace free of '/', determines both parts it was built from |
| KubeUtil.ToRequests | internal/kubeutil/watch.go:127-140 | the conversion fails exactly when some item is not a client object; otherwise it yields one request per item, carrying that item's own key, in list order |
| KubeUtil.MapListing | internal/kubeutil/watch.go:113-142 | definition of findObjectsForKind on the outcomes of NewListObject and List: the first failure and its message, or the converted requests; MapListingFailOpen characterises it |
| KubeUtil.LinkedResourceHandler.Find | internal/kubeutil/watch.go:113-142 | definition: MapListing applied to the handler's scheme lookup and its cache's List for the target's key; FindIsLinked characterises it |
| KubeRuntime.Logger.Error | internal/kubeutil/watch.go:113-140 | the logger gains exactly one entry with the error, the message and the target's key, as each of the three logger.Error calls at lines 115, 123 and 138 does |
| KubeUtil.MapListingFailOpen | internal/kubeutil/watch.go:113-142 | a failure is recorded exactly when creating the list object fails, List fails, or some item does not convert; a failure yields zero requests and exactly one log line naming the target's key, with no error to the caller; without one, nothing is logged and every listed item yields its request in order |
| KubeUtil.FoundRequestsAreLinked | internal/kubeutil/watch.go:118-136 | index correctness and no false positives, for a successful listing (no list-object or List failure) of a cache in which every object converts to a client object: nothing is logged, and a key is requested exactly when some cached object of the kind lists the target's key |
| KubeUtil.LinkedResourceHandler.FindIsLinked | internal/kubeutil/watch.go:107-143 | when the scheme knows the list kind, the cache has no injected List failure, the handler's index (objType, refField) is registered as toId, and every cached object converts to a client object: the handler's lookup logs nothing and finds exactly the keys of the cached objects of objType whose toId lists the target's key |
| KubeUtil.LinkedResourceHandler.FindObjectsForKind | internal/kubeutil/watch.go:107-143 | returns the requests of the specification Find and appends exactly LogFor's entries to the log |
| KubeUtil.NewInOrder | internal/kubeutil/watch.go:186-196 | definition: each found request not in the set, once, at its first occurrence; the NewInOrder lemmas below characterise it |
| KubeUtil.NewInOrderMembers | internal/kubeutil/watch.go:186-196 | a request is pushed exactly when it was found and was not already in the set |
| KubeUtil.NewInOrderDistinct | internal/kubeutil/watch.go:186-196 | one pass never pushes a request twice |
| KubeUtil.NewInOrderFirstOccurrence | internal/kubeutil/watch.go:186-196 | pushes come in the order of first occurrence in the found requests |
| KubeUtil.NewInOrderExactlyOnce | internal/kubeutil/watch.go:186-196 | a found request that was new is pushed exactly once, and any other request never |
| KubeRuntime.Queue.Add | internal/kubeutil/watch.go:192 | the queue gains exactly the one request at its end |
| KubeRuntime.QueueHook.Invoke | internal/kubeutil/watch.go:190 | the hook records exactly one call with the queue and the request |
| KubeRuntime.RequestSet.Insert | internal/kubeutil/watch.go:195 | the set gains exactly the request |
| KubeUtil.LinkedResourceHandler.EnqueueNew | internal/kubeutil/watch.go:186-197 | the set gains every found request, and NewInOrder of the found requests is delivered: through the hook alone when there is one, otherwise appended to the queue |
| KubeUtil.LinkedResourceHandler.MapAndEnqueue | internal/kubeutil/watch.go:185-198 | the set gains every request Find yields; the new ones are delivered in order; the lookup's log entries are appended |
| KubeUtil.CallsForAppend | internal/kubeutil/watch.go:189-190 | hook calls for two batches are the calls for the first followed by those for the second |
| KubeUtil.DeliveredChain | internal/kubeutil/watch.go:167-171 | two deliveries in a row are one delivery of both batches, on the queue or through the hook |
| KubeUtil.NewInOrderAppend | internal/kubeutil/watch.go:167-171 | two passes sharing one set push what one pass over the concatenated finds pushes |
| KubeUtil.LinkedResourceHandler.Create | internal/kubeutil/watch.go:161-164 | starting from an empty set, the new requests for the object are delivered and its log entries appended |
| KubeUtil.LinkedResourceHandler.Update | internal/kubeutil/watch.go:167-171 | what is delivered is one deduplicated pass over the old object's finds followed by the new object's; combined with NewInOrderExactlyOnce, a linked object matched by both sides is pushed once; both lookups' log entries are appended in order |
| KubeUtil.LinkedResourceHandler.Delete | internal/kubeutil/watch.go:174-177 | as Create, for the deleted object |
| KubeUtil.LinkedResourceHandler.Generic | internal/kubeutil/watch.go:180-183 | as Create, for the object of the generic event |
| KubeUtil.UpdateMovesLink | internal/kubeutil/watch.go:167-171 | an instance, not the general property: for a cache of exactly two client objects of the kind, with different keys, whose index outputs are exactly [oldKey] and [newKey] (oldKey different from newKey), one pass over the old key's finds followed by the new key's pushes each of the two requests once, the old side's first |
| IssuerUtil.ExtractNamespaceAndServiceAccountFromSpiffeURI | internal/util.go:37-49 | on success both parts are non-empty and free of '/'; any failure is ("", "", "invalid SPIFFE URI format") |
| IssuerUtil.ParseNamespacePart | internal/util.go:27 | the "ns/<ns>/sa/<sa>" tail is accepted only when it is rebuilt exactly from the returned segments |
| IssuerUtil.MatchesSpiffePattern | internal/util.go:27 | definition: the language of `^spiffe://[^/]+/ns/([^/]+)/sa/([^/]+)$`, the strings spiffe://td/ns/ns/sa/sa with three non-empty parts free of '/'; SpiffeURIMatchesPattern proves the parser accepts exactly it |
| IssuerUtil.SpiffeURIRoundTrip | internal/util.go:27-49 | for a non-empty, '/'-free trust domain, namespace and service account, parsing the URI built from them returns the namespace and service account |
| IssuerUtil.SpiffeURISound | internal/util.go:27-49 | a successful parse came from a URI of the pattern built from the returned parts |
| IssuerUtil.SpiffeURIMatchesPattern | internal/util.go:27-43 | the parser succeeds exactly on the strings `^spiffe://[^/]+/ns/([^/]+)/sa/([^/]+)$` matches |
| IssuerUtil.SpiffeURIExampleClusterLocal | internal/util_test.go:52-57 | spiffe://cluster.local/ns/default/sa/my.example parses to (default, my.example) |
| IssuerUtil.SpiffeURIExampleExampleCom | internal/util_test.go:58-63 | spiffe://example.com/ns/test/sa/serviceaccount parses to (test, serviceaccount) |
| IssuerUtil.SpiffeURIExamplesInvalid | internal/util_test.go:64-76 | "invalid-spiffe-uri" and "spiffe://example.com/invalid" fail with empty parts |
| IssuerUtil.ExtractSpiffeURIFromAnnotations | internal/util.go:51-57 | succeeds exactly when the identity annotation is present, and then returns its value; otherwise ("", "spiffe uri not found in annotations") |
| IssuerUtil.AnnotationValueUnvalidated | internal/util.go:51-57 | any stored value is returned unchanged, and other annotations do not matter |
| IssuerUtil.AnnotationExamples | internal/util_test.go:117-127 | "invalid-spiffe-uri" is returned without error although it does not parse; an empty map fails |
| IssuerUtil.ExtractDomainServiceFromServiceAccount | internal/util.go:59-69 | with a '.', domain + "." + service is the name and the service has no '.'; without one, the domain is empty and the service is the whole name |
| IssuerUtil.DomainServiceRoundTrip | internal/util.go:59-69 | joining a domain and a dot-free service with '.' and splitting again gives both back |
| IssuerUtil.DomainServiceExamples | internal/util.go:59-60 | athenz.prod.api splits into (athenz.prod, api); api into ("", api) |
| Strings.LastIndex | internal/util.go:64 | strings.LastIndex for one character: -1 exactly when the character is absent, otherwise an index holding it with no occurrence after it |
| IssuerUtil.FirstSpiffeURI | internal/util.go:91-97 | succeeds exactly when some URI starts with "spiffe://", and then returns the first such URI; otherwise ("", "unable to extract SPIFFE URI from CSR") |
| Strings.HasPrefix | internal/util.go:92 | definition: strings.HasPrefix, the prefix is no longer than the string and equals its head |
| IssuerUtil.ExtractSpiffeURIFromCSR | internal/util.go:71-98 | a success starts with "spiffe://" and needs a CERTIFICATE REQUEST block with no trailing bytes that parses; every error comes with an empty value |
| IssuerUtil.CSREnvelopeCheckedFirst | internal/util.go:73-90 | no block, then the wrong block type, then trailing bytes fail in that order whatever the parser would say; a parse failure reports "failed to parse CSR: " plus the parser's message; a well-formed, parsed request yields its first SPIFFE URI |
| IssuerUtil.CSRExamples | internal/util_test.go:153-162 | the request carrying spiffe://cluster.local/ns/default/sa/athenz.api yields that URI; empty input yields "no PEM block found in input" |

## Left out

- Go's `regexp` engine is not modelled. The pattern of `internal/util.go:27` is written as an explicit parser, and `SpiffeURIMatchesPattern` proves the parser accepts exactly what the pattern's language describes.
- `pem.Decode` is not modelled. Its outcome (the first block, if any, and the trailing bytes) is an input of `ExtractSpiffeURIFromCSR`.
- `x509.ParseCertificateRequest` is a function parameter. `url.URL.String()` is folded into the URI strings the parsed request carries.
- `math/rand`'s draws are an injected sequence of alphabet indexes. The model cannot state uniformity, or that two handlers on one cache get different index names.
- The constructor's context (`cacheCtx`) and the event handlers' `context.Context` are not modelled. Cancellation shows up only as an injected List failure.
- Informer internals are abstract. The cache is a sequence of objects, a map of registered index functions, a started flag and an injected List failure. How it keeps indexes up to date is not modelled.
- Scheme resolution is abstract. `SetGroupVersionKind` and `NewListObject` are defined in a part of `internal/kubeutil` that is not part of this model, and become membership tests on sets of known kinds.
- The rate-limited work queue is only the sequence of added requests. Rate limiting, delays and `Forget` are not modelled.
- `apimeta.EachListItem` is a loop over the listed items. `apimeta.LenList`, which only sizes the result slice, is dropped.
- The logger keeps only the error, the message and the object key of each `Error` call. `WithName` and the `objectType` value are dropped.
- Concurrency is not modelled. That covers events handled on several goroutines at once and a hook called concurrently.
- A Go `nil` and an empty slice of requests are both the empty sequence.
- A panicking index function is not modelled. Dafny functions are total.
- `controller/signer.go`, the API types under `v1/`, `testutil/` and the end-to-end tests are not part of this model.
