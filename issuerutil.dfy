/**
  The identity string helpers of the issuer: parsing a SPIFFE URI into its
  Kubernetes namespace and service account, reading the identity annotation,
  splitting a service account name into an Athenz domain and service, and
  choosing the SPIFFE URI of a certificate signing request.
  Go's (value, error) returns become datatypes whose `err` is None on success.
 */
module IssuerUtil {
  import opened Wrappers
  import opened Strings

  newtype byte = x: int | 0 <= x < 256

  // ---------------------------------------------------------------------------
  // ExtractNamespaceAndServiceAccountFromSpiffeURI
  // ---------------------------------------------------------------------------

  const SpiffeScheme: string := "spiffe://"
  const ErrInvalidSpiffeURI: string := "invalid SPIFFE URI format"

  /** A part the pattern matches with `[^/]+`. */
  predicate Segment(s: string)
  {
    s != [] && '/' !in s
  }

  /** The URI `spiffe://<td>/ns/<ns>/sa/<sa>`. */
  function SpiffeURI(trustDomain: string, namespace: string, serviceAccount: string): string
  {
    SpiffeScheme + trustDomain + "/ns/" + namespace + "/sa/" + serviceAccount
  }

  /** The URI regrouped the way the parser consumes it. */
  lemma SpiffeURIShape(td: string, ns: string, sa: string)
    ensures SpiffeURI(td, ns, sa) == SpiffeScheme + (td + ['/'] + ("ns/" + (ns + ['/'] + ("sa/" + sa))))
  {
  }

  /** The strings matched by `^spiffe://[^/]+/ns/([^/]+)/sa/([^/]+)$`. */
  ghost predicate MatchesSpiffePattern(uri: string)
  {
    exists td, ns, sa :: Segment(td) && Segment(ns) && Segment(sa) && uri == SpiffeURI(td, ns, sa)
  }

  datatype SpiffeIdentity = SpiffeIdentity(namespace: string, serviceAccount: string, err: Option<string>)

  /**
    The regular expression of the source, written as an explicit parser: the
    trust domain runs to the first '/', then "ns/" must follow, the namespace runs
    to the next '/', then "sa/" must follow, and the rest is the service account.
   */
  function ExtractNamespaceAndServiceAccountFromSpiffeURI(uri: string): (r: SpiffeIdentity)
    ensures r.err.None? ==> Segment(r.namespace) && Segment(r.serviceAccount)
    ensures r.err.Some? ==> r == SpiffeIdentity("", "", Some(ErrInvalidSpiffeURI))
  {
    match TrimPrefix(uri, SpiffeScheme)
    case None => Invalid()
    case Some(rest) =>
      match Cut(rest, '/')
      case None => Invalid()
      case Some((trustDomain, afterDomain)) =>
        if trustDomain == [] then Invalid()
        else ParseNamespacePart(afterDomain)
  }

  function Invalid(): SpiffeIdentity
  {
    SpiffeIdentity("", "", Some(ErrInvalidSpiffeURI))
  }

  /** What follows `spiffe://<td>/`: `ns/<ns>/sa/<sa>`. */
  function ParseNamespacePart(s: string): (r: SpiffeIdentity)
    ensures r.err.None? ==> Segment(r.namespace) && Segment(r.serviceAccount)
    ensures r.err.None? ==> s == "ns/" + (r.namespace + ['/'] + ("sa/" + r.serviceAccount))
    ensures r.err.Some? ==> r == Invalid()
  {
    match TrimPrefix(s, "ns/")
    case None => Invalid()
    case Some(afterNs) =>
      match Cut(afterNs, '/')
      case None => Invalid()
      case Some((namespace, afterNamespace)) =>
        if namespace == [] then Invalid()
        else match TrimPrefix(afterNamespace, "sa/")
          case None => Invalid()
          case Some(serviceAccount) =>
            if !Segment(serviceAccount) then Invalid()
            else SpiffeIdentity(namespace, serviceAccount, None)
  }

  lemma ParseNamespacePartOf(ns: string, sa: string)
    requires Segment(ns) && Segment(sa)
    ensures ParseNamespacePart("ns/" + (ns + ['/'] + ("sa/" + sa))) == SpiffeIdentity(ns, sa, None)
  {
    TrimPrefixOf("ns/", ns + ['/'] + ("sa/" + sa));
    CutOf(ns, '/', "sa/" + sa);
    TrimPrefixOf("sa/", sa);
  }

  /** Round trip: the parser returns the namespace and service account a matching URI was built from. */
  lemma {:induction false} SpiffeURIRoundTrip(td: string, ns: string, sa: string)
    requires Segment(td) && Segment(ns) && Segment(sa)
    ensures ExtractNamespaceAndServiceAccountFromSpiffeURI(SpiffeURI(td, ns, sa)) == SpiffeIdentity(ns, sa, None)
  {
    var tail := "ns/" + (ns + ['/'] + ("sa/" + sa));
    SpiffeURIShape(td, ns, sa);
    TrimPrefixOf(SpiffeScheme, td + ['/'] + tail);
    CutOf(td, '/', tail);
    ParseNamespacePartOf(ns, sa);
  }

  /** Soundness: a successful parse came from a URI of the pattern, with the returned parts. */
  lemma SpiffeURISound(uri: string)
    requires ExtractNamespaceAndServiceAccountFromSpiffeURI(uri).err.None?
    ensures var r := ExtractNamespaceAndServiceAccountFromSpiffeURI(uri);
      exists td :: Segment(td) && uri == SpiffeURI(td, r.namespace, r.serviceAccount)
  {
    var r := ExtractNamespaceAndServiceAccountFromSpiffeURI(uri);
    var rest := TrimPrefix(uri, SpiffeScheme).value;
    var (td, afterDomain) := Cut(rest, '/').value;
    SpiffeURIShape(td, r.namespace, r.serviceAccount);
  }

  /** The parser accepts exactly the strings the source's pattern matches. */
  lemma SpiffeURIMatchesPattern(uri: string)
    ensures ExtractNamespaceAndServiceAccountFromSpiffeURI(uri).err.None? <==> MatchesSpiffePattern(uri)
  {
    if ExtractNamespaceAndServiceAccountFromSpiffeURI(uri).err.None? {
      SpiffeURISound(uri);
    }
    if MatchesSpiffePattern(uri) {
      var td, ns, sa :| Segment(td) && Segment(ns) && Segment(sa) && uri == SpiffeURI(td, ns, sa);
      SpiffeURIRoundTrip(td, ns, sa);
    }
  }

  /** The first valid case of the unit test. */
  lemma SpiffeURIExampleClusterLocal(uri: string)
    requires uri == "spiffe://cluster.local/ns/default/sa/my.example"
    ensures ExtractNamespaceAndServiceAccountFromSpiffeURI(uri) == SpiffeIdentity("default", "my.example", None)
  {
    assert uri == "spiffe://" + ("cluster.local" + ['/'] + ("ns/" + ("default" + ['/'] + ("sa/" + "my.example"))));
    SpiffeURIShape("cluster.local", "default", "my.example");
    SpiffeURIRoundTrip("cluster.local", "default", "my.example");
  }

  /** The second valid case of the unit test. */
  lemma SpiffeURIExampleExampleCom(uri: string)
    requires uri == "spiffe://example.com/ns/test/sa/serviceaccount"
    ensures ExtractNamespaceAndServiceAccountFromSpiffeURI(uri) == SpiffeIdentity("test", "serviceaccount", None)
  {
    assert uri == "spiffe://" + ("example.com" + ['/'] + ("ns/" + ("test" + ['/'] + ("sa/" + "serviceaccount"))));
    SpiffeURIShape("example.com", "test", "serviceaccount");
    SpiffeURIRoundTrip("example.com", "test", "serviceaccount");
  }

  /** The invalid cases of the unit test: no scheme, and a path without "ns/" after the trust domain. */
  lemma SpiffeURIExamplesInvalid(noScheme: string, noNamespace: string)
    requires noScheme == "invalid-spiffe-uri"
    requires noNamespace == "spiffe://example.com/invalid"
    ensures ExtractNamespaceAndServiceAccountFromSpiffeURI(noScheme) == SpiffeIdentity("", "", Some(ErrInvalidSpiffeURI))
    ensures ExtractNamespaceAndServiceAccountFromSpiffeURI(noNamespace) == SpiffeIdentity("", "", Some(ErrInvalidSpiffeURI))
  {
    assert noNamespace == "spiffe://" + ("example.com" + ['/'] + "invalid");
    TrimPrefixOf(SpiffeScheme, "example.com" + ['/'] + "invalid");
    CutOf("example.com", '/', "invalid");
  }

  // ---------------------------------------------------------------------------
  // ExtractSpiffeURIFromAnnotations
  // ---------------------------------------------------------------------------

  const IdentityAnnotation: string := "csi.cert-manager.athenz.io/identity"
  const ErrAnnotationMissing: string := "spiffe uri not found in annotations"

  /** A Go (string, error) pair. */
  datatype StringResult = StringResult(value: string, err: Option<string>)

  /** The identity annotation's value, returned as it is: it is not checked to be a SPIFFE URI. */
  function ExtractSpiffeURIFromAnnotations(annotations: map<string, string>): (r: StringResult)
    ensures r.err.None? <==> IdentityAnnotation in annotations
    ensures r.err.None? ==> r.value == annotations[IdentityAnnotation]
    ensures r.err.Some? ==> r == StringResult("", Some(ErrAnnotationMissing))
  {
    if IdentityAnnotation in annotations then StringResult(annotations[IdentityAnnotation], None)
    else StringResult("", Some(ErrAnnotationMissing))
  }

  /**
    Whatever value is stored under the identity annotation comes back unchanged and
    without an error, whether or not it parses as a SPIFFE URI (the unit test's
    "invalid-spiffe-uri" case), and no other annotation matters.
   */
  lemma AnnotationValueUnvalidated(annotations: map<string, string>, value: string, other: string, v: string)
    requires other != IdentityAnnotation
    ensures ExtractSpiffeURIFromAnnotations(annotations[IdentityAnnotation := value]) == StringResult(value, None)
    ensures ExtractSpiffeURIFromAnnotations(annotations[other := v]) == ExtractSpiffeURIFromAnnotations(annotations)
  {
  }

  /** The expected cases of the unit test. */
  lemma AnnotationExamples()
    ensures ExtractSpiffeURIFromAnnotations(map[IdentityAnnotation := "invalid-spiffe-uri"])
         == StringResult("invalid-spiffe-uri", None)
    ensures ExtractNamespaceAndServiceAccountFromSpiffeURI("invalid-spiffe-uri").err.Some?
    ensures ExtractSpiffeURIFromAnnotations(map[]) == StringResult("", Some(ErrAnnotationMissing))
  {
  }

  // ---------------------------------------------------------------------------
  // ExtractDomainServiceFromServiceAccount
  // ---------------------------------------------------------------------------

  datatype DomainService = DomainService(domain: string, service: string)

  /** Splits a service account name at its last '.' into an Athenz domain and service. */
  function ExtractDomainServiceFromServiceAccount(saName: string): (r: DomainService)
    ensures '.' in saName ==> r.domain + "." + r.service == saName && '.' !in r.service
    ensures '.' !in saName ==> r == DomainService("", saName)
  {
    var idx := LastIndex(saName, '.');
    if idx != -1 then
      assert saName == saName[..idx] + "." + saName[idx + 1..];
      DomainService(saName[..idx], saName[idx + 1..])
    else DomainService("", saName)
  }

  /** Joining a domain and a dot-free service with '.' and splitting again gives both back. */
  lemma DomainServiceRoundTrip(domain: string, service: string)
    requires '.' !in service
    ensures ExtractDomainServiceFromServiceAccount(domain + "." + service) == DomainService(domain, service)
  {
    var s := domain + "." + service;
    assert s == domain + ['.'] + service;
    LastIndexBeforeFree(domain, '.', service);
    assert s[..|domain|] == domain && s[|domain| + 1..] == service;
  }

  /** The example of the source's documentation and a name without a dot. */
  lemma DomainServiceExamples()
    ensures ExtractDomainServiceFromServiceAccount("athenz.prod.api") == DomainService("athenz.prod", "api")
    ensures ExtractDomainServiceFromServiceAccount("api") == DomainService("", "api")
  {
  }

  // ---------------------------------------------------------------------------
  // ExtractSpiffeURIFromCSR
  // ---------------------------------------------------------------------------

  const CertificateRequestType: string := "CERTIFICATE REQUEST"
  const ErrNoPemBlock: string := "no PEM block found in input"
  const ErrNotCertificateRequest: string := "not a certificate request PEM block"
  const ErrTrailingData: string := "unexpected data found after PEM block"
  const ErrParseCSR: string := "failed to parse CSR"
  const ErrNoSpiffeURI: string := "unable to extract SPIFFE URI from CSR"

  datatype PemBlock = PemBlock(blockType: string, bytes: seq<byte>)

  /** What `pem.Decode` returned for the input: the first block, if any, and the bytes after it. */
  datatype PemDecoded = PemDecoded(block: Option<PemBlock>, rest: seq<byte>)

  /** The URIs of a parsed certificate request, each in its `String()` form. */
  datatype CertificateRequest = CertificateRequest(uris: seq<string>)

  /** The first URI that starts with "spiffe://". */
  function FirstSpiffeURI(uris: seq<string>): (r: StringResult)
    ensures r.err.None? <==> exists i :: 0 <= i < |uris| && HasPrefix(uris[i], SpiffeScheme)
    ensures r.err.None? ==> exists i :: 0 <= i < |uris| && uris[i] == r.value && HasPrefix(uris[i], SpiffeScheme)
                                     && forall k :: 0 <= k < i ==> !HasPrefix(uris[k], SpiffeScheme)
    ensures r.err.Some? ==> r == StringResult("", Some(ErrNoSpiffeURI))
  {
    if uris == [] then StringResult("", Some(ErrNoSpiffeURI))
    else if HasPrefix(uris[0], SpiffeScheme) then StringResult(uris[0], None)
    else
      var r := FirstSpiffeURI(uris[1..]);
      assert forall k :: 1 <= k < |uris| ==> uris[k] == uris[1..][k - 1];
      if r.err.Some? then r
      else
        ghost var i :| 0 <= i < |uris[1..]| && uris[1..][i] == r.value && HasPrefix(uris[1..][i], SpiffeScheme)
                      && forall k :: 0 <= k < i ==> !HasPrefix(uris[1..][k], SpiffeScheme);
        assert uris[i + 1] == r.value && forall k :: 0 <= k < i + 1 ==> !HasPrefix(uris[k], SpiffeScheme);
        r
  }

  /**
    The checks of the PEM envelope, in the source's order, then the parse of the
    request (`parse` stands for x509.ParseCertificateRequest), then the URI choice.
   */
  function ExtractSpiffeURIFromCSR(decoded: PemDecoded, parse: seq<byte> -> Result<CertificateRequest, string>): (r: StringResult)
    ensures r.err.None? ==> HasPrefix(r.value, SpiffeScheme)
    ensures r.err.Some? ==> r.value == ""
    ensures r.err.None? ==> decoded.block.Some? && decoded.block.value.blockType == CertificateRequestType
                            && decoded.rest == [] && parse(decoded.block.value.bytes).Success?
  {
    match decoded.block
    case None => StringResult("", Some(ErrNoPemBlock))
    case Some(block) =>
      if block.blockType != CertificateRequestType then StringResult("", Some(ErrNotCertificateRequest))
      else if |decoded.rest| > 0 then StringResult("", Some(ErrTrailingData))
      else match parse(block.bytes)
        case Failure(e) => StringResult("", Some(ErrParseCSR + ": " + e))
        case Success(csr) => FirstSpiffeURI(csr.uris)
  }

  /**
    The envelope is checked before the request is parsed: a missing block, a block
    of another type and trailing bytes each fail, in that order, whatever the parser
    would have said; a well-formed envelope yields the first SPIFFE URI of the request.
   */
  lemma CSREnvelopeCheckedFirst(decoded: PemDecoded, parse: seq<byte> -> Result<CertificateRequest, string>,
                                other: seq<byte> -> Result<CertificateRequest, string>)
    ensures decoded.block.None? ==> ExtractSpiffeURIFromCSR(decoded, parse).err == Some(ErrNoPemBlock)
    ensures decoded.block.Some? && decoded.block.value.blockType != CertificateRequestType
            ==> ExtractSpiffeURIFromCSR(decoded, parse).err == Some(ErrNotCertificateRequest)
    ensures decoded.block.Some? && decoded.block.value.blockType == CertificateRequestType && decoded.rest != []
            ==> ExtractSpiffeURIFromCSR(decoded, parse).err == Some(ErrTrailingData)
    ensures (decoded.block.None? || decoded.block.value.blockType != CertificateRequestType || decoded.rest != [])
            ==> ExtractSpiffeURIFromCSR(decoded, parse) == ExtractSpiffeURIFromCSR(decoded, other)
    ensures decoded.block.Some? && decoded.block.value.blockType == CertificateRequestType && decoded.rest == []
            && parse(decoded.block.value.bytes).Success?
            ==> ExtractSpiffeURIFromCSR(decoded, parse) == FirstSpiffeURI(parse(decoded.block.value.bytes).value.uris)
    ensures decoded.block.Some? && decoded.block.value.blockType == CertificateRequestType && decoded.rest == []
            && parse(decoded.block.value.bytes).Failure?
            ==> ExtractSpiffeURIFromCSR(decoded, parse).err == Some(ErrParseCSR + ": " + parse(decoded.block.value.bytes).error)
  {
  }

  /** The request of the unit test carries one SPIFFE URI, which is returned. */
  lemma CSRExamples(bytes: seq<byte>, parse: seq<byte> -> Result<CertificateRequest, string>)
    requires parse(bytes) == Success(CertificateRequest([SpiffeURI("cluster.local", "default", "athenz.api")]))
    ensures ExtractSpiffeURIFromCSR(PemDecoded(Some(PemBlock(CertificateRequestType, bytes)), []), parse)
         == StringResult(SpiffeURI("cluster.local", "default", "athenz.api"), None)
    ensures ExtractSpiffeURIFromCSR(PemDecoded(None, []), parse) == StringResult("", Some(ErrNoPemBlock))
  {
  }
}
