/** The Istio ingress stage (pkg/istio_ingress.go): a certificate for the two
    ingress hostnames, a gateway terminating TLS with that certificate's
    secret, and a virtual service routing both hostnames to the Redis
    service, created in that order, each failure aborting the rest. */
module IstioIngress {
  import opened Wrappers
  import opened Kube
  import opened Api
  import opened Pulumi
  import opened Locals

  /** The namespace of the cluster's shared Istio ingress gateway. */
  const IstioIngressNamespace := "istio-ingress"
  const CertificateResourceName := "ingress-certificate"
  const ClusterIssuerKind := "ClusterIssuer"
  /** The name of Istio's ServerTLSSettings SIMPLE mode. */
  const TlsModeSimple := "SIMPLE"
  const HttpsPortNumber := 443
  const HttpPortNumber := 80
  const RoutePortNumber := 8080

  const CertificateFailure := "error creating certificate"
  const GatewayFailure := "error creating gateway"
  const VirtualServiceFailure := "error creating virtual-service"

  /** The receiver of the stage: the stack input and the resource labels. */
  datatype ResourceStack = ResourceStack(input: StackInput, labels: StringMap)

  /** The stack's ingress section is present; the stage reads it unguarded. */
  predicate HasIngress(s: ResourceStack)
  {
    s.input.apiResource.spec.ingress.Some?
  }

  function Id(s: ResourceStack): string
  {
    s.input.apiResource.metadata.id
  }

  function Domain(s: ResourceStack): string
    requires HasIngress(s)
  {
    s.input.apiResource.spec.ingress.value.endpointDomainName
  }

  /** The external and the internal ingress hostname, in that order. */
  function IngressHosts(s: ResourceStack): (hosts: seq<string>)
    requires HasIngress(s)
    ensures |hosts| == 2 && hosts[0] != hosts[1]
  {
    [ExternalHostname(Id(s), Domain(s)), InternalHostname(Id(s), Domain(s))]
  }

  /** Metadata shared by the three objects: named after the resource id,
      placed in the created namespace, labelled with the stack's labels. */
  function IngressMetadata(s: ResourceStack, namespace: string): ObjectMeta
  {
    ObjectMeta(Id(s), namespace, s.labels, map[])
  }

  function CertificateArgsFor(s: ResourceStack, namespace: string): CertificateArgs
    requires HasIngress(s)
  {
    CertificateArgs(
      IngressMetadata(s, namespace),
      CertificateSpec(IngressHosts(s), None, IssuerRef(ClusterIssuerKind, Domain(s))))
  }

  /** The labels of the Istio ingress deployment the gateway binds to. */
  function GatewaySelector(): StringMap
  {
    map["app" := "istio-ingress", "istio" := "ingress"]
  }

  function GatewayArgsFor(s: ResourceStack, namespace: string, credential: string): GatewayArgs
    requires HasIngress(s)
  {
    GatewayArgs(
      IngressMetadata(s, namespace),
      GatewaySpec(GatewaySelector(), [
        Server("redis-https", ServerPort(HttpsPortNumber, "redis-https", "HTTPS"), IngressHosts(s),
               ServerTls(Some(credential), Some(TlsModeSimple), None)),
        Server("redis-http", ServerPort(HttpPortNumber, "redis-http", "HTTP"), IngressHosts(s),
               ServerTls(None, None, Some(true)))]))
  }

  /** The gateway reference a virtual service names: "<namespace>/<name>". */
  function GatewayReference(id: string): string
  {
    IstioIngressNamespace + "/" + id
  }

  /** The route destination: the display name (not the "-master" service)
      in the created namespace, as a fully qualified name with trailing dot. */
  function RouteDestinationHost(name: string, namespace: string): string
  {
    name + "." + namespace + ".svc.cluster.local."
  }

  function VirtualServiceArgsFor(s: ResourceStack, namespace: string): VirtualServiceArgs
    requires HasIngress(s)
  {
    var r := s.input.apiResource;
    VirtualServiceArgs(
      IngressMetadata(s, namespace),
      VirtualServiceSpec(
        [GatewayReference(Id(s))],
        IngressHosts(s),
        [HttpRoute(Id(s), [Destination(RouteDestinationHost(r.metadata.name, namespace), RoutePortNumber)])]))
  }

  /** What the stage did: the registrations it attempted, in order, and the
      error it returned (None for nil). */
  datatype IngressOutcome = IngressOutcome(calls: seq<Request>, err: Option<Error>)

  function CertificateRequestFor(s: ResourceStack, namespace: string): Request
    requires HasIngress(s)
  {
    CertificateRequest(CertificateResourceName, CertificateArgsFor(s, namespace))
  }

  function GatewayRequestFor(s: ResourceStack, namespace: string, credential: string): Request
    requires HasIngress(s)
  {
    GatewayRequest(Id(s), GatewayArgsFor(s, namespace, credential))
  }

  function VirtualServiceRequestFor(s: ResourceStack, namespace: string): Request
    requires HasIngress(s)
  {
    VirtualServiceRequest(Id(s), VirtualServiceArgsFor(s, namespace))
  }

  /** The stage against an engine whose earlier registrations are `before`. */
  function IngressRun(engine: Oracle, before: seq<Request>, s: ResourceStack, ns: Handle): IngressOutcome
    requires HasIngress(s)
  {
    var nsName := ns.metadataName;
    var certReq := CertificateRequestFor(s, nsName);
    match engine(before, certReq)
    case Err(e) => IngressOutcome([certReq], Some(Wrapped(CertificateFailure, e)))
    case Ok(cert) =>
      var gwReq := GatewayRequestFor(s, nsName, cert.secretName);
      match engine(before + [certReq], gwReq)
      case Err(e) => IngressOutcome([certReq, gwReq], Some(Wrapped(GatewayFailure, e)))
      case Ok(_) =>
        var vsReq := VirtualServiceRequestFor(s, nsName);
        match engine(before + [certReq, gwReq], vsReq)
        case Err(e) => IngressOutcome([certReq, gwReq, vsReq], Some(Wrapped(VirtualServiceFailure, e)))
        case Ok(_) => IngressOutcome([certReq, gwReq, vsReq], None)
  }

  /** Creates the certificate, then the gateway bound to the certificate's
      secret, then the virtual service; the first failure is wrapped and
      returned and nothing after it is attempted. */
  method CreateIstioIngress(ctx: Context, s: ResourceStack, createdNamespace: Handle) returns (err: Option<Error>)
    requires HasIngress(s)
    modifies ctx
    ensures var out := IngressRun(ctx.engine, old(ctx.log), s, createdNamespace);
      ctx.log == old(ctx.log) + out.calls && err == out.err
    ensures ctx.exports == old(ctx.exports)
  {
    ghost var before := ctx.log;
    var nsName := createdNamespace.metadataName;
    var certificateReq := CertificateRequestFor(s, nsName);
    var certificate := ctx.Register(certificateReq);
    if certificate.Err? {
      return Some(Wrapped(CertificateFailure, certificate.error));
    }
    var gatewayReq := GatewayRequestFor(s, nsName, certificate.value.secretName);
    var gateway := ctx.Register(gatewayReq);
    if gateway.Err? {
      return Some(Wrapped(GatewayFailure, gateway.error));
    }
    var virtualServiceReq := VirtualServiceRequestFor(s, nsName);
    assert ctx.log == before + [certificateReq, gatewayReq];
    var virtualService := ctx.Register(virtualServiceReq);
    if virtualService.Err? {
      return Some(Wrapped(VirtualServiceFailure, virtualService.error));
    }
    return None;
  }

  // Properties of the argument trees

  /** The certificate covers exactly the two ingress hostnames and is issued
      by the cluster issuer named after the domain; the secret name is left
      to the issuer. */
  lemma CertificateShape(s: ResourceStack, namespace: string)
    requires HasIngress(s)
    ensures var c := CertificateArgsFor(s, namespace);
      && c.spec.dnsNames == [Id(s) + "." + Domain(s), Id(s) + "-internal." + Domain(s)]
      && c.spec.issuerRef == IssuerRef("ClusterIssuer", Domain(s))
      && c.spec.secretName.None?
  {
  }

  /** The gateway has an HTTPS server on 443 terminating TLS in SIMPLE mode
      with the given credential, and an HTTP server on 80 that redirects to
      HTTPS; both serve exactly the certificate's DNS names. */
  lemma GatewayShape(s: ResourceStack, namespace: string, credential: string)
    requires HasIngress(s)
    ensures var g := GatewayArgsFor(s, namespace, credential);
      var dnsNames := CertificateArgsFor(s, namespace).spec.dnsNames;
      && g.spec.selector == map["app" := "istio-ingress", "istio" := "ingress"]
      && |g.spec.servers| == 2
      && g.spec.servers[0].port == ServerPort(443, "redis-https", "HTTPS")
      && g.spec.servers[0].tls.credentialName == Some(credential)
      && g.spec.servers[0].tls.mode == Some("SIMPLE")
      && g.spec.servers[1].port == ServerPort(80, "redis-http", "HTTP")
      && g.spec.servers[1].tls.httpsRedirect == Some(true)
      && (forall i :: 0 <= i < |g.spec.servers| ==> g.spec.servers[i].hosts == dnsNames)
  {
  }

  /** The virtual service binds the gateway as "istio-ingress/<id>" and routes
      the certificate's DNS names to "<name>.<namespace>.svc.cluster.local."
      on port 8080. */
  lemma VirtualServiceShape(s: ResourceStack, namespace: string)
    requires HasIngress(s)
    ensures var v := VirtualServiceArgsFor(s, namespace);
      var name := s.input.apiResource.metadata.name;
      && v.spec.gateways == ["istio-ingress/" + Id(s)]
      && v.spec.hosts == CertificateArgsFor(s, namespace).spec.dnsNames
      && |v.spec.http| == 1 && |v.spec.http[0].route| == 1
      && v.spec.http[0].route[0] == Destination(name + "." + namespace + ".svc.cluster.local.", 8080)
  {
    assert IstioIngressNamespace + "/" == "istio-ingress/";
  }

  /** The three objects share their metadata: named after the id, in the
      created namespace, carrying the stack's labels. */
  lemma SharedMetadata(s: ResourceStack, namespace: string, credential: string)
    requires HasIngress(s)
    ensures var m := ObjectMeta(Id(s), namespace, s.labels, map[]);
      && CertificateArgsFor(s, namespace).metadata == m
      && GatewayArgsFor(s, namespace, credential).metadata == m
      && VirtualServiceArgsFor(s, namespace).metadata == m
  {
  }

  /** The route destination is not the service FQDN the locals export: it
      names the display name without the "-master" suffix. */
  lemma RouteMissesServiceFqdn(name: string, namespace: string)
    ensures RouteDestinationHost(name, namespace) != ServiceFqdn(ServiceName(name), namespace) + "."
  {
    var route := RouteDestinationHost(name, namespace);
    var fqdn := ServiceFqdn(ServiceName(name), namespace) + ".";
    assert route[|name|] == '.';
    assert fqdn[|name|] == '-';
  }

  // Properties of the stage

  /** The certificate is always attempted first; the gateway is attempted
      only after the certificate was created, and carries that certificate's
      secret as its credential; the virtual service only after the gateway
      was created. */
  lemma IngressOrder(engine: Oracle, before: seq<Request>, s: ResourceStack, ns: Handle)
    requires HasIngress(s)
    ensures var out := IngressRun(engine, before, s, ns);
      var certReq := CertificateRequestFor(s, ns.metadataName);
      && 1 <= |out.calls| <= 3
      && out.calls[0] == certReq
      && (|out.calls| >= 2 ==>
            && engine(before, certReq).Ok?
            && out.calls[1] == GatewayRequestFor(s, ns.metadataName, engine(before, certReq).value.secretName))
      && (|out.calls| == 3 ==>
            && engine(before + out.calls[..1], out.calls[1]).Ok?
            && out.calls[2] == VirtualServiceRequestFor(s, ns.metadataName))
  {
    var out := IngressRun(engine, before, s, ns);
    if |out.calls| == 3 {
      assert out.calls[..1] == [CertificateRequestFor(s, ns.metadataName)];
    }
  }

  /** The stage returns nil exactly when all three creations succeeded, and
      otherwise the error of the last call attempted, wrapped with that
      call's message. */
  lemma IngressErrors(engine: Oracle, before: seq<Request>, s: ResourceStack, ns: Handle)
    requires HasIngress(s)
    ensures var out := IngressRun(engine, before, s, ns);
      var n := |out.calls|;
      var last := engine(before + out.calls[..n - 1], out.calls[n - 1]);
      && (out.err.None? <==> n == 3 && last.Ok?)
      && (out.err.Some? <==> last.Err?)
      && (out.err.Some? ==>
            out.err.value == Wrapped([CertificateFailure, GatewayFailure, VirtualServiceFailure][n - 1], last.error))
  {
    var out := IngressRun(engine, before, s, ns);
    var n := |out.calls|;
    IngressOrder(engine, before, s, ns);
    if n == 1 {
      assert before + out.calls[..0] == before;
    } else if n == 2 {
      assert out.calls[..1] == [out.calls[0]];
    } else {
      var certReq := CertificateRequestFor(s, ns.metadataName);
      var gwReq := GatewayRequestFor(s, ns.metadataName, engine(before, certReq).value.secretName);
      assert out.calls == [certReq, gwReq, VirtualServiceRequestFor(s, ns.metadataName)];
      assert out.calls[..2] == [certReq, gwReq];
    }
  }
}
