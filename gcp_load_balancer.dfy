/** The GCP load-balancer stage (pkg/redis/network/ingress/loadbalancer/gcp/
    resources.go): an external and then an internal LoadBalancer service for
    the Redis primary, both recorded in the provisioning context. */
module GcpLoadBalancer {
  import opened Wrappers
  import opened Kube
  import opened Pulumi
  import opened ContextState
  import Locals

  // Logical names of the two services (the shared load-balancer package).
  const ExternalLoadBalancerServiceName := "ingress-external-lb"
  const InternalLoadBalancerServiceName := "ingress-internal-lb"

  const EndpointDomainAnnotation := "planton.cloud/endpoint-domain-name"
  const HostnameAnnotation := "external-dns.alpha.kubernetes.io/hostname"
  const LoadBalancerTypeAnnotation := "cloud.google.com/load-balancer-type"

  const RedisPortNumber := 6379
  const ServiceTimeout := "30s"

  const CreateServiceFailure := "failed to create kubernetes service of type load balancer"
  const AddExternalFailure := "failed to add external load balancer"
  const AddInternalFailure := "failed to add internal load balancer"

  /** What the stage reads from the engine context: the created namespace and
      the hostnames and domain the services announce. */
  datatype Input = Input(
    namespace: Handle,
    externalHostname: string,
    internalHostname: string,
    endpointDomainName: string)

  /** The selector of both services. It names the instance "redis" whatever
      the resource id is. */
  function LoadBalancerSelector(): StringMap
  {
    map[
      "app.kubernetes.io/component" := "master",
      "app.kubernetes.io/instance" := "redis",
      "app.kubernetes.io/name" := "redis"]
  }

  /** A LoadBalancer service exposing the Redis port, announced under `hostname`. */
  function LoadBalancerServiceArgs(i: Input, serviceName: string, hostname: string): (a: ServiceArgs)
    ensures a.metadata.name == serviceName && a.metadata.namespace == i.namespace.metadataName
    ensures a.metadata.labels == map[]
    ensures a.metadata.annotations.Keys == {EndpointDomainAnnotation, HostnameAnnotation}
    ensures a.metadata.annotations[HostnameAnnotation] == hostname
    ensures a.metadata.annotations[EndpointDomainAnnotation] == i.endpointDomainName
    ensures a.spec.serviceType == "LoadBalancer"
    ensures a.spec.ports == [ServicePort("tcp-redis", 6379, "TCP", "redis")]
    ensures a.spec.selector == LoadBalancerSelector()
  {
    ServiceArgs(
      ObjectMeta(serviceName, i.namespace.metadataName, map[],
                 map[EndpointDomainAnnotation := i.endpointDomainName, HostnameAnnotation := hostname]),
      ServiceSpec("LoadBalancer", [ServicePort("tcp-redis", RedisPortNumber, "TCP", "redis")],
                  LoadBalancerSelector()))
  }

  /** The internal variant: the shared arguments with their metadata replaced
      by one carrying the namespace's labels and marking the balancer internal. */
  function InternalLoadBalancerServiceArgs(i: Input, hostname: string, namespace: Handle): (a: ServiceArgs)
    ensures a.spec == LoadBalancerServiceArgs(i, ExternalLoadBalancerServiceName, i.externalHostname).spec
    ensures a.metadata.name == InternalLoadBalancerServiceName
    ensures a.metadata.namespace == namespace.metadataName
    ensures a.metadata.labels == namespace.metadataLabels
    ensures a.metadata.annotations.Keys == {LoadBalancerTypeAnnotation, EndpointDomainAnnotation, HostnameAnnotation}
    ensures a.metadata.annotations[LoadBalancerTypeAnnotation] == "Internal"
    ensures a.metadata.annotations[HostnameAnnotation] == hostname
    ensures a.metadata.annotations[EndpointDomainAnnotation] == i.endpointDomainName
  {
    var resp := LoadBalancerServiceArgs(i, InternalLoadBalancerServiceName, hostname);
    resp.(metadata := ObjectMeta(
      InternalLoadBalancerServiceName, namespace.metadataName, namespace.metadataLabels,
      map[LoadBalancerTypeAnnotation := "Internal",
          EndpointDomainAnnotation := i.endpointDomainName,
          HostnameAnnotation := hostname]))
  }

  /** Both services time out after 30s on create, update and delete, and are
      children of the namespace. */
  function ServiceOptions(i: Input): ResourceOptions
  {
    ResourceOptions(CustomTimeouts(ServiceTimeout, ServiceTimeout, ServiceTimeout), i.namespace)
  }

  function ExternalServiceRequest(i: Input): Request
  {
    ServiceRequest(ExternalLoadBalancerServiceName,
                   LoadBalancerServiceArgs(i, ExternalLoadBalancerServiceName, i.externalHostname),
                   ServiceOptions(i))
  }

  function InternalServiceRequest(i: Input): Request
  {
    ServiceRequest(InternalLoadBalancerServiceName,
                   InternalLoadBalancerServiceArgs(i, i.internalHostname, i.namespace),
                   ServiceOptions(i))
  }

  /** Creates the external service; an engine error comes back wrapped. */
  method AddExternal(ctx: Context, i: Input) returns (r: Result<Handle>)
    modifies ctx
    ensures ctx.log == old(ctx.log) + [ExternalServiceRequest(i)] && ctx.exports == old(ctx.exports)
    ensures var verdict := ctx.engine(old(ctx.log), ExternalServiceRequest(i));
      r == if verdict.Ok? then verdict else Err(Wrapped(CreateServiceFailure, verdict.error))
  {
    var added := ctx.Register(ExternalServiceRequest(i));
    if added.Err? {
      return Err(Wrapped(CreateServiceFailure, added.error));
    }
    return added;
  }

  /** Creates the internal service; an engine error comes back wrapped. */
  method AddInternal(ctx: Context, i: Input) returns (r: Result<Handle>)
    modifies ctx
    ensures ctx.log == old(ctx.log) + [InternalServiceRequest(i)] && ctx.exports == old(ctx.exports)
    ensures var verdict := ctx.engine(old(ctx.log), InternalServiceRequest(i));
      r == if verdict.Ok? then verdict else Err(Wrapped(CreateServiceFailure, verdict.error))
  {
    var added := ctx.Register(InternalServiceRequest(i));
    if added.Err? {
      return Err(Wrapped(CreateServiceFailure, added.error));
    }
    return added;
  }

  /** Records the external service; a missing record is created holding
      only it, an existing one changes in that field alone. */
  function AddLoadBalancerExternalServiceToContext(st: ContextState, svc: Handle): (r: ContextState)
    ensures r.status.addedResources.Some?
    ensures r.status.addedResources.value.loadBalancerExternalService == Some(svc)
    ensures st.status.addedResources.None? ==>
      r.status.addedResources.value == NoResources.(loadBalancerExternalService := Some(svc))
    ensures st.status.addedResources.Some? ==>
      && r.status.addedResources.value.namespace == st.status.addedResources.value.namespace
      && r.status.addedResources.value.loadBalancerInternalService == st.status.addedResources.value.loadBalancerInternalService
  {
    match st.status.addedResources
    case None => st.(status := st.status.(addedResources := Some(AddedResources(None, Some(svc), None))))
    case Some(added) => st.(status := st.status.(addedResources := Some(added.(loadBalancerExternalService := Some(svc)))))
  }

  /** Records the internal service; a missing record is created holding
      only it, an existing one changes in that field alone. */
  function AddLoadBalancerInternalServiceToContext(st: ContextState, svc: Handle): (r: ContextState)
    ensures r.status.addedResources.Some?
    ensures r.status.addedResources.value.loadBalancerInternalService == Some(svc)
    ensures st.status.addedResources.None? ==>
      r.status.addedResources.value == NoResources.(loadBalancerInternalService := Some(svc))
    ensures st.status.addedResources.Some? ==>
      && r.status.addedResources.value.namespace == st.status.addedResources.value.namespace
      && r.status.addedResources.value.loadBalancerExternalService == st.status.addedResources.value.loadBalancerExternalService
  {
    match st.status.addedResources
    case None => st.(status := st.status.(addedResources := Some(AddedResources(None, None, Some(svc)))))
    case Some(added) => st.(status := st.status.(addedResources := Some(added.(loadBalancerInternalService := Some(svc)))))
  }

  /** What the stage did: the registrations it attempted, in order, and the
      context state it returned or the error. */
  datatype LoadBalancerOutcome = LoadBalancerOutcome(calls: seq<Request>, result: Result<ContextState>)

  /** The stage against an engine whose earlier registrations are `before`,
      with `st` the context state stored under the stage's key. */
  function ResourcesRun(engine: Oracle, before: seq<Request>, i: Input, st: ContextState): LoadBalancerOutcome
  {
    var extReq := ExternalServiceRequest(i);
    match engine(before, extReq)
    case Err(e) =>
      LoadBalancerOutcome([extReq], Err(Wrapped(AddExternalFailure, Wrapped(CreateServiceFailure, e))))
    case Ok(external) =>
      var intReq := InternalServiceRequest(i);
      match engine(before + [extReq], intReq)
      case Err(e) =>
        LoadBalancerOutcome([extReq, intReq], Err(Wrapped(AddInternalFailure, Wrapped(CreateServiceFailure, e))))
      case Ok(internal) =>
        LoadBalancerOutcome([extReq, intReq],
          Ok(AddLoadBalancerInternalServiceToContext(AddLoadBalancerExternalServiceToContext(st, external), internal)))
  }

  /** Creates the external service, then the internal one, then records both
      in the context state; the first failure is wrapped and returned, and
      the state is then left as it was. */
  method Resources(ctx: Context, i: Input, st: ContextState) returns (r: Result<ContextState>)
    modifies ctx
    ensures var out := ResourcesRun(ctx.engine, old(ctx.log), i, st);
      ctx.log == old(ctx.log) + out.calls && r == out.result
    ensures ctx.exports == old(ctx.exports)
  {
    ghost var before := ctx.log;
    var external := AddExternal(ctx, i);
    if external.Err? {
      return Err(Wrapped(AddExternalFailure, external.error));
    }
    var internal := AddInternal(ctx, i);
    if internal.Err? {
      return Err(Wrapped(AddInternalFailure, internal.error));
    }
    var contextState := st;
    contextState := AddLoadBalancerExternalServiceToContext(contextState, external.value);
    contextState := AddLoadBalancerInternalServiceToContext(contextState, internal.value);
    return Ok(contextState);
  }

  // Properties of the stage

  /** The external service is attempted first; the internal one is
      attempted exactly when the external one was created. */
  lemma ResourcesOrder(engine: Oracle, before: seq<Request>, i: Input, st: ContextState)
    ensures var out := ResourcesRun(engine, before, i, st);
      && 1 <= |out.calls| <= 2
      && out.calls[0] == ExternalServiceRequest(i)
      && (|out.calls| == 2 <==> engine(before, ExternalServiceRequest(i)).Ok?)
      && (|out.calls| == 2 ==> out.calls[1] == InternalServiceRequest(i))
  {
  }

  /** Failure of either creation yields one error naming the failed service,
      wrapping the engine's error; success records both handles and keeps
      every other field of an existing record. */
  lemma ResourcesResult(engine: Oracle, before: seq<Request>, i: Input, st: ContextState)
    ensures var out := ResourcesRun(engine, before, i, st);
      var ext := engine(before, ExternalServiceRequest(i));
      var intl := engine(before + [ExternalServiceRequest(i)], InternalServiceRequest(i));
      && (ext.Err? ==> out.result == Err(Wrapped(AddExternalFailure, Wrapped(CreateServiceFailure, ext.error))))
      && (ext.Ok? && intl.Err? ==> out.result == Err(Wrapped(AddInternalFailure, Wrapped(CreateServiceFailure, intl.error))))
      && (out.result.Ok? <==> ext.Ok? && intl.Ok?)
      && (out.result.Ok? ==>
            var added := out.result.value.status.addedResources;
            && added.Some?
            && added.value.loadBalancerExternalService == Some(ext.value)
            && added.value.loadBalancerInternalService == Some(intl.value)
            && (st.status.addedResources.Some? ==> added.value.namespace == st.status.addedResources.value.namespace)
            && (st.status.addedResources.None? ==> added.value.namespace.None?))
  {
  }

  /** Recording the two services does not depend on the order. */
  lemma AddServicesCommute(st: ContextState, external: Handle, internal: Handle)
    ensures AddLoadBalancerInternalServiceToContext(AddLoadBalancerExternalServiceToContext(st, external), internal)
         == AddLoadBalancerExternalServiceToContext(AddLoadBalancerInternalServiceToContext(st, internal), external)
  {
  }

  /** Recording the same service twice is the same as recording it once. */
  lemma AddServiceIdempotent(st: ContextState, svc: Handle)
    ensures var once := AddLoadBalancerExternalServiceToContext(st, svc);
      AddLoadBalancerExternalServiceToContext(once, svc) == once
    ensures var once := AddLoadBalancerInternalServiceToContext(st, svc);
      AddLoadBalancerInternalServiceToContext(once, svc) == once
  {
  }

  /** The two services differ only in name, metadata and hostname: their
      specs, and so their port, type and selector, are the same. */
  lemma SharedServiceSpec(i: Input)
    ensures ExternalServiceRequest(i).service.spec == InternalServiceRequest(i).service.spec
    ensures ExternalServiceRequest(i).options == InternalServiceRequest(i).options
    ensures ExternalServiceRequest(i).options.timeouts == CustomTimeouts("30s", "30s", "30s")
    ensures ExternalServiceRequest(i).options.parent == i.namespace
  {
  }

  /** The services select the primary pod of the deployment `id` exactly
      when the id is "redis": the selector does not follow the resource id. */
  lemma SelectorMatchesPodsIff(id: string)
    ensures LoadBalancerSelector() == Locals.PodSelectorLabels(id) <==> id == "redis"
  {
    if LoadBalancerSelector() == Locals.PodSelectorLabels(id) {
      assert LoadBalancerSelector()[Locals.InstanceLabel] == Locals.PodSelectorLabels(id)[Locals.InstanceLabel];
    }
  }
}
