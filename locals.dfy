/** The values derived once from the API resource and shared by every later
    stage (pkg/locals.go), and the stack outputs exported while deriving them. */
module Locals {
  import opened Wrappers
  import opened Kube
  import opened Api
  import opened Pulumi
  import opened Text

  // Keys of the resource label set (the kuberneteslabelkeys package).
  const EnvironmentLabel := "planton.cloud/environment"
  const OrganizationLabel := "planton.cloud/organization"
  const ResourceLabel := "planton.cloud/resource"
  const ResourceIdLabel := "planton.cloud/resource-id"
  const ResourceKindLabel := "planton.cloud/resource-kind"
  /** The API resource kind's enum name. */
  const RedisKubernetesKind := "redis_kubernetes"

  // Keys of the pod selector set (the Bitnami chart's standard labels).
  const ComponentLabel := "app.kubernetes.io/component"
  const InstanceLabel := "app.kubernetes.io/instance"
  const NameLabel := "app.kubernetes.io/name"

  /** The Locals struct. Its zero value has empty strings, a nil resource and
      nil maps; the hostnames keep that zero value unless ingress is on. */
  datatype Locals = Locals(
    ingressExternalHostname: string,
    ingressInternalHostname: string,
    kubePortForwardCommand: string,
    kubeServiceFqdn: string,
    kubeServiceName: string,
    namespace: string,
    redisKubernetes: Option<RedisKubernetes>,
    redisPodSelectorLabels: StringMap,
    labels: StringMap)

  const ZeroLocals := Locals("", "", "", "", "", "", None, map[], map[])

  /** The label set every object of the deployment carries. */
  function ResourceLabels(r: RedisKubernetes): StringMap
  {
    map[
      EnvironmentLabel := r.spec.environmentInfo.envId,
      OrganizationLabel := r.spec.environmentInfo.orgId,
      ResourceLabel := "true",
      ResourceIdLabel := r.metadata.id,
      ResourceKindLabel := RedisKubernetesKind]
  }

  /** The labels selecting the primary Redis pod of the deployment `id`. */
  function PodSelectorLabels(id: string): StringMap
  {
    map[ComponentLabel := "master", InstanceLabel := id, NameLabel := "redis"]
  }

  /** The Kubernetes service name of the primary, derived from the display name. */
  function ServiceName(name: string): string
  {
    name + "-master"
  }

  /** The in-cluster DNS name of service `svc` in namespace `ns`. */
  function ServiceFqdn(svc: string, ns: string): string
  {
    svc + "." + ns + ".svc.cluster.local"
  }

  /** The command that forwards local port 8080 to the service. */
  function PortForwardCommand(ns: string, svc: string): string
  {
    "kubectl port-forward -n " + ns + " service/" + svc + " 8080:8080"
  }

  function ExternalHostname(id: string, domain: string): string
  {
    id + "." + domain
  }

  function InternalHostname(id: string, domain: string): string
  {
    id + "-internal." + domain
  }

  /** Ingress hostnames are derived only when ingress is present, enabled,
      and names a domain. */
  predicate IngressGate(r: RedisKubernetes)
  {
    r.spec.ingress.Some? && r.spec.ingress.value.isEnabled && r.spec.ingress.value.endpointDomainName != ""
  }

  /** The Locals that initialisation produces for `input`. */
  function Derive(input: StackInput): Locals
  {
    var r := input.apiResource;
    var ns := r.metadata.id;
    var svc := ServiceName(r.metadata.name);
    var base := Locals("", "", PortForwardCommand(ns, svc), ServiceFqdn(svc, ns), svc, ns,
                       Some(r), PodSelectorLabels(r.metadata.id), ResourceLabels(r));
    if IngressGate(r) then
      var domain := r.spec.ingress.value.endpointDomainName;
      base.(ingressExternalHostname := ExternalHostname(r.metadata.id, domain),
            ingressInternalHostname := InternalHostname(r.metadata.id, domain))
    else
      base
  }

  /** The stack outputs that initialisation exports for `input`, in order. */
  function DerivedExports(input: StackInput): seq<StackOutput>
  {
    var l := Derive(input);
    var base := [
      StackOutput(Namespace, l.namespace),
      StackOutput(Service, l.kubeServiceName),
      StackOutput(KubeEndpoint, l.kubeServiceFqdn),
      StackOutput(KubePortForwardCommand, l.kubePortForwardCommand)];
    if IngressGate(input.apiResource) then
      base + [StackOutput(IngressExternalHostname, l.ingressExternalHostname),
              StackOutput(IngressInternalHostname, l.ingressInternalHostname)]
    else
      base
  }

  /** Fills a fresh Locals field by field, exporting each output as soon as
      its value is known; returns early when the ingress gate is closed.
      The result and the exports depend on the input alone. */
  method InitializeLocals(ctx: Context, input: StackInput) returns (locals: Locals)
    modifies ctx
    ensures locals == Derive(input)
    ensures ctx.exports == old(ctx.exports) + DerivedExports(input)
    ensures ctx.log == old(ctx.log)
  {
    locals := ZeroLocals;
    var r := input.apiResource;
    locals := locals.(redisKubernetes := Some(r));
    locals := locals.(labels := ResourceLabels(r));

    locals := locals.(namespace := r.metadata.id);
    ctx.Export(Namespace, locals.namespace);

    locals := locals.(redisPodSelectorLabels := PodSelectorLabels(r.metadata.id));

    locals := locals.(kubeServiceName := ServiceName(r.metadata.name));
    ctx.Export(Service, locals.kubeServiceName);

    locals := locals.(kubeServiceFqdn := ServiceFqdn(locals.kubeServiceName, locals.namespace));
    ctx.Export(KubeEndpoint, locals.kubeServiceFqdn);

    locals := locals.(kubePortForwardCommand := PortForwardCommand(locals.namespace, locals.kubeServiceName));
    ctx.Export(KubePortForwardCommand, locals.kubePortForwardCommand);

    if r.spec.ingress.None? || !r.spec.ingress.value.isEnabled || r.spec.ingress.value.endpointDomainName == "" {
      return;
    }

    var domain := r.spec.ingress.value.endpointDomainName;
    locals := locals.(ingressExternalHostname := ExternalHostname(r.metadata.id, domain));
    locals := locals.(ingressInternalHostname := InternalHostname(r.metadata.id, domain));

    ctx.Export(IngressExternalHostname, locals.ingressExternalHostname);
    ctx.Export(IngressInternalHostname, locals.ingressInternalHostname);
  }

  // Properties of the derivation

  /** The label set has exactly the five resource keys with the stated values. */
  lemma ResourceLabelsShape(r: RedisKubernetes)
    ensures ResourceLabels(r).Keys == {EnvironmentLabel, OrganizationLabel, ResourceLabel, ResourceIdLabel, ResourceKindLabel}
    ensures |ResourceLabels(r)| == 5
    ensures ResourceLabels(r)[ResourceIdLabel] == r.metadata.id
    ensures ResourceLabels(r)[ResourceLabel] == "true"
    ensures ResourceLabels(r)[EnvironmentLabel] == r.spec.environmentInfo.envId
    ensures ResourceLabels(r)[OrganizationLabel] == r.spec.environmentInfo.orgId
    ensures ResourceLabels(r)[ResourceKindLabel] == RedisKubernetesKind
  {
    var keys := {EnvironmentLabel, OrganizationLabel, ResourceLabel, ResourceIdLabel, ResourceKindLabel};
    assert ResourceLabels(r).Keys == keys;
    assert EnvironmentLabel != OrganizationLabel && ResourceLabel != ResourceIdLabel;
    assert |keys| == 5;
  }

  /** The pod selector has exactly the component, instance and name keys,
      and selects the instance named after the resource id. */
  lemma PodSelectorShape(id: string)
    ensures PodSelectorLabels(id).Keys == {ComponentLabel, InstanceLabel, NameLabel}
    ensures |PodSelectorLabels(id)| == 3
    ensures PodSelectorLabels(id)[ComponentLabel] == "master"
    ensures PodSelectorLabels(id)[InstanceLabel] == id
    ensures PodSelectorLabels(id)[NameLabel] == "redis"
  {
    var keys := {ComponentLabel, InstanceLabel, NameLabel};
    assert PodSelectorLabels(id).Keys == keys;
    assert |keys| == 3;
  }

  /** Different display names give different service names. */
  lemma ServiceNameInjective(a: string, b: string)
    requires ServiceName(a) == ServiceName(b)
    ensures a == b
  {
    assert |a| == |b|;
    assert a == ServiceName(a)[..|a|];
    assert b == ServiceName(b)[..|b|];
  }

  /** With DNS-label identity and name, the derived names are made of the
      intended parts: the namespace is the id, the FQDN's labels are the
      service name, the namespace and "svc.cluster.local", and the service
      name is the display name with "-master" appended. */
  lemma DerivedNames(input: StackInput)
    requires IsDnsLabel(input.apiResource.metadata.id) && IsDnsLabel(input.apiResource.metadata.name)
    ensures var l := Derive(input);
      && l.namespace == input.apiResource.metadata.id
      && l.kubeServiceName == input.apiResource.metadata.name + "-master"
      && Split(l.kubeServiceFqdn, '.') == [l.kubeServiceName, l.namespace, "svc", "cluster", "local"]
  {
    var r := input.apiResource;
    var ns, svc := r.metadata.id, ServiceName(r.metadata.name);
    DnsLabelSeparators(r.metadata.id);
    DnsLabelSeparators(r.metadata.name);
    var parts := [svc, ns, "svc", "cluster", "local"];
    assert Separable(parts, '.') by {
      assert '.' !in svc by {
        forall i | 0 <= i < |svc| ensures svc[i] != '.' {
          if i < |r.metadata.name| { assert svc[i] == r.metadata.name[i]; }
        }
      }
    }
    calc {
      Join(parts, '.');
      svc + "." + Join([ns, "svc", "cluster", "local"], '.');
      svc + "." + (ns + "." + Join(["svc", "cluster", "local"], '.'));
      { assert Join(["svc", "cluster", "local"], '.') == "svc.cluster.local"; }
      svc + "." + (ns + "." + "svc.cluster.local");
      ServiceFqdn(svc, ns);
    }
    SplitJoin(parts, '.');
  }

  /** The port-forward command is its six words joined with spaces. */
  lemma PortForwardJoin(ns: string, svc: string)
    ensures Join(["kubectl", "port-forward", "-n", ns, "service/" + svc, "8080:8080"], ' ') == PortForwardCommand(ns, svc)
  {
    var t3 := ["service/" + svc] + ["8080:8080"];
    var t2 := [ns] + t3;
    var t1 := ["-n"] + t2;
    var t0 := ["port-forward"] + t1;
    JoinCons("service/" + svc, ["8080:8080"], ' ');
    JoinCons(ns, t3, ' ');
    JoinCons("-n", t2, ' ');
    JoinCons("port-forward", t1, ' ');
    JoinCons("kubectl", t0, ' ');
    assert ["kubectl", "port-forward", "-n", ns, "service/" + svc, "8080:8080"] == ["kubectl"] + t0;
    var rest := Join(t2, ' ');
    assert rest == ns + [' '] + ("service/" + svc + [' '] + "8080:8080");
    var head := "kubectl" + [' '] + ("port-forward" + [' '] + ("-n" + [' ']));
    assert head == "kubectl port-forward -n ";
    assert Join(["kubectl"] + t0, ' ') == head + rest;
    assert [' '] + "service/" == " service/";
    assert [' '] + "8080:8080" == " 8080:8080";
  }

  /** With namespace and service free of spaces, the port-forward command is
      exactly the intended six words. */
  lemma PortForwardWords(ns: string, svc: string)
    requires ' ' !in ns && ' ' !in svc
    ensures Split(PortForwardCommand(ns, svc), ' ') == ["kubectl", "port-forward", "-n", ns, "service/" + svc, "8080:8080"]
  {
    var words := ["kubectl", "port-forward", "-n", ns, "service/" + svc, "8080:8080"];
    assert Separable(words, ' ') by {
      assert ' ' !in "service/" + svc by {
        forall i | 0 <= i < |"service/" + svc| ensures ("service/" + svc)[i] != ' ' {
          if i >= 8 { assert ("service/" + svc)[i] == svc[i - 8]; }
        }
      }
    }
    PortForwardJoin(ns, svc);
    SplitJoin(words, ' ');
  }

  /** Ingress hostnames are set exactly when the ingress gate is open, and
      then the external one is the id under the domain and the internal one
      is "<id>-internal" under the domain; the two always differ. */
  lemma IngressHostnames(input: StackInput)
    ensures var l := Derive(input); var r := input.apiResource;
      && (l.ingressExternalHostname != "" <==> IngressGate(r))
      && (l.ingressInternalHostname != "" <==> IngressGate(r))
      && (IngressGate(r) ==>
            && l.ingressExternalHostname == ExternalHostname(r.metadata.id, r.spec.ingress.value.endpointDomainName)
            && l.ingressInternalHostname == InternalHostname(r.metadata.id, r.spec.ingress.value.endpointDomainName)
            && l.ingressExternalHostname != l.ingressInternalHostname)
  {
  }

  /** With a DNS-label id, the DNS labels of the two ingress hostnames are
      the id (or "<id>-internal") followed by the domain's own labels. */
  lemma IngressHostnameLabels(id: string, domain: string)
    requires IsDnsLabel(id)
    ensures Split(ExternalHostname(id, domain), '.') == [id] + Split(domain, '.')
    ensures Split(InternalHostname(id, domain), '.') == [id + "-internal"] + Split(domain, '.')
  {
    DnsLabelSeparators(id);
    var internal := id + "-internal";
    assert '.' !in internal by {
      forall i | 0 <= i < |internal| ensures internal[i] != '.' {
        if i < |id| { assert internal[i] == id[i]; }
      }
    }
    assert ExternalHostname(id, domain) == id + ['.'] + domain;
    assert InternalHostname(id, domain) == internal + ['.'] + domain;
    SplitAfterWord(id, domain, '.');
    SplitAfterWord(internal, domain, '.');
  }

  /** The exports: the four base outputs in the order namespace, service,
      endpoint, port-forward command, then, only when the gate is open, the
      external and internal hostnames; each carries the Locals field of the
      same name. */
  lemma ExportSequence(input: StackInput)
    ensures var e := DerivedExports(input); var l := Derive(input);
      && |e| == (if IngressGate(input.apiResource) then 6 else 4)
      && e[0] == StackOutput(Namespace, l.namespace)
      && e[1] == StackOutput(Service, l.kubeServiceName)
      && e[2] == StackOutput(KubeEndpoint, l.kubeServiceFqdn)
      && e[3] == StackOutput(KubePortForwardCommand, l.kubePortForwardCommand)
      && (|e| == 6 ==>
            && e[4] == StackOutput(IngressExternalHostname, l.ingressExternalHostname)
            && e[5] == StackOutput(IngressInternalHostname, l.ingressInternalHostname))
  {
  }
}
