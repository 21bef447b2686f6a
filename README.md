# Redis on Kubernetes provisioning module: verified model of its core

This project models the core of a Pulumi module that provisions Redis onto a
Kubernetes cluster from a `RedisKubernetes` API resource, in Dafny. The model covers three parts:

- **Locals derivation** (`pkg/locals.go`): the namespace, the service name, the in-cluster FQDN, the
  port-forward command, the label sets and, when ingress is enabled with a
  domain, the two ingress hostnames. The namespace, service name, FQDN and
  port-forward command are exported as stack outputs in that order, and then,
  when set, the two hostnames. The label sets are not exported.
- **Istio ingress stage** (`pkg/istio_ingress.go`): a cert-manager certificate for the two
  hostnames, then an Istio gateway that terminates TLS with the certificate's
  secret, then a virtual service routing both hostnames to Redis. These run in strict
  order, and each failure is wrapped and aborts the rest.
- **GCP load-balancer stage**
  (`pkg/redis/network/ingress/loadbalancer/gcp/resources.go`): an external
  and then an internal `LoadBalancer` service, with both handles recorded in
  the provisioning context's `AddedResources`.

The infrastructure engine is the class `Pulumi.Context`. It holds an oracle
`engine(earlier registrations, request)` that returns a handle or an error. It
also keeps a log of every registration attempted and the list of exported outputs.
Each stage is a method over that context. Each method is proved equal to a pure
specification function: `Locals.Derive`/`Locals.DerivedExports`,
`IstioIngress.IngressRun` and `GcpLoadBalancer.ResourcesRun`. The lemmas
state what the source promises about those functions. `Text.Split`
and `Text.Join` (with both round trips proved) are used to state what the
derived names are made of.

Modules: `Wrappers` (Option, Result, wrapped errors), `Api` (the input
resource), `Kube` (argument trees and handles), `Pulumi` (the engine
context), `Text`, `Locals`, `IstioIngress`, `ContextState`,
`GcpLoadBalancer`.

## Model

| member | source | states |
|---|---|---|
| `Locals.InitializeLocals` | pkg/locals.go:25-85 | The result and the exports are a function of the input alone: the Locals equal `Derive(input)` and the exports appended are `DerivedExports(input)`. No resource is registered. |
| `Locals.ResourceLabelsShape` | pkg/locals.go:33-39 | The label set has exactly five keys: environment and organization from the environment info, resource `"true"`, resource-id the resource id, and resource-kind `redis_kubernetes`. |
| `Locals.PodSelectorShape` | pkg/locals.go:46-50 | The pod selector has exactly the keys component `master`, instance = the resource id, and name `redis`. |
| `Locals.ServiceNameInjective` | pkg/locals.go:52 | Different display names give different service names. |
| `Locals.DerivedNames` | pkg/locals.go:41-60 | For a DNS-label id and name: the namespace is the id verbatim, the service is `<name>-master`, and the FQDN's DNS labels are exactly service, namespace, `svc`, `cluster`, `local`. |
| `Locals.PortForwardJoin` | pkg/locals.go:62-63 | The port-forward command is its six words joined by single spaces. |
| `Locals.PortForwardWords` | pkg/locals.go:62-63 | With namespace and service free of spaces, the command splits into exactly `kubectl port-forward -n <ns> service/<svc> 8080:8080`. |
| `Locals.IngressHostnames` | pkg/locals.go:68-78 | Each ingress hostname is non-empty exactly when ingress is present, enabled and has a non-empty domain. When set, the external one is `<id>.<domain>`, the internal one is `<id>-internal.<domain>`, and the two differ. |
| `Locals.IngressHostnameLabels` | pkg/locals.go:74-78 | For a DNS-label id, the external hostname's labels are the id followed by the domain's labels. The internal one's are `<id>-internal` followed by the domain's labels. |
| `Locals.ExportSequence` | pkg/locals.go:44-82 | The exports are, in order, namespace, service, endpoint and port-forward command, followed by the external and internal hostnames only when the gate is open: 4 or 6 outputs. Each carries the Locals field of the same name. |
| `IstioIngress.IngressHosts` | pkg/istio_ingress.go:28-31 | The ingress hosts are exactly two names, and they are distinct (their order is stated by `CertificateShape`). |
| `IstioIngress.CertificateShape` | pkg/istio_ingress.go:27-43 | The certificate's DNS names are exactly `[<id>.<domain>, <id>-internal.<domain>]`. The issuer is kind `ClusterIssuer`, named after the domain. No secret name is requested. |
| `IstioIngress.GatewayShape` | pkg/istio_ingress.go:58-100 | The selector is exactly {app: istio-ingress, istio: ingress}. There are exactly two servers: HTTPS on 443 in SIMPLE TLS mode with the given credential, and HTTP on 80 with HTTPS redirect. Both list exactly the certificate's DNS names. |
| `IstioIngress.VirtualServiceShape` | pkg/istio_ingress.go:115-137 | The virtual service names gateway `istio-ingress/<id>` and lists the certificate's DNS names as hosts. It has one route, to `<name>.<ns>.svc.cluster.local.` on port 8080. |
| `IstioIngress.SharedMetadata` | pkg/istio_ingress.go:22-26 | All three objects are named after the id, placed in the created namespace and labelled with the stack's labels. |
| `IstioIngress.RouteMissesServiceFqdn` | pkg/istio_ingress.go:132-134 | The route destination is never the exported service FQDN plus a trailing dot: it uses the display name without `-master`. |
| `IstioIngress.CreateIstioIngress` | pkg/istio_ingress.go:17-150 | The registrations made and the error returned are those of `IngressRun` on the engine's earlier log. No output is exported. |
| `IstioIngress.IngressOrder` | pkg/istio_ingress.go:19-145 | The stage makes 1 to 3 calls, and the certificate is always first. The gateway is attempted only after the certificate succeeded, with that certificate's secret as its credential. The virtual service is attempted only after the gateway succeeded. |
| `IstioIngress.IngressErrors` | pkg/istio_ingress.go:46-149 | The stage returns nil exactly when the three creations succeeded. Otherwise it returns the last attempted call's engine error, wrapped with `error creating certificate`, `error creating gateway` or `error creating virtual-service`. |
| `GcpLoadBalancer.LoadBalancerServiceArgs` | pkg/redis/network/ingress/loadbalancer/gcp/resources.go:71-96 | The service has type `LoadBalancer` and the single port `tcp-redis` 6379/TCP targeting `redis`. Its selector is fixed, with instance `redis`. Its metadata has no labels and exactly the endpoint-domain and external-dns hostname annotations. |
| `GcpLoadBalancer.InternalLoadBalancerServiceArgs` | pkg/redis/network/ingress/loadbalancer/gcp/resources.go:56-69 | The spec is identical to the external service's. The metadata is replaced: the internal name, the namespace's name and labels, and exactly three annotations, with load-balancer-type `Internal`. |
| `GcpLoadBalancer.AddExternal` | pkg/redis/network/ingress/loadbalancer/gcp/resources.go:32-42 | Registers exactly the external service request, with 30s timeouts and the namespace as parent. It returns the handle, or the engine error wrapped with the create-service message. |
| `GcpLoadBalancer.AddInternal` | pkg/redis/network/ingress/loadbalancer/gcp/resources.go:44-54 | The same as `AddExternal`, for the internal service request. |
| `GcpLoadBalancer.AddLoadBalancerExternalServiceToContext` | pkg/redis/network/ingress/loadbalancer/gcp/resources.go:98-106 | Afterwards the record exists and holds the external service. A missing record is created with only that field set. In an existing record every other field is unchanged. |
| `GcpLoadBalancer.AddLoadBalancerInternalServiceToContext` | pkg/redis/network/ingress/loadbalancer/gcp/resources.go:108-116 | The same for the internal-service field. |
| `GcpLoadBalancer.Resources` | pkg/redis/network/ingress/loadbalancer/gcp/resources.go:12-30 | The registrations made and the result are those of `ResourcesRun` on the engine's earlier log. No output is exported. |
| `GcpLoadBalancer.ResourcesOrder` | pkg/redis/network/ingress/loadbalancer/gcp/resources.go:14-21 | The external service is attempted first. The internal one is attempted exactly when the external one was created. |
| `GcpLoadBalancer.ResourcesResult` | pkg/redis/network/ingress/loadbalancer/gcp/resources.go:14-29 | An external failure gives `failed to add external load balancer` and an internal failure gives `failed to add internal load balancer`, each wrapping the create error, and no state is returned. A state is returned exactly when both creations succeeded. It then holds both handles and keeps the other fields. |
| `GcpLoadBalancer.AddServicesCommute` | pkg/redis/network/ingress/loadbalancer/gcp/resources.go:25-26 | Recording the external and the internal service gives the same state in either order. |
| `GcpLoadBalancer.AddServiceIdempotent` | pkg/redis/network/ingress/loadbalancer/gcp/resources.go:98-116 | Recording the same service twice equals recording it once. |
| `GcpLoadBalancer.SharedServiceSpec` | pkg/redis/network/ingress/loadbalancer/gcp/resources.go:36-37 | The two requests carry the same service spec and the same options: 30s create, update and delete timeouts, parented to the namespace. |
| `GcpLoadBalancer.SelectorMatchesPodsIff` | pkg/redis/network/ingress/loadbalancer/gcp/resources.go:89-93 | The load-balancer selector equals the locals' pod selector exactly when the resource id is `redis`. |

## Left out

- The engine's own behaviour: resource diffing, creation, timeouts and concurrency. Each registration's outcome is an oracle of the earlier registrations and the request. Outputs such as a namespace's name or a certificate's secret name are plain strings on the handle.
- pkg/helm_chart.go, the namespace stage and the orchestrator that sequences the stages are not part of this model. The chart values depend on converters and a `vars` package outside this model.
- The `kuberneteslabelkeys`, `apiresourcekind`, `outputs`, load-balancer `common` and `contextstate` packages are not part of this model. Their label keys, kind name and service names are written as the strings `planton.cloud/environment`, `planton.cloud/organization`, `planton.cloud/resource`, `planton.cloud/resource-id`, `planton.cloud/resource-kind`, `redis_kubernetes`, `ingress-external-lb` and `ingress-internal-lb`. No property depends on their text, only on the five label keys being distinct. Output keys are an enumeration.
- `AddedResources` keeps only the namespace field besides the two load-balancer fields. The namespace field stands for every other field of the real record.
- `extractInput` (elsewhere in the load-balancer package) is not modelled; its result is the `GcpLoadBalancer.Input` parameter. `ctx.Value`/`ctx.WithValue` become the state parameter and the returned state. The panic on a missing state cannot happen, because the state is always given.
- Pointer aliasing of `AddedResources`: the nil-check-then-set helpers are record updates that return the new state.
- Error text: `errors.Wrap` chains are `Wrapped(message, cause)` values. The concatenated message string is not built.
- Unset labels or annotations are the empty map. nil and empty are not distinguished.
- The Istio TLS mode enum is the constant `SIMPLE`. The gateway's credential is read from the certificate handle.
- `Locals.InitializeLocals`: a nil `ApiResource`, `Metadata`, `Spec` or `EnvironmentInfo` makes the source panic at pkg/locals.go:34-52; in the model these are plain datatypes, so that panic cannot occur. The input is assumed structurally valid.
- `IstioIngress.CreateIstioIngress` requires the ingress section to be present, because the source dereferences it unguarded. A nil section would panic there.
