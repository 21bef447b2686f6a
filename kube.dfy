/** The argument trees handed to the infrastructure engine: Kubernetes object
    metadata, cert-manager certificates, Istio gateways and virtual services,
    and core/v1 services. Only the fields the core fills in are modelled. */
module Kube {
  import opened Wrappers

  type StringMap = map<string, string>

  /** Object metadata. An unset label or annotation map is the empty map. */
  datatype ObjectMeta = ObjectMeta(
    name: string,
    namespace: string,
    labels: StringMap,
    annotations: StringMap)

  /** A handle to an object the engine created, reduced to the properties
      the core reads from it: its assigned metadata name and labels, and
      (for a certificate) the name of the secret holding the issued key pair. */
  datatype Handle = Handle(
    metadataName: string,
    metadataLabels: StringMap,
    secretName: string)

  // cert-manager certificate

  datatype IssuerRef = IssuerRef(kind: string, name: string)

  datatype CertificateSpec = CertificateSpec(
    dnsNames: seq<string>,
    secretName: Option<string>,
    issuerRef: IssuerRef)

  datatype CertificateArgs = CertificateArgs(metadata: ObjectMeta, spec: CertificateSpec)

  // Istio gateway

  datatype ServerPort = ServerPort(number: int, name: string, protocol: string)

  datatype ServerTls = ServerTls(
    credentialName: Option<string>,
    mode: Option<string>,
    httpsRedirect: Option<bool>)

  datatype Server = Server(name: string, port: ServerPort, hosts: seq<string>, tls: ServerTls)

  datatype GatewaySpec = GatewaySpec(selector: StringMap, servers: seq<Server>)

  datatype GatewayArgs = GatewayArgs(metadata: ObjectMeta, spec: GatewaySpec)

  // Istio virtual service

  datatype Destination = Destination(host: string, portNumber: int)

  datatype HttpRoute = HttpRoute(name: string, route: seq<Destination>)

  datatype VirtualServiceSpec = VirtualServiceSpec(
    gateways: seq<string>,
    hosts: seq<string>,
    http: seq<HttpRoute>)

  datatype VirtualServiceArgs = VirtualServiceArgs(metadata: ObjectMeta, spec: VirtualServiceSpec)

  // core/v1 service

  datatype ServicePort = ServicePort(name: string, port: int, protocol: string, targetPort: string)

  datatype ServiceSpec = ServiceSpec(serviceType: string, ports: seq<ServicePort>, selector: StringMap)

  datatype ServiceArgs = ServiceArgs(metadata: ObjectMeta, spec: ServiceSpec)

  // resource options

  datatype CustomTimeouts = CustomTimeouts(create: string, update: string, delete: string)

  datatype ResourceOptions = ResourceOptions(timeouts: CustomTimeouts, parent: Handle)
}
