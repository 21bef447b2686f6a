/** The infrastructure engine's context, seen from the core: it registers
    resources and records stack outputs. What the engine does with a
    registration is not modelled; its verdict on each one is an oracle. */
module Pulumi {
  import opened Wrappers
  import opened Kube

  /** One resource registration, with the logical resource name and the
      argument tree passed to the engine. */
  datatype Request =
    | CertificateRequest(resourceName: string, certificate: CertificateArgs)
    | GatewayRequest(resourceName: string, gateway: GatewayArgs)
    | VirtualServiceRequest(resourceName: string, virtualService: VirtualServiceArgs)
    | ServiceRequest(resourceName: string, service: ServiceArgs, options: ResourceOptions)

  /** The stack outputs the module exports. */
  datatype OutputKey =
    | Namespace
    | Service
    | KubeEndpoint
    | KubePortForwardCommand
    | IngressExternalHostname
    | IngressInternalHostname

  datatype StackOutput = StackOutput(key: OutputKey, value: string)

  /** The engine's verdict on a registration, given every registration made
      before it: a handle to the created object, or the engine's error. */
  type Oracle = (seq<Request>, Request) -> Result<Handle>

  class Context {
    const engine: Oracle
    /** Every registration attempted so far, in order. */
    var log: seq<Request>
    /** Every stack output exported so far, in order. */
    var exports: seq<StackOutput>

    constructor (engine: Oracle)
      ensures this.engine == engine && log == [] && exports == []
    {
      this.engine := engine;
      log := [];
      exports := [];
    }

    /** Registers a resource; the attempt is logged whatever the verdict. */
    method Register(req: Request) returns (r: Result<Handle>)
      modifies this
      ensures log == old(log) + [req] && exports == old(exports)
      ensures r == engine(old(log), req)
    {
      r := engine(log, req);
      log := log + [req];
    }

    /** Records a stack output. */
    method Export(key: OutputKey, value: string)
      modifies this
      ensures exports == old(exports) + [StackOutput(key, value)] && log == old(log)
    {
      exports := exports + [StackOutput(key, value)];
    }
  }
}
