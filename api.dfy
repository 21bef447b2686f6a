/** The parts of the RedisKubernetes API resource that the core reads. */
module Api {
  import opened Wrappers

  datatype Metadata = Metadata(id: string, name: string)

  datatype EnvironmentInfo = EnvironmentInfo(envId: string, orgId: string)

  datatype IngressSpec = IngressSpec(isEnabled: bool, endpointDomainName: string)

  /** `ingress` is None when the resource has no ingress section (nil in Go). */
  datatype Spec = Spec(environmentInfo: EnvironmentInfo, ingress: Option<IngressSpec>)

  datatype RedisKubernetes = RedisKubernetes(metadata: Metadata, spec: Spec)

  /** The stack input handed to the module by the infrastructure engine. */
  datatype StackInput = StackInput(apiResource: RedisKubernetes)
}
