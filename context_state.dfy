/** The provisioning context: the record of resources already created,
    threaded through the stages under a well-known key of the engine
    context. Only the fields the load-balancer stage touches and the
    namespace, standing for every other field, are modelled. */
module ContextState {
  import opened Wrappers
  import opened Kube

  datatype AddedResources = AddedResources(
    namespace: Option<Handle>,
    loadBalancerExternalService: Option<Handle>,
    loadBalancerInternalService: Option<Handle>)

  /** No resource recorded: the record a Go composite literal leaves nil. */
  const NoResources := AddedResources(None, None, None)

  /** `addedResources` is None while no stage has recorded anything (nil in Go). */
  datatype Status = Status(addedResources: Option<AddedResources>)

  datatype ContextState = ContextState(status: Status)
}
