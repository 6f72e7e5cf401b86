/**
 * The data shared by both versions of the migration router: the per-instance
 * handle kept in the registry, the status record it reports, the remote
 * effects a migration causes, and the migration plan it consumes.
 */
module Instances {

  datatype Option<T> = None | Some(value: T)

  /** A named remote actor; the actor started for instance `i` is resolved by the name `i`. */
  datatype ActorRef = ActorRef(name: string)

  /** A placement decision: move `sourceInstanceId` to a fresh instance on `targetNodeId`. */
  datatype MigrationPlan = MigrationPlan(sourceInstanceId: string, targetNodeId: string)

  /** Why a migration raised instead of returning: a dictionary lookup on a missing key. */
  datatype Failure =
    | MissingResource(key: string)       // resource_requirements[key]
    | UnknownInstance(instanceId: string) // ready_instances[instanceId]

  /** The record a handle reports about itself; the router stamps `modelName` on it. */
  datatype InstanceStatus = InstanceStatus(
    instanceId: string,
    ready: bool,
    status: bool,
    nodeId: Option<string>,
    maxQueueLength: int,
    numGpu: int,
    modelName: string)

  /**
   * The observable effects of a migration, in the order they happen: the remote
   * calls it issues, and the points at which it changes which ids are routable.
   */
  datatype Event =
    | StartInstance(instanceId: string, backend: string, nodeId: string)
    | InitBackend(actor: ActorRef)
    | GetCurrentTokens(actor: ActorRef)
    | ResumeKvCache(actor: ActorRef, tokens: seq<int>)
    | Registered(instanceId: string)
    | Replaced(sourceId: string, instanceId: string)
    | Shutdown(actor: ActorRef)
    | Kill(actor: ActorRef)
    | DeallocateResource(modelName: string, instanceId: string, requirements: map<string, int>)
    | StopInstance(instanceId: string)

  /** Queue length every handle built for a migration target gets. */
  const TargetQueueLength := 10

  /** Key of the GPU count in a router's resource requirements. */
  const GpuKey := "num_gpus"

  /**
   * An instance's entry in the registry. The identity and capacity attributes
   * are fixed at construction; the rest is assigned in place under the
   * handle's own lock.
   */
  class InstanceHandle {
    const instanceId: string
    const maxQueueLength: int
    const numGpu: int
    var backendInstance: Option<ActorRef>
    var ready: bool
    var status: bool
    var nodeId: Option<string>

    constructor (instanceId: string, maxQueueLength: int, numGpu: int)
      ensures this.instanceId == instanceId
      ensures this.maxQueueLength == maxQueueLength && this.numGpu == numGpu
      ensures backendInstance == None && !ready && status && nodeId == None
    {
      this.instanceId := instanceId;
      this.maxQueueLength := maxQueueLength;
      this.numGpu := numGpu;
      backendInstance := None;
      ready := false;
      status := true;
      nodeId := None;
    }

    /** What the handle reports about itself; the model name is left for the router to fill in. */
    function GetStatus(): InstanceStatus
      reads this
    {
      InstanceStatus(instanceId, ready, status, nodeId, maxQueueLength, numGpu, "")
    }
  }

  /**
   * The handle for a migration target once its process has started: built
   * with the fixed queue length, bound to the actor started under its id, and,
   * under its own lock, marked ready on the target node.
   */
  method NewTargetHandle(instanceId: string, numGpu: int, nodeId: string) returns (h: InstanceHandle)
    ensures fresh(h)
    ensures h.instanceId == instanceId && h.maxQueueLength == TargetQueueLength && h.numGpu == numGpu
    ensures h.backendInstance == Some(ActorRef(instanceId))
    ensures h.ready && h.status && h.nodeId == Some(nodeId)
  {
    h := new InstanceHandle(instanceId, TargetQueueLength, numGpu);
    h.backendInstance := Some(ActorRef(instanceId));
    h.ready := true;
    h.nodeId := Some(nodeId);
  }

  /** Every registered handle has a backend actor to talk to. */
  ghost predicate AllHaveBackends(registry: map<string, InstanceHandle>)
    reads registry.Values
  {
    forall id :: id in registry ==> registry[id].backendInstance.Some?
  }

  /** Every registered handle is filed under its own instance id. */
  ghost predicate KeysMatchIds(registry: map<string, InstanceHandle>)
    reads registry.Values
  {
    forall id :: id in registry ==> registry[id].instanceId == id
  }

  /** The two remote calls that bring up a target instance: start it on the node, then initialise its backend. */
  function Provisioned(instanceId: string, backend: string, nodeId: string): seq<Event>
  {
    [StartInstance(instanceId, backend, nodeId), InitBackend(ActorRef(instanceId))]
  }
}
