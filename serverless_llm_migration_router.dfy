/**
 * The older migration router: provision and initialise a target instance,
 * register it, then ask the base router to stop the source. No generation
 * state is transferred.
 *
 * The remote calls, the registration and the stop request are recorded in
 * the router's `log`.
 */
module ServerlessLlmMigrationRouter {
  import opened Instances

  datatype MigrationOutcome =
    | Migrated(instanceId: string)  // returns the new instance id
    | Raised(failure: Failure)

  class MigrationRouter {
    const modelName: string
    const resourceRequirements: map<string, int>
    const backend: string
    var readyInstances: map<string, InstanceHandle>
    var log: seq<Event>

    ghost predicate Valid()
      reads this, readyInstances.Values
    {
      AllHaveBackends(readyInstances)
    }

    constructor (modelName: string, resourceRequirements: map<string, int>, backend: string)
      ensures Valid()
      ensures this.modelName == modelName && this.resourceRequirements == resourceRequirements
      ensures this.backend == backend
      ensures readyInstances == map[] && log == []
    {
      this.modelName := modelName;
      this.resourceRequirements := resourceRequirements;
      this.backend := backend;
      readyInstances := map[];
      log := [];
    }

    /**
     * Migrate `plan.sourceInstanceId` to a new instance `newId` on
     * `plan.targetNodeId`: start and initialise the target, make it routable,
     * and only then request that the source be stopped.
     */
    method ExecuteMigrationPlan(plan: MigrationPlan, newId: string)
      returns (r: MigrationOutcome, ghost target: InstanceHandle?)
      requires Valid()
      requires newId !in readyInstances
      modifies this
      ensures Valid()
      ensures GpuKey !in resourceRequirements ==>
        r == Raised(MissingResource(GpuKey)) && target == null
        && readyInstances == old(readyInstances) && log == old(log)
      ensures GpuKey in resourceRequirements ==>
        && r == Migrated(newId)
        && target != null && fresh(target)
        && target.instanceId == newId && target.maxQueueLength == TargetQueueLength
        && target.numGpu == resourceRequirements[GpuKey]
        && target.backendInstance == Some(ActorRef(newId))
        && target.ready && target.status && target.nodeId == Some(plan.targetNodeId)
        && readyInstances == old(readyInstances)[newId := target]
        && log == old(log) + Provisioned(newId, backend, plan.targetNodeId)
                  + [Registered(newId), StopInstance(plan.sourceInstanceId)]
      // The registry below is the one at registration: what the base router's
      // stop helper then does to the source entry is not part of this model.
      ensures old(KeysMatchIds(readyInstances)) ==> KeysMatchIds(readyInstances)
      ensures r.Migrated? ==> |readyInstances| == |old(readyInstances)| + 1
    {
      target := null;
      if GpuKey !in resourceRequirements {
        r := Raised(MissingResource(GpuKey));
        return;
      }
      log := log + [StartInstance(newId, backend, plan.targetNodeId)];
      var instance := NewTargetHandle(newId, resourceRequirements[GpuKey], plan.targetNodeId);
      log := log + [InitBackend(instance.backendInstance.value)];
      readyInstances := readyInstances[newId := instance];
      log := log + [Registered(newId)];
      log := log + [StopInstance(plan.sourceInstanceId)];
      target := instance;
      r := Migrated(newId);
    }

    /** The status of a registered instance with the router's model name stamped on it; None when unknown. */
    method GetInstanceStatus(instanceId: string) returns (r: Option<InstanceStatus>)
      ensures r.None? <==> instanceId !in readyInstances
      ensures r.Some? ==>
        r.value.modelName == modelName
        && r.value == readyInstances[instanceId].GetStatus().(modelName := modelName)
    {
      if instanceId !in readyInstances {
        return None;
      }
      var instance := readyInstances[instanceId];
      var instanceStatus := instance.GetStatus();
      instanceStatus := instanceStatus.(modelName := modelName);
      return Some(instanceStatus);
    }
  }
}
