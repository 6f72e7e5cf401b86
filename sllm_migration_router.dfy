/**
 * The current migration router: provision a target instance, drain the
 * source's generation state into it, then swap the registry entry and tear
 * the source down.
 *
 * The remote calls are recorded in the router's `log`; the successive results
 * of fetching the source's current tokens are an input sequence `fetches`.
 */
module SllmMigrationRouter {
  import opened Instances

  /** A fetched token sequence of at most this length is dropped and ends the drain. */
  const MigrationThreshold := 10

  /** The drain loop stops on an empty fetch or one at or below the threshold. */
  predicate IsResidual(tokens: seq<int>)
  {
    tokens == [] || |tokens| <= MigrationThreshold
  }

  /** Index of the first residual fetch, or `|fetches|` when there is none. */
  function FirstResidual(fetches: seq<seq<int>>): (k: nat)
    ensures k <= |fetches|
    ensures forall i :: 0 <= i < k ==> !IsResidual(fetches[i])
    ensures k < |fetches| ==> IsResidual(fetches[k])
  {
    if fetches == [] || IsResidual(fetches[0]) then 0 else 1 + FirstResidual(fetches[1..])
  }

  /**
   * The remote calls of the drain loop for the given fetch results: each round
   * fetches from the source, and forwards the fetched tokens to the target
   * unless they are residual, in which case the loop ends.
   */
  function DrainLog(source: ActorRef, target: ActorRef, fetches: seq<seq<int>>): seq<Event>
  {
    if fetches == [] then []
    else if IsResidual(fetches[0]) then [GetCurrentTokens(source)]
    else [GetCurrentTokens(source), ResumeKvCache(target, fetches[0])] + DrainLog(source, target, fetches[1..])
  }

  /** The token sequences a log forwards to `actor`, in order. */
  function InjectedInto(log: seq<Event>, actor: ActorRef): seq<seq<int>>
  {
    if log == [] then []
    else (if log[0].ResumeKvCache? && log[0].actor == actor then [log[0].tokens] else [])
         + InjectedInto(log[1..], actor)
  }

  lemma {:induction false} InjectedIntoAppend(a: seq<Event>, b: seq<Event>, actor: ActorRef)
    ensures InjectedInto(a + b, actor) == InjectedInto(a, actor) + InjectedInto(b, actor)
  {
    if a == [] {
      assert a + b == b;
    } else {
      assert (a + b)[0] == a[0] && (a + b)[1..] == a[1..] + b;
      InjectedIntoAppend(a[1..], b, actor);
    }
  }

  /**
   * The target receives exactly the fetched sequences that precede the first
   * residual one, in fetch order; the residual one is not forwarded.
   */
  lemma {:induction false} DrainForwardsAllButResidual(source: ActorRef, target: ActorRef, fetches: seq<seq<int>>)
    ensures InjectedInto(DrainLog(source, target, fetches), target) == fetches[..FirstResidual(fetches)]
  {
    if fetches != [] && !IsResidual(fetches[0]) {
      var rest := DrainLog(source, target, fetches[1..]);
      InjectedIntoAppend([GetCurrentTokens(source), ResumeKvCache(target, fetches[0])], rest, target);
      DrainForwardsAllButResidual(source, target, fetches[1..]);
      assert fetches[..FirstResidual(fetches)] == [fetches[0]] + fetches[1..][..FirstResidual(fetches[1..])];
    }
  }

  /**
   * The drain alternates fetch and forward: round `i` before the stop fetches
   * from the source and forwards `fetches[i]` to the target, and a converged
   * drain ends with one more fetch, whose result is dropped.
   */
  lemma {:induction false} DrainLogShape(source: ActorRef, target: ActorRef, fetches: seq<seq<int>>)
    ensures var k := FirstResidual(fetches);
      && |DrainLog(source, target, fetches)| == 2 * k + (if k < |fetches| then 1 else 0)
      && (forall i :: 0 <= i < k ==>
            DrainLog(source, target, fetches)[2 * i] == GetCurrentTokens(source)
            && DrainLog(source, target, fetches)[2 * i + 1] == ResumeKvCache(target, fetches[i]))
      && (k < |fetches| ==> DrainLog(source, target, fetches)[2 * k] == GetCurrentTokens(source))
  {
    if fetches != [] && !IsResidual(fetches[0]) {
      var log := DrainLog(source, target, fetches);
      var rest := DrainLog(source, target, fetches[1..]);
      DrainLogShape(source, target, fetches[1..]);
      assert log == [GetCurrentTokens(source), ResumeKvCache(target, fetches[0])] + rest;
      forall i | 1 <= i < FirstResidual(fetches)
        ensures log[2 * i] == GetCurrentTokens(source) && log[2 * i + 1] == ResumeKvCache(target, fetches[i])
      {
        assert log[2 * i] == rest[2 * (i - 1)];
        assert log[2 * i + 1] == rest[2 * (i - 1) + 1];
        assert fetches[1..][i - 1] == fetches[i];
      }
    }
  }

  /**
   * Once a residual fetch has been seen, whatever the source would report
   * afterwards is never fetched: the loop stops at the first residual fetch.
   */
  lemma {:induction false} DrainStopsAtFirstResidual(source: ActorRef, target: ActorRef, fetches: seq<seq<int>>, later: seq<seq<int>>)
    requires FirstResidual(fetches) < |fetches|
    ensures FirstResidual(fetches + later) == FirstResidual(fetches)
    ensures DrainLog(source, target, fetches + later) == DrainLog(source, target, fetches)
  {
    assert (fetches + later)[0] == fetches[0];
    if !IsResidual(fetches[0]) {
      assert (fetches + later)[1..] == fetches[1..] + later;
      DrainStopsAtFirstResidual(source, target, fetches[1..], later);
    }
  }

  /**
   * A source that never reports a short sequence is never cut over: every
   * fetch is forwarded and the drain has not converged when the fetches run out.
   */
  lemma NeverConvergesWithoutResidual(source: ActorRef, target: ActorRef, fetches: seq<seq<int>>)
    requires forall i :: 0 <= i < |fetches| ==> |fetches[i]| > MigrationThreshold
    ensures FirstResidual(fetches) == |fetches|
    ensures InjectedInto(DrainLog(source, target, fetches), target) == fetches
  {
    DrainForwardsAllButResidual(source, target, fetches);
  }

  /** Fetches of 42, 25 and 8 tokens: two forwards, of the first two, then the drain stops. */
  lemma ThreeFetchScenario(source: ActorRef, target: ActorRef, fetches: seq<seq<int>>)
    requires |fetches| == 3 && |fetches[0]| == 42 && |fetches[1]| == 25 && |fetches[2]| == 8
    ensures FirstResidual(fetches) == 2
    ensures InjectedInto(DrainLog(source, target, fetches), target) == [fetches[0], fetches[1]]
  {
    DrainForwardsAllButResidual(source, target, fetches);
    assert fetches[..2] == [fetches[0], fetches[1]];
  }

  /**
   * The drain loop: fetch the source's current tokens; stop on a residual
   * fetch, otherwise forward them to the target and count the round.
   * `fetches` holds the successive fetch results; when it runs out before a
   * residual fetch the loop has not converged.
   */
  method Drain(source: ActorRef, target: ActorRef, fetches: seq<seq<int>>)
    returns (converged: bool, migrationIter: nat, emitted: seq<Event>)
    ensures converged <==> FirstResidual(fetches) < |fetches|
    ensures migrationIter == FirstResidual(fetches)
    ensures emitted == DrainLog(source, target, fetches)
  {
    var calls := 0;
    migrationIter := 0;
    emitted := [];
    converged := false;
    while calls < |fetches|
      invariant calls <= |fetches|
      invariant migrationIter == calls
      invariant forall i :: 0 <= i < calls ==> !IsResidual(fetches[i])
      invariant emitted + DrainLog(source, target, fetches[calls..]) == DrainLog(source, target, fetches)
    {
      var currentTokens := fetches[calls];
      emitted := emitted + [GetCurrentTokens(source)];
      if IsResidual(currentTokens) {
        converged := true;
        break;
      }
      emitted := emitted + [ResumeKvCache(target, currentTokens)];
      migrationIter := migrationIter + 1;
      calls := calls + 1;
    }
  }

  /** The registry after cutover: `sourceId` removed and its handle filed under `newId`. */
  function CutoverMap<H>(registry: map<string, H>, sourceId: string, newId: string): (r: map<string, H>)
    requires sourceId in registry
    ensures r.Keys == registry.Keys - {sourceId} + {newId}
    ensures r[newId] == registry[sourceId]
    ensures forall id :: id in registry && id != sourceId && id != newId ==> id in r && r[id] == registry[id]
  {
    (registry - {sourceId})[newId := registry[sourceId]]
  }

  /** With a fresh new id, cutover keeps the number of registered instances. */
  lemma CutoverKeepsSize<H>(registry: map<string, H>, sourceId: string, newId: string)
    requires sourceId in registry && newId !in registry
    ensures |CutoverMap(registry, sourceId, newId)| == |registry|
  {
  }

  /** The remote calls after cutover, on the backend of the handle popped from the registry. */
  function Retirement(sourceId: string, newId: string, actor: ActorRef, modelName: string,
                      requirements: map<string, int>): seq<Event>
  {
    [Replaced(sourceId, newId), Shutdown(actor), Kill(actor), DeallocateResource(modelName, sourceId, requirements)]
  }

  datatype MigrationOutcome =
    | Migrated(instanceId: string)  // returns the new instance id
    | Abandoned                     // returns None: the source left the registry before cutover
    | NeverConverged                // the fetches ran out before a residual one
    | Raised(failure: Failure)

  class MigrationRouter {
    const modelName: string
    const resourceRequirements: map<string, int>
    const backend: string
    var readyInstances: map<string, InstanceHandle>
    var log: seq<Event>

    ghost predicate Valid()
      reads this, readyInstances.Values
    {
      AllHaveBackends(readyInstances)
    }

    constructor (modelName: string, resourceRequirements: map<string, int>, backend: string)
      ensures Valid()
      ensures this.modelName == modelName && this.resourceRequirements == resourceRequirements
      ensures this.backend == backend
      ensures readyInstances == map[] && log == []
    {
      this.modelName := modelName;
      this.resourceRequirements := resourceRequirements;
      this.backend := backend;
      readyInstances := map[];
      log := [];
    }

    /**
     * Cutover and retirement of the source. Under the registry lock: give up if
     * the source is gone; otherwise pop it, mark it not serving, and file the
     * popped handle under `newId`. Then shut down and kill that handle's
     * backend and release the source's resources.
     */
    method CompleteMigration(sourceId: string, newId: string) returns (r: Option<string>)
      requires Valid()
      modifies this, readyInstances.Values
      ensures Valid()
      ensures sourceId !in old(readyInstances) ==>
        r == None && readyInstances == old(readyInstances) && log == old(log)
      ensures sourceId in old(readyInstances) ==>
        var popped := old(readyInstances[sourceId]);
        && old(popped.backendInstance).Some?
        && r == Some(newId)
        && readyInstances == CutoverMap(old(readyInstances), sourceId, newId)
        && !popped.status
        && log == old(log) + Retirement(sourceId, newId, old(popped.backendInstance).value,
                                        modelName, resourceRequirements)
      ensures forall h :: h in old(readyInstances.Values) ==>
        && h.backendInstance == old(h.backendInstance) && h.ready == old(h.ready) && h.nodeId == old(h.nodeId)
        && (h.status == old(h.status) || (sourceId in old(readyInstances) && h == old(readyInstances[sourceId])))
    {
      if sourceId !in readyInstances {
        r := None;
        return;
      }
      var instance := readyInstances[sourceId];
      readyInstances := readyInstances - {sourceId};
      instance.status := false;
      readyInstances := readyInstances[newId := instance];
      log := log + [Replaced(sourceId, newId)];
      var actor := instance.backendInstance.value;
      log := log + [Shutdown(actor), Kill(actor), DeallocateResource(modelName, sourceId, resourceRequirements)];
      r := Some(newId);
    }

    /**
     * Everything after the target's backend is initialised: look up the
     * source's backend (a missing source raises), drain its generation state
     * into the actor of `newId`, and once the drain converges complete the
     * migration.
     */
    method DrainAndCutOver(sourceId: string, newId: string, fetches: seq<seq<int>>) returns (r: MigrationOutcome)
      requires Valid()
      requires newId !in readyInstances
      modifies this, readyInstances.Values
      ensures Valid()
      ensures sourceId !in old(readyInstances) ==>
        r == Raised(UnknownInstance(sourceId)) && readyInstances == old(readyInstances) && log == old(log)
      ensures sourceId in old(readyInstances) && FirstResidual(fetches) == |fetches| ==>
        var source := old(readyInstances[sourceId].backendInstance);
        && source.Some?
        && r == NeverConverged
        && readyInstances == old(readyInstances)
        && log == old(log) + DrainLog(source.value, ActorRef(newId), fetches)
      ensures sourceId in old(readyInstances) && FirstResidual(fetches) < |fetches| ==>
        var source := old(readyInstances[sourceId].backendInstance);
        && source.Some?
        && r == Migrated(newId)
        && readyInstances == CutoverMap(old(readyInstances), sourceId, newId)
        && !readyInstances[newId].status
        && log == old(log) + DrainLog(source.value, ActorRef(newId), fetches)
                  + Retirement(sourceId, newId, source.value, modelName, resourceRequirements)
      ensures readyInstances.Values <= old(readyInstances.Values)
      ensures r.Migrated? && old(KeysMatchIds(readyInstances)) ==>
        readyInstances[newId].instanceId == sourceId && !KeysMatchIds(readyInstances)
      ensures forall h :: h in old(readyInstances.Values) ==>
        && h.backendInstance == old(h.backendInstance) && h.ready == old(h.ready) && h.nodeId == old(h.nodeId)
        && (h.status == old(h.status)
            || (r.Migrated? && sourceId in old(readyInstances) && h == old(readyInstances[sourceId])))
    {
      if sourceId !in readyInstances {
        r := Raised(UnknownInstance(sourceId));
        return;
      }
      var sourceInstance := readyInstances[sourceId].backendInstance.value;
      var converged, migrationIter, emitted := Drain(sourceInstance, ActorRef(newId), fetches);
      log := log + emitted;
      if !converged {
        r := NeverConverged;
        return;
      }
      var done := CompleteMigration(sourceId, newId);
      r := if done.Some? then Migrated(done.value) else Abandoned;
    }

    /**
     * Migrate `plan.sourceInstanceId` to a new instance `newId` on
     * `plan.targetNodeId`. A handle is built and started for the target, but
     * the cutover files the popped source handle under `newId`; the target
     * handle never enters the registry.
     */
    method ExecuteMigrationPlan(plan: MigrationPlan, newId: string, fetches: seq<seq<int>>)
      returns (r: MigrationOutcome, ghost target: InstanceHandle?)
      requires Valid()
      requires newId !in readyInstances
      modifies this, readyInstances.Values
      ensures Valid()
      ensures GpuKey !in resourceRequirements ==>
        r == Raised(MissingResource(GpuKey)) && target == null
        && readyInstances == old(readyInstances) && log == old(log)
      ensures GpuKey in resourceRequirements ==>
        && target != null && fresh(target)
        && target.instanceId == newId && target.maxQueueLength == TargetQueueLength
        && target.numGpu == resourceRequirements[GpuKey]
        && target.backendInstance == Some(ActorRef(newId))
        && target.ready && target.nodeId == Some(plan.targetNodeId)
        && target !in readyInstances.Values
      ensures GpuKey in resourceRequirements && plan.sourceInstanceId !in old(readyInstances) ==>
        r == Raised(UnknownInstance(plan.sourceInstanceId))
        && readyInstances == old(readyInstances)
        && log == old(log) + Provisioned(newId, backend, plan.targetNodeId)
      ensures GpuKey in resourceRequirements && plan.sourceInstanceId in old(readyInstances)
              && FirstResidual(fetches) == |fetches| ==>
        var source := old(readyInstances[plan.sourceInstanceId].backendInstance);
        && source.Some?
        && r == NeverConverged
        && readyInstances == old(readyInstances)
        && log == old(log) + Provisioned(newId, backend, plan.targetNodeId)
                  + DrainLog(source.value, ActorRef(newId), fetches)
      ensures GpuKey in resourceRequirements && plan.sourceInstanceId in old(readyInstances)
              && FirstResidual(fetches) < |fetches| ==>
        var source := old(readyInstances[plan.sourceInstanceId].backendInstance);
        && source.Some?
        && r == Migrated(newId)
        && readyInstances == CutoverMap(old(readyInstances), plan.sourceInstanceId, newId)
        && !readyInstances[newId].status
        && log == old(log) + Provisioned(newId, backend, plan.targetNodeId)
                  + DrainLog(source.value, ActorRef(newId), fetches)
                  + Retirement(plan.sourceInstanceId, newId, source.value, modelName, resourceRequirements)
      ensures r.Migrated? && old(KeysMatchIds(readyInstances)) ==>
        readyInstances[newId].instanceId == plan.sourceInstanceId && !KeysMatchIds(readyInstances)
      ensures forall h :: h in old(readyInstances.Values) ==>
        && h.backendInstance == old(h.backendInstance) && h.ready == old(h.ready) && h.nodeId == old(h.nodeId)
        && (h.status == old(h.status)
            || (r.Migrated? && plan.sourceInstanceId in old(readyInstances) && h == old(readyInstances[plan.sourceInstanceId])))
    {
      target := null;
      if GpuKey !in resourceRequirements {
        r := Raised(MissingResource(GpuKey));
        return;
      }
      log := log + [StartInstance(newId, backend, plan.targetNodeId)];
      var instance := NewTargetHandle(newId, resourceRequirements[GpuKey], plan.targetNodeId);
      log := log + [InitBackend(instance.backendInstance.value)];
      target := instance;
      assert readyInstances == old(readyInstances) && Valid();
      ghost var provisioned := log;
      r := DrainAndCutOver(plan.sourceInstanceId, newId, fetches);
      assert provisioned == old(log) + Provisioned(newId, backend, plan.targetNodeId);
    }

    /** The status of a registered instance with the router's model name stamped on it; None when unknown. */
    method GetInstanceStatus(instanceId: string) returns (r: Option<InstanceStatus>)
      ensures r.None? <==> instanceId !in readyInstances
      ensures r.Some? ==>
        r.value.modelName == modelName
        && r.value == readyInstances[instanceId].GetStatus().(modelName := modelName)
    {
      if instanceId !in readyInstances {
        return None;
      }
      var instance := readyInstances[instanceId];
      var instanceStatus := instance.GetStatus();
      instanceStatus := instanceStatus.(modelName := modelName);
      return Some(instanceStatus);
    }
  }
}
