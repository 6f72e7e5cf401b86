# MigrationRouter, modelled in Dafny

This project models the migration router of ServerlessLLM. The router moves a
serving instance of a model to another worker node. It builds and starts a
fresh instance on the target node and then retires the source instance. All
of this goes through one shared registry, `ready_instances`, which maps
instance ids to `InstanceHandle` objects.

The router exists in two versions, and each has its own module:

- `SllmMigrationRouter` (sllm/serve/routers/migration_router.py) is the current version.
  - It provisions the target handle: `max_queue_length` 10, `num_gpu` taken from the
    router's `num_gpus` requirement, `ready` true, `node_id` the target node, and a
    backend actor named by the new id.
  - It runs the drain loop. The loop fetches the source's current tokens and forwards
    every fetch longer than 10 tokens to the target with `resume_kv_cache`. It stops
    at the first fetch that is empty or has at most 10 tokens.
  - Under the registry lock it does the cutover, and then it tears the source down.
- `ServerlessLlmMigrationRouter` (serverless_llm/serve/routers/migration_router.py) is the
  older version. It provisions the target the same way and registers it under the new
  id. Then it asks the base router to stop the source. It transfers no tokens.
- `Instances` holds what both versions share:
  - the `InstanceHandle` class;
  - the status record that a handle reports;
  - the migration plan;
  - the log of effects.

Each router is a class. `readyInstances` is a `map` field that the methods
update in place. Handles are objects, so the model can state which handle
object ends up under which key. The router's `log` field records its effects
in order:

- every remote call (start, `init_backend`, `get_current_tokens`, `resume_kv_cache`,
  `shutdown`, kill, `deallocate_resource`, `_stop_instance`);
- the point where the registry publishes a new id (`Registered` in the older version,
  `Replaced` at cutover in the current one).

The results of the remote token fetches are an input sequence `fetches`, one
entry per call.

The current version has a quirk, and the model keeps it. At line 125 of the
sllm file, the variable `instance` is rebound to the handle popped for the
source. Line 128 then files that source handle, now with `status = False`,
under the new id. The freshly built target handle never enters the registry.
The shutdown and kill at lines 129-130 go to the popped handle's backend,
which is the source's backend.

`ExecuteMigrationPlan` states this directly:

- `readyInstances == CutoverMap(old(readyInstances), source, newId)`;
- the built target is not among the registry's handles;
- a registry whose keys matched their handles' ids no longer has that property afterwards.

`CompleteMigration` does the lock-guarded cutover and the teardown (lines
118-134). It never sees the target handle.

In both versions `ready` and `status` are booleans, and the model keeps them so.

## Model

| member | source | states |
|---|---|---|
| `SllmMigrationRouter.FirstResidual` | sllm/serve/routers/migration_router.py:97-105 | the drain's stopping point is the first fetch that is empty or at most 10 tokens long: no earlier fetch is, and the one at that index is (or there is none) |
| `SllmMigrationRouter.Drain` | sllm/serve/routers/migration_router.py:96-112 | the loop converges exactly when some fetch is residual; `migration_iter` equals the number of fetches before the first residual one; the calls it issues are exactly `DrainLog` of the fetches |
| `SllmMigrationRouter.DrainForwardsAllButResidual` | sllm/serve/routers/migration_router.py:96-112 | the sequences sent to the target's `resume_kv_cache` are exactly the fetches before the first residual one, in fetch order; the residual fetch is not forwarded |
| `SllmMigrationRouter.DrainLogShape` | sllm/serve/routers/migration_router.py:97-109 | the loop alternates a fetch from the source and a forward of that fetch to the target, once per round; a converged drain ends with one extra fetch whose result is dropped |
| `SllmMigrationRouter.DrainStopsAtFirstResidual` | sllm/serve/routers/migration_router.py:99-105 | after the first residual fetch, no further fetch happens: appending later results changes neither the stopping index nor the calls made |
| `SllmMigrationRouter.NeverConvergesWithoutResidual` | sllm/serve/routers/migration_router.py:97-109 | if every fetch has more than 10 tokens, the loop never stops within the given fetches and forwards every one of them, so cutover is never reached |
| `SllmMigrationRouter.ThreeFetchScenario` | sllm/serve/routers/migration_router.py:96-112 | fetches of 42, 25 and 8 tokens give exactly two forwards, of the 42- and 25-token fetches, and the loop stops at the third |
| `SllmMigrationRouter.CutoverMap` | sllm/serve/routers/migration_router.py:125-128 | after cutover the registry's keys are the old keys minus the source plus the new id; the new id maps to the handle that was under the source; every other entry is unchanged |
| `SllmMigrationRouter.CutoverKeepsSize` | sllm/serve/routers/migration_router.py:125-128 | when the new id was fresh, cutover leaves the number of registered instances unchanged |
| `SllmMigrationRouter.MigrationRouter.CompleteMigration` | sllm/serve/routers/migration_router.py:121-134 | if the source is absent, the registry and log are untouched and the result is None. Otherwise the popped handle gets `status` false and is filed under the new id. The other handles are unchanged. The log gains the swap, then shutdown and kill of the popped handle's backend, then deallocate of the source id. The result is the new id. |
| `SllmMigrationRouter.MigrationRouter.DrainAndCutOver` | sllm/serve/routers/migration_router.py:95-134 | a source missing from the registry raises, with nothing changed. Otherwise the log gains exactly the drain's calls, from the source's backend to the new id's actor. Without a residual fetch nothing else happens. With one, the registry becomes the cutover map and the source handle is marked not serving. The registry then holds only handles it held before, and its new key no longer matches its handle's id. |
| `SllmMigrationRouter.MigrationRouter.ExecuteMigrationPlan` | sllm/serve/routers/migration_router.py:48-134 | a missing `num_gpus` raises before any effect. The built handle has queue length 10, the router's GPU count, `ready` true, the target node and the new id's actor, and it is never registered. A missing source raises after start and init, with the registry unchanged. Without a residual fetch no cutover happens. Otherwise the registry is the cutover map, the source handle is marked not serving, and the log is provision, drain, then retirement, in that order. The new key no longer matches its handle's id. |
| `SllmMigrationRouter.MigrationRouter.GetInstanceStatus` | sllm/serve/routers/migration_router.py:136-147 | returns None exactly when the id is not registered, and changes nothing. Otherwise it returns the registered handle's own status with `model_name` set to the router's model name. |
| `SllmMigrationRouter.MigrationRouter.constructor` | sllm/serve/routers/migration_router.py:37-46 | a new router keeps its model name, resource requirements and backend kind, and starts with an empty registry |
| `ServerlessLlmMigrationRouter.MigrationRouter.ExecuteMigrationPlan` | serverless_llm/serve/routers/migration_router.py:48-92 | a missing `num_gpus` raises before any effect. Otherwise the built handle has queue length 10, the router's GPU count, `ready` true, the target node and the new id's actor. It is registered under the new id, and no other entry changes. The log is start, init, registration, then the stop request for the source, with no token transfer. The result is the new id. The registry as it stands at registration, before the stop request, has grown by one, and a registry whose keys match its handles' ids keeps that property. |
| `ServerlessLlmMigrationRouter.MigrationRouter.GetInstanceStatus` | serverless_llm/serve/routers/migration_router.py:94-105 | returns None exactly when the id is not registered, and changes nothing. Otherwise it returns the registered handle's own status with `model_name` set to the router's model name. |
| `ServerlessLlmMigrationRouter.MigrationRouter.constructor` | serverless_llm/serve/routers/migration_router.py:37-46 | a new router keeps its model name, resource requirements and backend kind, and starts with an empty registry |
| `Instances.NewTargetHandle` | sllm/serve/routers/migration_router.py:68-86 | the target handle is a new object with the new id, queue length 10 and the given GPU count, bound to the actor started under its id, ready, serving, and placed on the target node |
| `Instances.InstanceHandle.constructor` | sllm/serve/routers/migration_router.py:68-72 | a new handle carries the given id, queue length and GPU count, and has no backend, no node, and is not yet ready |

## Left out

- Ray: `start_instance.options(...).remote`, `ray.get_actor`, `ray.kill` and the `.remote()` calls appear only as log events. The actor for instance `i` is taken to be the one named `i`. Remote calls always succeed: start, initialisation and teardown failures, and the orphaned instances they leave, are not modelled.
- The scheduling hints and `startup_config` (fractional resource values and a CPU/GPU dict) are opaque to the router and are not modelled. `backend_config` is not part of the model either; the start event records only the backend kind.
- asyncio locks and concurrency: each `async with` block is one atomic method, and interleavings are not modelled. A concurrent removal of the source between drain and cutover is captured only by `CompleteMigration`'s contract for an absent source. In `ExecuteMigrationPlan` the source cannot vanish, because nothing else runs.
- Logging, including the misleading id in the error message at sllm/serve/routers/migration_router.py:123.
- The base router (`RoundRobinRouter`) is not part of this model. `_new_instance_id` becomes the parameter `newId`, and the model requires it to be fresh. The model also requires that every registered handle has a backend actor, an invariant the base router is assumed to keep.
- `_stop_instance` is recorded only as a `StopInstance` event. Its effect on the registry is not modelled, so the older router's contract describes the registry as it stands at registration: the source entry is still there and the registry has grown by one.
- `deallocate_resource` of the model loading scheduler is recorded only as an event.
- `InstanceHandle` and `InstanceHandle.get_status` are defined outside these files. The model assumes these defaults: no backend, `ready` false, `status` true and no node. `GetStatus` reports the handle's fields with an empty model name.
- The drain loop has no bound in the source. The model gives it a finite list of fetch results. When the list runs out before a fetch of at most 10 tokens, the outcome is `NeverConverged` with no cutover, standing in for a loop that never ends.
- `get_current_tokens` returning `None` is modelled as an empty fetch. Both stop the loop.
