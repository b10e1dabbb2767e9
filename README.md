# dockwrkr core, modelled in Dafny

dockwrkr is a small orchestrator. It takes a YAML file of container
definitions and drives the Docker client through them. This project models
the orchestration logic of `Core` in `dockwrkr/core.py`, in three parts.

- **The dependency resolver.**
  - `getContainerDependencies` turns a definition's `link` entries into dependency names by dropping any `:alias`.
  - `getDefinedContainers` and its nested `resolveDependencies` run a depth-first search over the definitions in definition order. The search appends every container to a shared `resolved` list after its dependencies.
- **Request validation.** `readOrderedContainers` rejects a request that names any undefined container. The failure lists all missing names. Otherwise it returns the requested names in resolver order.
- **The commands.**
  - `__start`, `__stop`, `__remove` and `__restart` decide, container by container in request order, which runtime calls to make.
  - `__status` builds the status table.
  - `__command` (behind `start`/`stop`/`remove`/`restart`), `status` and `recreate` combine validation, the state read and the per-container decisions; `reset` skips validation and works over the runtime's list of managed containers; `pull` skips both validation and the state read.

The Docker runtime is replaced by two things:

- an input: the live state, or the failure of reading it;
- an output: a plan of abstract calls, each `Op(container, actions)` with actions `Create`, `Start`, `Stop(time)`, `Remove` and `Pull(image)`.

A simulator (`Runtime.Apply`) gives the calls a meaning: Create adds a stopped container, Start sets `running`, Stop clears it, Remove deletes, Pull changes nothing. With it, `start`, `stop`, `remove` and `restart`, and through them `reset` and `recreate`, are proved against a reference table of where each should leave every container (`Planner.Expected`). `status` is proved against its row definition, and `pull` to leave every container unchanged.

Layout:

| file | module | contents |
|---|---|---|
| `outcome.dfy` | `Outcome` | `Option`, `Result`, the error kinds, `Sequence` (fail-fast aggregation) |
| `seqs.dfy` | `Seqs` | duplicate-freedom, subsequences, the two list comprehensions of `readOrderedContainers` |
| `definitions.dfy` | `Definitions` | the configuration, alias stripping, `getContainerDependencies`, the well-formedness precondition |
| `resolver.dfy` | `Resolver` | the resolver as specification functions and as the source's recursive method and loops |
| `example.dfy` | `ResolverExample` | a three-container configuration resolved by proof |
| `runtime.dfy` | `Runtime` | container status, actions, the simulator, legality of calls, dispatch of a plan against runtime replies |
| `planner.dfy` | `Planner` | the decision tables, the four planner loops, the status table |
| `commands.dfy` | `Commands` | validation, state read, and every public command |

Precondition:

- A configuration is a `seq<Definition>` with distinct names, one per key of the `containers` map, in key order.
- The resolver needs every link target to be defined and the link graph to be acyclic.
- Acyclicity is witnessed by a ghost `rank` map in which every dependency ranks lower than the container linking to it. `Definitions.WellFormed` states the precondition. The original has no cycle guard: it recurses without end on a cycle and crashes on an undefined link target.

## Model

| member | source | states |
|---|---|---|
| Definitions.StripAlias | dockwrkr/core.py:86 | the dependency is the longest colon-free prefix of the link: a prefix of it with no ':', followed in the link by ':' when shorter; a link without ':' is its own dependency |
| Definitions.StripAliasDropsAlias | dockwrkr/core.py:86 | a link `name:alias` yields the dependency `name` |
| Definitions.Lookup | dockwrkr/core.py:93-94 | a definition is found exactly when the name is defined, and it is the configuration's entry of that name |
| Definitions.GetContainerDependencies | dockwrkr/core.py:79-88 | the node carries the container's name and one dependency per link, in link order, each the link with its alias removed |
| Resolver.VisitDeps | dockwrkr/core.py:67-70 | visiting a node's dependencies only extends `resolved`, puts every dependency in it, and keeps it duplicate-free and dependency-first |
| Resolver.Visit | dockwrkr/core.py:66-72 | visiting a node only extends `resolved`, adds the node, and keeps `resolved` duplicate-free with each container after its dependencies |
| Resolver.ResolveAll | dockwrkr/core.py:73-75 | resolving the graph in order only extends `resolved` and puts every node in it, keeping it duplicate-free and dependency-first |
| Resolver.DefinedContainers | dockwrkr/core.py:55-77 | the resolved list is a duplicate-free permutation of the defined names in which every dependency comes before each container linking to it |
| Resolver.ResolveDependencies | dockwrkr/core.py:66-72 | the recursive procedure appending to the shared list computes exactly `Visit` |
| Resolver.GetDefinedContainers | dockwrkr/core.py:55-77 | building the graph and resolving each node in definition order yields exactly `DefinedContainers` |
| Resolver.NoLinksKeepDefinitionOrder | dockwrkr/core.py:62-77 | without links the resolved order is the definition order |
| ResolverExample.ExampleOrder | dockwrkr/core.py:55-88 | for A linked to `B:b`, B, and C linked to A, the resolved order is B, A, C |
| Seqs.Keep | dockwrkr/core.py:105 | the comprehension keeps exactly the occurrences of the wanted names, in order, with their multiplicity, and keeps a duplicate-free list duplicate-free |
| Seqs.Drop | dockwrkr/core.py:104 | the comprehension keeps exactly the occurrences of the unwanted names, in order, with their multiplicity |
| Outcome.Sequence | dockwrkr/core.py:200 | the batch succeeds exactly when every outcome succeeded, with their values in order, and otherwise fails with the first failure |
| Commands.ReadOrderedContainers | dockwrkr/core.py:102-108 | it fails exactly when a requested name is undefined, with every missing name in request order; otherwise it yields the requested names, each once, in resolver order |
| Commands.ReadStates | dockwrkr/core.py:181-184 | validation comes first; a valid request gets the runtime's failure or the live status of the requested containers that exist |
| Commands.PlanCommand | dockwrkr/core.py:175-179 | the per-container planner runs over the request as given (duplicates and order kept), or over all defined containers in resolver order with `all` |
| Commands.CommandReaches | dockwrkr/core.py:175-179 | once the planned calls succeed, each targeted container is in the command's expected phase and every other container is unchanged |
| Commands.Start | dockwrkr/core.py:110-111 | after the plan every target is running, others are unchanged, and only containers that were not running get calls; with no repeated name every call is legal |
| Commands.Stop | dockwrkr/core.py:113-114 | after the plan every existing target is stopped and missing ones stay missing; every op is a single `Stop(time)` for a target that was running (a name requested twice gets one such op per occurrence) |
| Commands.Remove | dockwrkr/core.py:116-117 | after the plan every target is gone, except a running one without `force`; only existing containers get calls |
| Commands.Restart | dockwrkr/core.py:119-120 | after the plan every existing target is running and missing ones stay missing; only existing containers get calls |
| Commands.Status | dockwrkr/core.py:122-126 | with no names the whole resolved list is reported; one row per target, in order, built from its live status or the placeholder |
| Commands.Recreate | dockwrkr/core.py:167-173 | after removal and a fresh start every target runs, created anew by an Op of Create then Start; other containers are unchanged |
| Commands.RecreateReaches | dockwrkr/core.py:167-173 | the removal leaves every target absent, so the start phase creates and starts each one |
| Commands.RecreateLegal | dockwrkr/core.py:167-173 | with no repeated name every call of removal followed by start is legal |
| Commands.RunRecreate | dockwrkr/core.py:170-173 | run against the runtime, a failed removal phase ends the command with that failure and nothing issued after it |
| Commands.RunRecreateSucceeds | dockwrkr/core.py:170-173 | when every call is accepted, the two phases end in the state of the plan `Recreate` returns, with one result per start op |
| Commands.RecreateRefusedRemoval | dockwrkr/core.py:170-173 | a stopped container whose removal is refused is left as it was, and the command reports the refusal |
| Commands.Reset | dockwrkr/core.py:147-155 | a failed managed-list read is returned; otherwise every managed container ends absent, whether defined or not, and nothing else changes |
| Commands.Pull | dockwrkr/core.py:157-165 | one Pull per requested name of the image `Definitions.Image` reads, as `getContainerImage` does, in request order with duplicates kept (no resolver reordering and no state read), and the plan changes no container |
| Planner.PlanStart | dockwrkr/core.py:186-200 | the loop builds exactly the `Plan` of the start table |
| Planner.PlanStop | dockwrkr/core.py:202-212 | the loop builds exactly the `Plan` of the stop table |
| Planner.PlanRemove | dockwrkr/core.py:214-229 | the loop builds exactly the `Plan` of the remove table |
| Planner.PlanRestart | dockwrkr/core.py:231-245 | the loop builds exactly the `Plan` of the restart table |
| Planner.OpsReachExpected | dockwrkr/core.py:186-245 | one container's calls lead it from its observed phase (or from the expected phase, when planned twice) to the expected phase |
| Planner.PlanReachesExpected | dockwrkr/core.py:186-245 | once all calls succeed, every requested container is in `Expected(cmd, phase)` and every other container is unchanged |
| Planner.PlanFollowsRequest | dockwrkr/core.py:186-245 | ops follow the request order; each holds exactly its table row's calls; every container whose row has calls gets its op |
| Planner.OpsLegal | dockwrkr/core.py:186-245 | a container's calls are legal from the phase its decision was made on |
| Planner.PlanIsLegal | dockwrkr/core.py:186-245 | for a request without repeated names the runtime is asked only for calls it can perform: create when missing, start or remove when stopped, stop when running |
| Planner.RepeatedNameIsPlannedTwice | dockwrkr/core.py:178-179 | starting a missing container named twice plans Create-then-Start twice, and the second Create is not legal |
| Planner.MissingContainerRow | dockwrkr/core.py:131-143 | a container the runtime does not know gets a row of empty cells, `-` as its start time and an empty error label |
| Planner.RunningContainerRow | dockwrkr/core.py:134-143 | a running container's row shows `-` as its error and its start time when it has one |
| Planner.RowOf | dockwrkr/core.py:136-143 | the row has the container's cid, pid and ip; the start cell is `-` exactly when there is no start time; the error cell is `-` exactly when running, else the error label |
| Planner.StatusTable | dockwrkr/core.py:128-145 | one row per requested container, in request order |
| Commands.ObservedPhases | dockwrkr/core.py:181-184 | the state read agrees with the live runtime on the phase of every requested container |
| Runtime.DispatchSucceeds | dockwrkr/core.py:186-245 | when the runtime accepts every call the command succeeds with one value per op and leaves the simulated state |
| Runtime.DispatchFailsFirst | dockwrkr/core.py:200 | every op is issued; the command fails exactly when some op failed, and reports the first failing op's error |

## Left out

- Config discovery and loading (`configDefaults`, `initialize`, `findConfigFile`, `readConfigFile`, `loadConfig`, `setConfig`, dockwrkr/core.py:24-53) are file-system and YAML I/O. The configuration is a given sequence of definitions; the `Core` fields they set (`config`, `initialized`, `pidsDir`, `dockerClient`) are not modelled.
- The legacy fallback to a top-level container map (dockwrkr/core.py:58-60) is left out. The model reads only the `containers` map, as `getContainerConfig` does.
- `ensureList` normalisation of a single `link` string is assumed done: `links` is always a list.
- Cyclic links and undefined link targets are excluded by the `WellFormed` precondition. The original recurses without end or crashes on them.
- The `dockwrkr.docker` calls are outside the model. `create`, `start`, `stop`, `remove` and `pull` become planned actions. The answers of `filterExistingContainers`/`readContainersStatus` and of `readManagedContainers` are inputs (`live`, `managed`). `basePath` and the container-creation options are not modelled.
- The monad library (`OK`, `Fail`, `Try`, `bind`, `then`, `defer`) is not part of this model. `Runtime.Dispatch` assumes that a chain stops at the first failing call, that a failing call changes nothing, and that `Try.sequence` reports the first failure.
- Runtime.RunActions: an op of two chained calls (create then start, stop then remove, stop then start) is taken to fail when its second call fails. If `then` passes the first call's value through unchanged whatever its deferred call returns, the original would report such an op as succeeded; that reading is not modelled.
- Commands.Recreate: its single plan, removal followed by start, is what the original issues only when every removal succeeds. After a failed removal the original makes no second state read and no start call; `Commands.RunRecreate` models that staged execution. The second state read is taken to see the runtime as the removals left it and not to fail, and the unseen `then` is taken to forward that read's result.
- Commands.Pull: requires every requested name to be defined. The original does not validate, and an undefined name makes `getContainerImage` fail with an attribute error on `None`; that crash is not modelled.
- The text of the invalid-container error (dockwrkr/core.py:107) is not modelled as a string. The failure carries the list of missing names that the text joins with spaces.
- Logging (`logger.warn`/`error`, `dinfo`), the info messages, and wall-clock formatting by `dateToAgo` are left out. The start cell keeps the raw start time (`Ago`).
- `getCol` and `docker.getErrorLabel` are taken to be the status's own fields (`cid`, `pid`, `ip`, `errorLabel`). The placeholder status for a missing container has empty fields and no start time.
- An empty start-time string counts as a start time in the model. Python's truthiness would print `-` for it.
- Teardown is not done in reverse dependency order, as in the original: `stop` and `remove` use the request order, or the resolver order with `all`, and `reset` uses the order of the managed list the runtime returns.
- Concurrency and the real Docker daemon's behaviour beyond the simulator are left out.
