# Model-service wiring core: broker, registry and service wrapper

This project models the wiring core of a small inference service in Dafny. It covers
three parts:

- **The broker** (`PubSubClient`). It keeps one callback per topic and the last
  response each topic produced.
- **The model-service registry** (`ModelRegistry`). Decorators file service classes
  and chain declarations into class-level tables. The registry object then creates one
  instance per catalogued service. It registers each service's trigger topic with the
  broker, with either plain `predict` or a chained callback that republishes the output.
- **The shared `predict` wrapper** of `ModelService`. It validates the input against a
  schema, runs the service's own inference step, and serialises the result.

Modules and files:

| file | module | models |
|---|---|---|
| payloads.dfy | `Payloads` | JSON-like payloads, the core's exceptions as an `Error` datatype, `Option`, `Result`, `Status` |
| contract.dfy | `ServiceContract` | the trigger-topic rule and the `predict` wrapper over an `Implementation` (input schema, inference step, `model_dump`) |
| pubsub.dfy | `PubSub` | the broker class; `Run`/`Dispatch`, which define what a publish does; lemmas about caching, traces and errors |
| base.dfy | `ModelServices` | the `ModelService` class: name, trigger topic and broker as `const` fields set by the constructor |
| registry.dfy | `Registry` | the catalog class (`register`, `chain_to`), the registry class (construction, `get_model`, `model_names`), the wiring fold `Wire` and its theorems |

How the source is represented:

- Callbacks are values of the datatype `Handler`, not closures. `Plain(impl)` is a
  service's `predict`. `Chained(impl, targetTopic)` is the registry's chained callback:
  it runs `predict`, publishes the output to `targetTopic` on the same broker, and
  returns the output unchanged. The broker interprets both kinds in `RunCallback`.
- `Run` and `Dispatch` are pure functions. They say what a publish does: its result or
  raised error, the last-response table afterwards, and the sequence of publish calls it
  set off (its *trace*). The methods `Publish` and `RunCallback` are proved equal to them.
  The ghost field `log` records every publish call the broker receives.
- Chained publishing recurses through the broker, and the source does not stop cycles.
  `Publish` therefore takes a ghost `rank` on topics. Every chained callback must
  publish to a topic of lower rank (`RankedBy`). `WiredRanked` shows that chain
  declarations ranked on service names (which acyclic declarations admit; that step is
  not proved here) give such a rank. `CyclicChainHasNoRank` shows that a chain leading back
  to its start, through any number of topics, has none.
- The class-level tables `_model_services` and `_chains` are fields of a `Catalog`
  object that is handed to the registry. The catalog keeps its names in dict insertion
  order, so that `model_names` keeps the source's order.
- Python's `async`/`await` are ordinary sequential calls. Exceptions are `Err(...)`
  results. Which Python exception each `Error` constructor stands for is written beside
  it in payloads.dfy.
- The inference step returns `Output(instance)` or `Raised(reason)`. `predict` turns
  `Raised(reason)` into `InferenceError(reason)`.

In these points the model follows the code:

- `chain_to` checks only that the *source* class inherits `ModelService`. The target
  class is never checked.
- `predict` does not validate its output against the output schema. It only calls
  `model_dump` on whatever the inference step returns.
- A failure anywhere in a chain propagates to the first publish, and no publish in that
  chain caches anything: each store happens only after its callback returned
  (`RunCache`).

## Model

| member | source | states |
|---|---|---|
| ServiceContract.TriggerTopic | model_services/base.py:23 | the trigger topic is the service name followed by `-trigger` |
| ServiceContract.TriggerTopicInjective | model_services/base.py:23 | two names with the same trigger topic are the same name |
| ServiceContract.TriggerTopicInjectiveAll | model_services/base.py:23 | distinct names never share a trigger topic, for all names at once |
| ServiceContract.Predict | model_services/base.py:56-71 | input that is not a dictionary raises the type error of `**input_data`; a dictionary the schema rejects raises the validation error; success means the schema accepted the input and inference returned, and then the result is the serialised inference output; an inference failure propagates with its reason; no other error can come out of `predict` |
| ServiceContract.PredictRejectsBeforeInference | model_services/base.py:67-68 | on input that is not a dictionary or that the schema rejects, the result does not depend on the inference step or the serialiser, so neither runs |
| ServiceContract.PredictSeesOnlySchemaInstance | model_services/base.py:67-68 | inference receives only the schema instance: raw dictionaries that validate alike give the same prediction |
| ModelServices.ModelService.constructor | model_services/base.py:21-24 | name, broker and implementation are the arguments, and the trigger topic is derived from the name; all are `const`, so the `name`, `trigger_topic` and `pubsub_client` getters always return them |
| PubSub.PubSubClient.constructor | pubsub.py:10-12 | a new broker has no topics, no cached responses and no callback set to `None` |
| PubSub.PubSubClient.RegisterTopic | pubsub.py:14-21 | the topic now maps to the new callback (a replacement when it existed), other topics keep theirs, cached responses are untouched, and "no `None` callback" is preserved |
| PubSub.PubSubClient.Publish | pubsub.py:23-39 | the result, the new last-response table and the publish calls set off are exactly those of `Run`; the callback table does not change |
| PubSub.PubSubClient.RunCallback | model_registry.py:89-97 | running a callback equals `Dispatch`: plain `predict`, or `predict` followed by one publish of its output to the target topic and the output returned unless that publish raised |
| PubSub.PubSubClient.GetLastResponse | pubsub.py:41-43 | returns the cached response of the topic, or `{}` when there is none; it reads the broker and changes nothing |
| PubSub.RunCache | pubsub.py:35-39 | a publish that raises leaves the cache unchanged; one that returns caches its result under its topic; topics outside its trace keep their cache |
| PubSub.RunTrace | model_registry.py:93-96 | a publish's trace starts with itself; every later publish it sets off is to a topic of lower rank; no topic is published to twice in one call chain |
| PubSub.RunNeverMissesCallback | pubsub.py:32-34 | on a table without `None` callbacks (every table reachable through `RegisterTopic`), no publish in the chain raises the "no callback" error |
| PubSub.RunUnknownTopic | pubsub.py:30-31 | publishing to an unregistered topic raises the unknown-topic error and changes no table |
| PubSub.RunPlain | model_registry.py:116-117 | with plain `predict` as callback, the publish returns exactly `predict`'s result, caches it when it returned, and sets off no other publish |
| PubSub.RunChained | model_registry.py:89-97 | with the chained callback: if `predict` raises, nothing else is published or cached; otherwise its output is published exactly once, to the target topic, right after the publish itself; the callback returns the output, or the downstream error |
| PubSub.LastPublishWins | pubsub.py:38 | after two publishes to one topic, the cache holds the second result, or the first one if only the first returned |
| PubSub.ChainPathDescends | model_registry.py:93-96 | following chained callbacks from topic to topic never reaches a topic of higher rank |
| PubSub.CyclicChainHasNoRank | model_registry.py:93-96 | a chain that leads back to its start, through any number of topics, admits no rank, so a publish on it is never claimed to finish |
| Registry.Catalog.constructor | model_registry.py:14-16 | the catalog starts with no classes and no chains |
| Registry.Catalog.Register | model_registry.py:28-34 | a class that is not a `ModelService` raises a type error and changes nothing; otherwise the class is filed under its reported name (a later class with that name replaces the earlier one), the name keeps its first insertion position, and the class is returned unchanged |
| Registry.Catalog.ChainTo | model_registry.py:52-60 | a source that is not a `ModelService` raises a type error; otherwise the chain from the source's name is set to the target's name (a second declaration overwrites the first) and the source is returned unchanged |
| Registry.FirstBroken | model_registry.py:110-113 | the position of the first service, in catalog order, whose chain target has no instance: all services before it are resolvable, and the one at it is not |
| Registry.WireAt | model_registry.py:110-119 | after wiring, each wired service's trigger topic holds its own callback: plain `predict` if unchained, the chained callback to its target's trigger topic if chained |
| Registry.WireElsewhere | model_registry.py:119 | wiring changes no topic other than the wired services' trigger topics |
| Registry.WireKeepsCallbacksSet | model_registry.py:119 | wiring never leaves a topic with a `None` callback |
| Registry.WiredRanked | model_registry.py:110-119 | on a fresh broker, acyclic chain declarations give a wired table on which every publish finishes |
| Registry.WiredPublish | model_registry.py:110-119 | publishing to a wired trigger topic runs that service as a pipeline stage: unchained, it returns `predict`'s result with no other publish; chained, it publishes `predict`'s output exactly once to the target's trigger topic, and when that returns, both topics cache their own results |
| Registry.ModelRegistry.constructor | model_registry.py:64-71 | the registry keeps the catalog and the broker and starts with no instances |
| Registry.ModelRegistry.InitializeServices | model_registry.py:101-119 | one fresh instance per catalog entry, filed under its name and bound to the broker; success exactly when every chain target has an instance, and then every trigger topic is wired; otherwise it raises the missing-target error at the first unresolvable service, after the services before it were wired; cached responses are untouched |
| Registry.ModelRegistry.InstantiateServices | model_registry.py:104-107 | exactly one fresh instance per catalog entry, keyed by its name, with the catalogued implementation |
| Registry.ModelRegistry.RegisterTopics | model_registry.py:110-119 | registers trigger topics in catalog order with the callback `HandlerFor` chooses, and stops with the missing-target error at the first unresolvable chain |
| Registry.ModelRegistry.GetModel | model_registry.py:130-133 | returns the instance constructed under the name, which reports that name, or raises "not found" exactly when there is none |
| Registry.ModelRegistry.ModelNames | model_registry.py:135-138 | lists every catalog name exactly once and nothing else |
| Registry.NewModelRegistry | model_registry.py:64-72 | construction returns a registry exactly when no catalogued service chains to a name without an instance, and then the broker is fully wired; otherwise it raises the missing-target error naming the target of the first unresolvable service, after the services before it were wired; on success the registry holds the given catalog and one fresh instance per catalogued name, with its implementation, so `get_model` finds every catalogued name; cached responses are untouched either way |

## Left out

- PubSub.PubSubClient.Publish: requires a ghost rank on the whole callback table (`RankedBy`). By `CyclicChainHasNoRank`, one chain cycle anywhere in the table leaves no rank, so on such a broker no publish is covered, not even one to a plain topic that cannot reach the cycle. The source places no such requirement. On a cycle it recurses without end only while every stage returns: it then stops with CPython's `RecursionError`. If some `predict` on the cycle raises (for example because a stage's output fails the next stage's input schema), it stops with that error after finitely many publishes. The model does not cover either outcome.
- PubSub.PubSubClient.RunCallback: the same rank requirement on the whole table as `Publish`, with the same gap.
- Registry.ModelRegistry.InstantiateServices: service constructors are assumed not to raise. At model_registry.py:105 each catalogued class is constructed again with the real broker, and a constructor that loads a model (entity_recognition.py:27-31) can raise there. The source then propagates that exception before any topic is registered; the model always builds every instance.
- Registry.ModelRegistry.InitializeServices: assumes, like `InstantiateServices`, that no service constructor raises at model_registry.py:105. Its "success exactly when every chain target resolves" holds only under that assumption.
- Registry.NewModelRegistry: the same assumption. A registry whose service constructor raises at model_registry.py:105 is not modelled, so "construction returns a registry exactly when every chain target resolves" holds only when every constructor returns.
- The chained callback always publishes on the broker that holds it. In the source it uses the registry's broker, and the registry registers it on that same broker.
- The HTTP adapter (main.py): routing, status codes, logging, UUIDs and timestamps are plumbing over the core.
- The concrete services (entity recognition, entity linking, summarisation) wrap external models and libraries that are not part of this model. Each service is an arbitrary `Implementation`.
- Schema declarations (model_services/schemas.py) become the `inputSchema` function of an `Implementation`. pydantic's coercion rules are not modelled.
- `get_input_schema` and `get_output_schema` are not separate members. The input schema is `Implementation.inputSchema`, and the output schema plays no part in `predict`.
- Schema default factories (the `uuid4` ids of model_services/schemas.py:43 and :50) and inference steps (which may look things up over the network, such as Wikipedia for entity linking) are modelled as deterministic functions of their input.
- `Json` has integers but no floating-point numbers. Scores and other floats in the payloads are not represented.
- Logging and `json.dumps`: side effects only. The payloads are JSON values, so `json.dumps` cannot fail on them.
- The `message_id` parameter of `publish` is used only in a log line.
- `register` and `chain_to` build throw-away instances to learn class names. Building them can run heavy model loading, which can fail; the model takes a class's reported name as given.
- `issubclass` is a boolean attribute of `ServiceClass`, and abstract-class instantiation errors are not modelled: every `Implementation` supplies all abstract methods.
- Concurrency: interleaved requests and concurrent publishes to the same topic are not modelled. Calls are sequential.
- `model_names` reads the live catalog. A class registered after the registry was built is listed but has no instance, and the model reproduces this.
