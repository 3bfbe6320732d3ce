/** The model-service registry (model_registry.py): a catalog of service classes and of
    declared chains, filled by the `register` and `chain_to` decorators, and the registry
    object that instantiates every catalogued service and wires its trigger topic on the
    broker to plain `predict` or to the chained callback. */
module Registry {
  import opened Payloads
  import opened ServiceContract
  import opened PubSub
  import opened ModelServices

  /** A Python class handed to the decorators: its `__name__`, whether it inherits
      `ModelService`, the name its instances report, and its schema and inference step. */
  datatype ServiceClass = ServiceClass(
    className: string,
    inheritsModelService: bool,
    name: string,
    impl: Implementation)

  /** The class-level tables `_model_services` (kept as its keys in insertion order plus the
      name-to-class map) and `_chains` (source name to target name). */
  class Catalog {
    var names: seq<string>
    var classes: map<string, ServiceClass>
    var chains: map<string, string>

    ghost predicate Valid()
      reads this
    {
      && (forall i, j :: 0 <= i < j < |names| ==> names[i] != names[j])
      && (forall n :: n in classes <==> n in names)
      && (forall n :: n in classes ==> classes[n].name == n && classes[n].inheritsModelService)
    }

    constructor ()
      ensures Valid() && names == [] && classes == map[] && chains == map[]
    {
      names, classes, chains := [], map[], map[];
    }

    /** `register`: rejects a class that is not a `ModelService`; otherwise files it under
        the name its instances report, replacing an earlier class of that name, and returns
        it unchanged. */
    method Register(cls: ServiceClass) returns (r: Result<ServiceClass>)
      requires Valid()
      modifies this
      ensures Valid() && chains == old(chains)
      ensures !cls.inheritsModelService ==>
        r == Err(NotAModelService(cls.className)) && names == old(names) && classes == old(classes)
      ensures cls.inheritsModelService ==> r == Ok(cls) && classes == old(classes)[cls.name := cls]
      ensures cls.inheritsModelService ==>
        names == if cls.name in old(classes) then old(names) else old(names) + [cls.name]
    {
      if !cls.inheritsModelService {
        return Err(NotAModelService(cls.className));
      }
      if cls.name !in classes {
        names := names + [cls.name];
      }
      classes := classes[cls.name := cls];
      r := Ok(cls);
    }

    /** `chain_to(target)` applied to `source`: rejects a source that is not a
        `ModelService`; otherwise records `source.name -> target.name`, replacing an earlier
        chain from that source, and returns the source unchanged. */
    method ChainTo(target: ServiceClass, source: ServiceClass) returns (r: Result<ServiceClass>)
      modifies this
      ensures names == old(names) && classes == old(classes)
      ensures !source.inheritsModelService ==>
        r == Err(NotAModelService(source.className)) && chains == old(chains)
      ensures source.inheritsModelService ==>
        r == Ok(source) && chains == old(chains)[source.name := target.name]
    {
      if !source.inheritsModelService {
        return Err(NotAModelService(source.className));
      }
      chains := chains[source.name := target.name];
      r := Ok(source);
    }
  }

  /** A service is wired chained when it is a chain source; its target must have an instance. */
  predicate Broken(n: string, classes: map<string, ServiceClass>, chains: map<string, string>)
  {
    n in chains && chains[n] !in classes
  }

  /** The position of the first service, in catalog order, whose chain target has no
      instance; `|names|` when there is none. */
  function FirstBroken(names: seq<string>, classes: map<string, ServiceClass>,
                       chains: map<string, string>): (k: nat)
    ensures k <= |names|
    ensures forall j :: 0 <= j < k ==> !Broken(names[j], classes, chains)
    ensures k < |names| ==> Broken(names[k], classes, chains)
  {
    if names == [] then 0
    else if Broken(names[0], classes, chains) then 0
    else 1 + FirstBroken(names[1..], classes, chains)
  }

  /** The callback the registry registers for service `n`. */
  function HandlerFor(n: string, classes: map<string, ServiceClass>,
                      chains: map<string, string>): (h: Handler)
    requires n in classes
  {
    if n in chains then Chained(classes[n].impl, TriggerTopic(chains[n]))
    else Plain(classes[n].impl)
  }

  /** The callback table after registering the trigger topics of `names`, in order. */
  function Wire(queues: map<string, Option<Handler>>, names: seq<string>,
                classes: map<string, ServiceClass>, chains: map<string, string>)
    : (wired: map<string, Option<Handler>>)
    requires forall n :: n in names ==> n in classes
  {
    if names == [] then queues
    else
      var n := names[|names| - 1];
      Wire(queues, names[..|names| - 1], classes, chains)[TriggerTopic(n) := Some(HandlerFor(n, classes, chains))]
  }

  /** Wiring one more service registers its trigger topic on top of the earlier ones. */
  lemma WireSnoc(queues: map<string, Option<Handler>>, names: seq<string>, i: nat,
                 classes: map<string, ServiceClass>, chains: map<string, string>)
    requires forall m :: m in names ==> m in classes
    requires i < |names|
    ensures Wire(queues, names[..i + 1], classes, chains)
         == Wire(queues, names[..i], classes, chains)[TriggerTopic(names[i]) := Some(HandlerFor(names[i], classes, chains))]
  {
    assert names[..i + 1][..i] == names[..i];
  }

  /** After wiring, every wired service's trigger topic holds that service's callback, even
      if names repeat: the trigger topic of another name is never the same topic. */
  lemma {:induction false} WireAt(queues: map<string, Option<Handler>>, names: seq<string>,
                                  classes: map<string, ServiceClass>,
                                  chains: map<string, string>, n: string)
    requires forall m :: m in names ==> m in classes
    requires n in names
    ensures TriggerTopic(n) in Wire(queues, names, classes, chains)
    ensures Wire(queues, names, classes, chains)[TriggerTopic(n)] == Some(HandlerFor(n, classes, chains))
  {
    var m := names[|names| - 1];
    TriggerTopicInjective(m, n);
    if m != n {
      assert n in names[..|names| - 1];
      WireAt(queues, names[..|names| - 1], classes, chains, n);
    }
  }

  /** Wiring touches only trigger topics of wired services. */
  lemma {:induction false} WireElsewhere(queues: map<string, Option<Handler>>,
                                         names: seq<string>,
                                         classes: map<string, ServiceClass>,
                                         chains: map<string, string>, t: string)
    requires forall m :: m in names ==> m in classes
    requires forall m :: m in names ==> TriggerTopic(m) != t
    ensures t in Wire(queues, names, classes, chains) <==> t in queues
    ensures t in queues ==> Wire(queues, names, classes, chains)[t] == queues[t]
  {
    if names != [] {
      WireElsewhere(queues, names[..|names| - 1], classes, chains, t);
    }
  }

  /** Wiring never leaves a `None` callback behind. */
  lemma {:induction false} WireKeepsCallbacksSet(queues: map<string, Option<Handler>>,
                                                 names: seq<string>,
                                                 classes: map<string, ServiceClass>,
                                                 chains: map<string, string>)
    requires forall m :: m in names ==> m in classes
    requires AllCallbacksSet(queues)
    ensures AllCallbacksSet(Wire(queues, names, classes, chains))
  {
    if names != [] {
      WireKeepsCallbacksSet(queues, names[..|names| - 1], classes, chains);
    }
  }

  /** `rank` orders the declared chains among `names`: every chain leads to a name of lower
      rank, i.e. following chains from any service never comes back to it. */
  ghost predicate ChainsRankedBy(names: seq<string>, chains: map<string, string>,
                                 rank: map<string, nat>)
  {
    forall n :: n in names ==>
      && n in rank
      && (n in chains ==> chains[n] in rank && rank[chains[n]] < rank[n])
  }

  /** A rank on names carried over to their trigger topics. */
  ghost function TopicRank(rank: map<string, nat>): (topicRank: map<string, nat>)
    ensures forall n :: n in rank ==>
      TriggerTopic(n) in topicRank && topicRank[TriggerTopic(n)] == rank[n]
  {
    TriggerTopicInjectiveAll();
    map n | n in rank :: TriggerTopic(n) := rank[n]
  }

  /** Wiring a fresh broker from acyclic chain declarations yields a callback table on which
      every publish finishes: the chain rank on names ranks the wired topics. */
  lemma {:induction false} WiredRanked(names: seq<string>, classes: map<string, ServiceClass>,
                                           chains: map<string, string>, rank: map<string, nat>)
    requires forall n :: n in names ==> n in classes
    requires ChainsRankedBy(names, chains, rank)
    ensures RankedBy(Wire(map[], names, classes, chains), TopicRank(rank))
  {
    var wired := Wire(map[], names, classes, chains);
    var topicRank := TopicRank(rank);
    forall t | t in wired
      ensures t in topicRank
      ensures wired[t].Some? && wired[t].value.Chained? ==>
        wired[t].value.targetTopic in topicRank
        && topicRank[wired[t].value.targetTopic] < topicRank[t]
    {
      if forall m :: m in names ==> TriggerTopic(m) != t {
        WireElsewhere(map[], names, classes, chains, t);
        assert false;
      }
      var n :| n in names && TriggerTopic(n) == t;
      WireAt(map[], names, classes, chains, n);
    }
  }

  /** Publishing to a wired service's trigger topic runs that service as a pipeline stage:
      an unchained service returns its `predict` result and sets off no other publish; a
      chained one whose `predict` returns `y` publishes `y` exactly once, to its target's
      trigger topic, and when that returns, both topics cache their own results. */
  lemma WiredPublish(queues: map<string, Option<Handler>>, names: seq<string>,
                     classes: map<string, ServiceClass>, chains: map<string, string>,
                     last: map<string, Json>, n: string, message: Json, rank: map<string, nat>)
    requires forall m :: m in names ==> m in classes
    requires n in names
    requires RankedBy(Wire(queues, names, classes, chains), rank)
    ensures var o := Run(Wire(queues, names, classes, chains), last, TriggerTopic(n), message, rank);
      n !in chains ==>
        && o.result == Predict(classes[n].impl, message)
        && o.trace == [Call(TriggerTopic(n), message)]
    ensures var o := Run(Wire(queues, names, classes, chains), last, TriggerTopic(n), message, rank);
      n in chains && Predict(classes[n].impl, message).Err? ==>
        o == Outcome(Predict(classes[n].impl, message), last, [Call(TriggerTopic(n), message)])
    ensures var wired := Wire(queues, names, classes, chains);
      var o := Run(wired, last, TriggerTopic(n), message, rank);
      n in chains && Predict(classes[n].impl, message).Ok? ==>
        var y := Predict(classes[n].impl, message).value;
        var target := TriggerTopic(chains[n]);
        var d := Run(wired, last, target, y, rank);
        && |o.trace| >= 2 && o.trace[1] == Call(target, y)
        && (forall k :: 0 <= k < |o.trace| && k != 1 ==> o.trace[k].topic != target)
        && (d.result.Ok? ==>
              o.result == Ok(y)
              && Cached(o.last, TriggerTopic(n)) == Some(y)
              && Cached(o.last, target) == Some(d.result.value))
        && (d.result.Err? ==> o.result == d.result && o.last == last)
  {
    var wired := Wire(queues, names, classes, chains);
    var topic := TriggerTopic(n);
    var impl := classes[n].impl;
    WireAt(queues, names, classes, chains, n);
    if n in chains {
      var target := TriggerTopic(chains[n]);
      RunChained(wired, last, topic, message, rank, impl, target);
      var p := Predict(impl, message);
      if p.Ok? {
        RunCache(wired, last, target, p.value, rank);
      }
    } else {
      RunPlain(wired, last, topic, message, rank, impl);
    }
  }

  class ModelRegistry {
    /** The class-level catalog the registry instantiates from. */
    const catalog: Catalog
    /** `_pubsub_client`. */
    const pubsubClient: PubSubClient
    /** `_service_instances`: name to constructed service. */
    var instances: map<string, ModelService>

    /** Every instance is filed under its own name and bound to this registry's broker. */
    ghost predicate Valid()
      reads this
    {
      forall n :: n in instances ==>
        && instances[n].name == n && instances[n].triggerTopic == TriggerTopic(n)
        && instances[n].pubsubClient == pubsubClient
    }

    /** `__init__` up to the call of `_initialize_services`. */
    constructor (catalog: Catalog, pubsubClient: PubSubClient)
      ensures this.catalog == catalog && this.pubsubClient == pubsubClient
      ensures instances == map[] && Valid()
    {
      this.catalog := catalog;
      this.pubsubClient := pubsubClient;
      instances := map[];
    }

    /** `_initialize_services`: one instance per catalog entry, then each trigger topic is
        registered in catalog order; a chain whose target has no instance raises at that
        service, after the services before it were registered. */
    method InitializeServices() returns (r: Status)
      requires catalog.Valid()
      modifies this, pubsubClient
      ensures Valid()
      ensures forall n :: n in instances <==> n in catalog.classes
      ensures forall n :: n in instances ==>
        fresh(instances[n]) && instances[n].impl == catalog.classes[n].impl
      ensures pubsubClient.lastResponses == old(pubsubClient.lastResponses)
      ensures pubsubClient.log == old(pubsubClient.log)
      ensures var k := FirstBroken(catalog.names, catalog.classes, catalog.chains);
        && r == (if k == |catalog.names| then Pass
                 else Fail(MissingChainTarget(catalog.chains[catalog.names[k]])))
        && pubsubClient.queues
           == Wire(old(pubsubClient.queues), catalog.names[..k], catalog.classes, catalog.chains)
    {
      InstantiateServices();
      r := RegisterTopics();
    }

    /** The first loop of `_initialize_services`: one fresh instance per catalog entry,
        filed under its name and bound to the broker. */
    method InstantiateServices()
      requires catalog.Valid()
      modifies this
      ensures Valid()
      ensures forall n :: n in instances <==> n in catalog.classes
      ensures forall n :: n in instances ==>
        fresh(instances[n]) && instances[n].impl == catalog.classes[n].impl
    {
      var names := catalog.names;
      instances := map[];
      var i := 0;
      while i < |names|
        invariant 0 <= i <= |names|
        invariant forall n :: n in instances <==> n in names[..i]
        invariant forall n :: n in instances ==>
          && fresh(instances[n]) && instances[n].name == n
          && instances[n].triggerTopic == TriggerTopic(n)
          && instances[n].impl == catalog.classes[n].impl
          && instances[n].pubsubClient == pubsubClient
      {
        var cls := catalog.classes[names[i]];
        var service := new ModelService(cls.name, cls.impl, pubsubClient);
        instances := instances[service.name := service];
        assert names[..i + 1] == names[..i] + [names[i]];
        i := i + 1;
      }
      assert names[..|names|] == names;
    }

    /** The second loop of `_initialize_services`: registers each instance's trigger topic,
        in catalog order, with plain `predict` or the chained callback. */
    method RegisterTopics() returns (r: Status)
      requires catalog.Valid() && Valid()
      requires forall n :: n in instances <==> n in catalog.classes
      requires forall n :: n in instances ==> instances[n].impl == catalog.classes[n].impl
      modifies pubsubClient
      ensures pubsubClient.lastResponses == old(pubsubClient.lastResponses)
      ensures pubsubClient.log == old(pubsubClient.log)
      ensures var k := FirstBroken(catalog.names, catalog.classes, catalog.chains);
        && r == (if k == |catalog.names| then Pass
                 else Fail(MissingChainTarget(catalog.chains[catalog.names[k]])))
        && pubsubClient.queues
           == Wire(old(pubsubClient.queues), catalog.names[..k], catalog.classes, catalog.chains)
    {
      var names := catalog.names;
      ghost var classes, chains := catalog.classes, catalog.chains;
      ghost var k := FirstBroken(names, classes, chains);
      ghost var initial := pubsubClient.queues;
      var i := 0;
      while i < |names|
        invariant 0 <= i <= k
        invariant pubsubClient.queues == Wire(initial, names[..i], classes, chains)
        invariant pubsubClient.lastResponses == old(pubsubClient.lastResponses)
        invariant pubsubClient.log == old(pubsubClient.log)
      {
        var name := names[i];
        var service := instances[name];
        var callback: Handler;
        if name in catalog.chains {
          var targetName := catalog.chains[name];
          if targetName !in instances {
            assert Broken(name, classes, chains) && i == k;
            return Fail(MissingChainTarget(targetName));
          }
          callback := Chained(service.impl, instances[targetName].triggerTopic);
        } else {
          callback := Plain(service.impl);
        }
        assert callback == HandlerFor(name, classes, chains);
        pubsubClient.RegisterTopic(service.triggerTopic, callback);
        WireSnoc(initial, names, i, classes, chains);
        i := i + 1;
      }
      r := Pass;
    }

    /** `get_model`: the instance constructed under `name`, or the "not found" error. */
    function GetModel(name: string): (r: Result<ModelService>)
      reads this
      ensures r.Ok? <==> name in instances
      ensures r.Ok? ==> r.value == instances[name]
      ensures r.Err? ==> r.error == ModelNotFound(name)
      ensures Valid() && r.Ok? ==> r.value.name == name
    {
      if name !in instances then Err(ModelNotFound(name)) else Ok(instances[name])
    }

    /** `model_names`: the catalog's names, each once, in registration order. */
    function ModelNames(): (names: seq<string>)
      reads this, catalog
      requires catalog.Valid()
      ensures forall n :: n in names <==> n in catalog.classes
      ensures forall i, j :: 0 <= i < j < |names| ==> names[i] != names[j]
    {
      catalog.names
    }
  }

  /** `ModelRegistry(pubsub_client)`: construction either returns a fully wired registry or
      raises the error of `_initialize_services`. */
  method NewModelRegistry(catalog: Catalog, pubsubClient: PubSubClient)
    returns (r: Result<ModelRegistry>)
    requires catalog.Valid()
    modifies pubsubClient
    ensures r.Ok? <==> forall n :: n in catalog.names ==> !Broken(n, catalog.classes, catalog.chains)
    ensures r.Err? ==> r.error.MissingChainTarget? && r.error.name !in catalog.classes
    ensures r.Ok? ==> r.value.Valid() && fresh(r.value) && r.value.pubsubClient == pubsubClient
    ensures r.Ok? ==>
      pubsubClient.queues
      == Wire(old(pubsubClient.queues), catalog.names, catalog.classes, catalog.chains)
    ensures r.Ok? ==> r.value.catalog == catalog
    ensures r.Ok? ==> forall n :: n in r.value.instances <==> n in catalog.classes
    ensures r.Ok? ==> forall n :: n in r.value.instances ==>
      fresh(r.value.instances[n]) && r.value.instances[n].impl == catalog.classes[n].impl
    ensures var k := FirstBroken(catalog.names, catalog.classes, catalog.chains);
      r.Err? ==>
        && r.error == MissingChainTarget(catalog.chains[catalog.names[k]])
        && pubsubClient.queues
           == Wire(old(pubsubClient.queues), catalog.names[..k], catalog.classes, catalog.chains)
    ensures pubsubClient.lastResponses == old(pubsubClient.lastResponses)
    ensures pubsubClient.log == old(pubsubClient.log)
  {
    var registry := new ModelRegistry(catalog, pubsubClient);
    var status := registry.InitializeServices();
    if status.Fail? {
      return Err(status.error);
    }
    assert catalog.names[..|catalog.names|] == catalog.names;
    r := Ok(registry);
  }
}
