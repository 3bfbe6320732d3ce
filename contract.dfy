/** The part of `ModelService` (model_services/base.py) that every service shares and that
    does not touch the broker: the trigger-topic naming rule and the `predict` wrapper
    around a service's own inference step. */
module ServiceContract {
  import opened Payloads

  /** What a concrete service subclass supplies: its input schema (building the schema
      instance from a raw dict, or failing validation), its `_predict` inference step, and
      the `model_dump` serialisation of its output instances. */
  datatype Implementation = Implementation(
    inputSchema: Json -> Option<Json>,
    infer: Json -> Inference,
    dump: Json -> Json)

  /** What an inference step does: return an output instance, or raise with a reason. */
  datatype Inference = Output(instance: Json) | Raised(reason: string)

  /** Every trigger topic is the service name followed by this suffix. */
  const TriggerSuffix: string := "-trigger"

  /** The topic a service listens on when it runs as a pipeline stage. */
  function TriggerTopic(name: string): (topic: string)
    ensures |topic| == |name| + |TriggerSuffix|
    ensures topic[..|name|] == name && topic[|name|..] == TriggerSuffix
  {
    name + TriggerSuffix
  }

  /** Distinct service names never share a trigger topic. */
  lemma TriggerTopicInjective(a: string, b: string)
    ensures TriggerTopic(a) == TriggerTopic(b) ==> a == b
  {
    if TriggerTopic(a) == TriggerTopic(b) {
      assert a == TriggerTopic(a)[..|a|];
      assert b == TriggerTopic(b)[..|b|];
    }
  }

  /** Trigger topics of distinct names differ, for all names at once. */
  lemma TriggerTopicInjectiveAll()
    ensures forall a, b :: TriggerTopic(a) == TriggerTopic(b) ==> a == b
  {
    forall a, b | TriggerTopic(a) == TriggerTopic(b) ensures a == b {
      TriggerTopicInjective(a, b);
    }
  }

  /** The `predict` wrapper: unpack the raw input as keyword arguments (only a dictionary
      can be unpacked), validate it against the input schema, run the inference step on the
      schema instance, serialise its output. Both input errors are raised before inference
      runs; an inference error passes through with its reason. */
  function Predict(impl: Implementation, input: Json): (r: Result<Json>)
    ensures !input.Obj? ==> r == Err(NotAMapping)
    ensures input.Obj? && impl.inputSchema(input).None? ==> r == Err(ValidationError)
    ensures r.Ok? <==>
      input.Obj? && impl.inputSchema(input).Some?
      && impl.infer(impl.inputSchema(input).value).Output?
    ensures r.Ok? ==> r.value == impl.dump(impl.infer(impl.inputSchema(input).value).instance)
    ensures input.Obj? && impl.inputSchema(input).Some?
            && impl.infer(impl.inputSchema(input).value).Raised? ==>
      r == Err(InferenceError(impl.infer(impl.inputSchema(input).value).reason))
    ensures r.Err? ==> r.error.NotAMapping? || r.error.ValidationError? || r.error.InferenceError?
  {
    if !input.Obj? then Err(NotAMapping)
    else
      match impl.inputSchema(input)
      case None => Err(ValidationError)
      case Some(instance) =>
        match impl.infer(instance)
        case Raised(reason) => Err(InferenceError(reason))
        case Output(output) => Ok(impl.dump(output))
  }

  /** On input that is not a dictionary or that the schema rejects, neither the inference
      step nor the serialiser is consulted: any other pair of them gives the same failure. */
  lemma PredictRejectsBeforeInference(
    impl: Implementation, infer: Json -> Inference, dump: Json -> Json, input: Json)
    requires !input.Obj? || impl.inputSchema(input).None?
    ensures Predict(impl, input) == Predict(Implementation(impl.inputSchema, infer, dump), input)
    ensures Predict(impl, input) == if input.Obj? then Err(ValidationError) else Err(NotAMapping)
  {
  }

  /** The inference step sees only the schema instance: two raw dictionaries that validate
      to the same instance give the same prediction (and so do two non-dictionaries). */
  lemma PredictSeesOnlySchemaInstance(impl: Implementation, x: Json, y: Json)
    requires x.Obj? == y.Obj?
    requires impl.inputSchema(x) == impl.inputSchema(y)
    ensures Predict(impl, x) == Predict(impl, y)
  {
  }
}
