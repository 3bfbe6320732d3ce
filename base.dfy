/** `ModelService` (model_services/base.py): a constructed service, bound to the broker it
    publishes through. Its name, trigger topic and broker are set once by the constructor
    and never change, which the `const` fields enforce. */
module ModelServices {
  import opened ServiceContract
  import PubSub

  class ModelService {
    /** `name`: the service's identity. */
    const name: string
    /** `trigger_topic`: the topic the service listens on as a pipeline stage. */
    const triggerTopic: string
    /** `pubsub_client`: the broker (`None` for the throw-away instances the registry's
        decorators build to learn a class's name). */
    const pubsubClient: PubSub.PubSubClient?
    /** The subclass's schema, inference step and serialiser. The instance's `predict` is
        `ServiceContract.Predict(impl, ·)`, a function of `impl` alone: it reads no mutable
        state, so it cannot publish or touch the broker. */
    const impl: Implementation

    constructor (name: string, impl: Implementation, pubsubClient: PubSub.PubSubClient?)
      ensures this.name == name && this.impl == impl && this.pubsubClient == pubsubClient
      ensures triggerTopic == TriggerTopic(name)
    {
      this.name := name;
      this.triggerTopic := TriggerTopic(name);
      this.pubsubClient := pubsubClient;
      this.impl := impl;
    }
  }
}
