/** The in-process broker (pubsub.py): one callback per topic and the last response each
    topic produced. Callbacks are values of `Handler`, interpreted here: plain `predict`, or
    the registry's chained callback, which publishes its output once more on this broker. */
module PubSub {
  import opened Payloads
  import opened ServiceContract

  /** A registered callback: a service's `predict`, or `predict` followed by one publish of
      its output to `targetTopic` (the chained callback of model_registry.py). */
  datatype Handler =
    | Plain(impl: Implementation)
    | Chained(impl: Implementation, targetTopic: string)

  /** One call of `publish`, as the broker received it. */
  datatype Call = Call(topic: string, message: Json)

  /** What a publish does, all told: its result (or the exception it raises), the last-response
      table afterwards, and every publish it set off, itself first, in the order they started. */
  datatype Outcome = Outcome(result: Result<Json>, last: map<string, Json>, trace: seq<Call>)

  /** No registered topic is left with a `None` callback. */
  predicate AllCallbacksSet(queues: map<string, Option<Handler>>)
  {
    forall t :: t in queues ==> queues[t].Some?
  }

  /** `rank` orders the chain graph: every chained callback publishes to a topic of lower
      rank, which is what makes a publish finish. If following chains ever comes back to a
      topic, no such rank exists (`CyclicChainHasNoRank`). */
  ghost predicate RankedBy(queues: map<string, Option<Handler>>, rank: map<string, nat>)
  {
    && queues.Keys <= rank.Keys
    && forall t :: t in queues && queues[t].Some? && queues[t].value.Chained? ==>
         queues[t].value.targetTopic in rank && rank[queues[t].value.targetTopic] < rank[t]
  }

  /** The topics a trace publishes to. */
  function Topics(trace: seq<Call>): (topics: set<string>)
  {
    set c | c in trace :: c.topic
  }

  /** The cached response of a topic, if there is one. */
  function Cached(last: map<string, Json>, topic: string): (cached: Option<Json>)
  {
    if topic in last then Some(last[topic]) else None
  }

  /** `publish(topic, message)` on a broker with callback table `queues` and last-response
      table `last`: unknown topic and `None` callback raise; otherwise the callback runs and,
      only if it returns, its result is stored as the topic's last response. */
  function Run(queues: map<string, Option<Handler>>, last: map<string, Json>, topic: string,
               message: Json, rank: map<string, nat>): (o: Outcome)
    requires RankedBy(queues, rank)
    decreases if topic in rank then rank[topic] else 0, 1
  {
    var entry := [Call(topic, message)];
    if topic !in queues then Outcome(Err(UnknownTopic(topic)), last, entry)
    else if queues[topic].None? then Outcome(Err(NoCallback(topic)), last, entry)
    else
      var o := Dispatch(queues, last, topic, message, rank);
      if o.result.Ok? then Outcome(o.result, o.last[topic := o.result.value], entry + o.trace)
      else Outcome(o.result, o.last, entry + o.trace)
  }

  /** Running the callback registered at `at`. A chained callback publishes the output of
      `predict` to its target topic and, if that publish returns, returns the same output;
      errors from `predict` or from the downstream publish propagate. */
  function Dispatch(queues: map<string, Option<Handler>>, last: map<string, Json>, at: string,
                    message: Json, rank: map<string, nat>): (o: Outcome)
    requires RankedBy(queues, rank) && at in queues && queues[at].Some?
    decreases rank[at], 0
  {
    match queues[at].value
    case Plain(impl) => Outcome(Predict(impl, message), last, [])
    case Chained(impl, target) =>
      match Predict(impl, message)
      case Err(e) => Outcome(Err(e), last, [])
      case Ok(output) =>
        var d := Run(queues, last, target, output, rank);
        if d.result.Ok? then Outcome(Ok(output), d.last, d.trace) else d
  }

  class PubSubClient {
    /** `_message_queues`: topic to callback (`None` only transiently, inside `RegisterTopic`). */
    var queues: map<string, Option<Handler>>
    /** `_last_responses`: topic to the result of its last successful publish. */
    var lastResponses: map<string, Json>
    /** Every publish call this broker has received, in order. */
    ghost var log: seq<Call>

    ghost predicate Valid()
      reads this
    {
      AllCallbacksSet(queues)
    }

    constructor ()
      ensures queues == map[] && lastResponses == map[] && log == []
      ensures Valid()
    {
      queues := map[];
      lastResponses := map[];
      log := [];
    }

    /** Adds or replaces the callback of `topic` (last writer wins); never raises. */
    method RegisterTopic(topic: string, callback: Handler)
      modifies this
      ensures queues == old(queues)[topic := Some(callback)]
      ensures lastResponses == old(lastResponses) && log == old(log)
      ensures old(Valid()) ==> Valid()
    {
      if topic !in queues {
        queues := queues[topic := None];
      }
      queues := queues[topic := Some(callback)];
    }

    /** Publishes `message` to `topic` and returns the callback's result. */
    method Publish(topic: string, message: Json, ghost rank: map<string, nat>)
      returns (r: Result<Json>)
      requires RankedBy(queues, rank)
      modifies this
      decreases if topic in rank then rank[topic] else 0, 1
      ensures queues == old(queues)
      ensures r == Run(old(queues), old(lastResponses), topic, message, rank).result
      ensures lastResponses == Run(old(queues), old(lastResponses), topic, message, rank).last
      ensures log == old(log) + Run(old(queues), old(lastResponses), topic, message, rank).trace
    {
      log := log + [Call(topic, message)];
      if topic !in queues {
        return Err(UnknownTopic(topic));
      }
      var callback := queues[topic];
      if callback.None? {
        return Err(NoCallback(topic));
      }
      r := RunCallback(callback.value, message, topic, rank);
      if r.Ok? {
        lastResponses := lastResponses[topic := r.value];
      }
    }

    /** Awaits the callback `callback`, registered at topic `at`, on `message`. */
    method RunCallback(callback: Handler, message: Json, ghost at: string,
                       ghost rank: map<string, nat>)
      returns (r: Result<Json>)
      requires RankedBy(queues, rank) && at in queues && queues[at] == Some(callback)
      modifies this
      decreases rank[at], 0
      ensures queues == old(queues)
      ensures r == Dispatch(old(queues), old(lastResponses), at, message, rank).result
      ensures lastResponses == Dispatch(old(queues), old(lastResponses), at, message, rank).last
      ensures log == old(log) + Dispatch(old(queues), old(lastResponses), at, message, rank).trace
    {
      match callback
      case Plain(impl) =>
        r := Predict(impl, message);
      case Chained(impl, target) =>
        var output := Predict(impl, message);
        if output.Err? {
          return output;
        }
        var downstream := Publish(target, output.value, rank);
        r := if downstream.Ok? then output else downstream;
    }

    /** `get_last_response`: the cached result of the topic's last successful publish, `{}`
        when there is none. Never raises and changes nothing. It reads the table through
        `Cached`, so the cache lemmas below speak about what it returns. */
    function GetLastResponse(topic: string): (r: Json)
      reads this
      ensures topic in lastResponses ==> r == lastResponses[topic]
      ensures topic !in lastResponses ==> r == EmptyObject
    {
      match Cached(lastResponses, topic)
      case Some(response) => response
      case None => EmptyObject
    }
  }

  /** Cache correctness: a publish that raises leaves the last-response table as it was
      (every store comes after its callback returned); one that returns caches its result
      under its topic; and no topic outside the publishes it set off changes. */
  lemma {:induction false} RunCache(queues: map<string, Option<Handler>>, last: map<string, Json>,
                                    topic: string, message: Json, rank: map<string, nat>)
    requires RankedBy(queues, rank)
    decreases if topic in rank then rank[topic] else 0
    ensures var o := Run(queues, last, topic, message, rank);
      && (o.result.Err? ==> o.last == last)
      && (o.result.Ok? ==> Cached(o.last, topic) == Some(o.result.value))
      && (forall t :: t !in Topics(o.trace) ==> Cached(o.last, t) == Cached(last, t))
  {
    var o := Run(queues, last, topic, message, rank);
    if topic in queues && queues[topic].Some? {
      var h := queues[topic].value;
      var p := Predict(h.impl, message);
      if h.Chained? && p.Ok? {
        var d := Run(queues, last, h.targetTopic, p.value, rank);
        RunCache(queues, last, h.targetTopic, p.value, rank);
        assert Dispatch(queues, last, topic, message, rank).trace == d.trace;
        assert o.trace == [Call(topic, message)] + d.trace;
        assert Topics(o.trace) == {topic} + Topics(d.trace);
      }
    }
  }

  /** The publishes a publish sets off: itself first, then only topics of strictly lower
      rank, so no topic is published to twice in one call chain. */
  lemma {:induction false} RunTrace(queues: map<string, Option<Handler>>, last: map<string, Json>,
                                    topic: string, message: Json, rank: map<string, nat>)
    requires RankedBy(queues, rank)
    decreases if topic in rank then rank[topic] else 0
    ensures var o := Run(queues, last, topic, message, rank);
      && |o.trace| >= 1 && o.trace[0] == Call(topic, message)
      && (forall k :: 1 <= k < |o.trace| ==>
            topic in rank && o.trace[k].topic in rank && rank[o.trace[k].topic] < rank[topic])
      && (forall i, j :: 0 <= i < j < |o.trace| ==> o.trace[i].topic != o.trace[j].topic)
  {
    var o := Run(queues, last, topic, message, rank);
    if topic in queues && queues[topic].Some? {
      var h := queues[topic].value;
      var p := Predict(h.impl, message);
      if h.Chained? && p.Ok? {
        var d := Run(queues, last, h.targetTopic, p.value, rank);
        RunTrace(queues, last, h.targetTopic, p.value, rank);
        assert o.trace == [Call(topic, message)] + d.trace;
        forall k | 1 <= k < |o.trace|
          ensures o.trace[k].topic in rank && rank[o.trace[k].topic] < rank[topic]
        {
          assert o.trace[k] == d.trace[k - 1];
        }
      }
    }
  }

  /** On a table with no `None` callback the "no callback" error cannot be raised, by this
      publish or by any publish it sets off. */
  lemma {:induction false} RunNeverMissesCallback(queues: map<string, Option<Handler>>,
                                                  last: map<string, Json>, topic: string,
                                                  message: Json, rank: map<string, nat>)
    requires RankedBy(queues, rank) && AllCallbacksSet(queues)
    decreases if topic in rank then rank[topic] else 0
    ensures Run(queues, last, topic, message, rank).result.Err? ==>
            !Run(queues, last, topic, message, rank).result.error.NoCallback?
  {
    if topic in queues {
      var h := queues[topic].value;
      var p := Predict(h.impl, message);
      if h.Chained? && p.Ok? {
        var d := Run(queues, last, h.targetTopic, p.value, rank);
        RunNeverMissesCallback(queues, last, h.targetTopic, p.value, rank);
        assert Dispatch(queues, last, topic, message, rank).result
            == if d.result.Ok? then p else d.result;
      }
    }
  }

  /** Publishing to a topic never registered raises and changes no table. */
  lemma RunUnknownTopic(queues: map<string, Option<Handler>>, last: map<string, Json>,
                        topic: string, message: Json, rank: map<string, nat>)
    requires RankedBy(queues, rank) && topic !in queues
    ensures Run(queues, last, topic, message, rank)
         == Outcome(Err(UnknownTopic(topic)), last, [Call(topic, message)])
  {
  }

  /** A topic whose callback is plain `predict`: the publish returns exactly what `predict`
      returns, caches it if it returned, and sets off no further publish. */
  lemma RunPlain(queues: map<string, Option<Handler>>, last: map<string, Json>, topic: string,
                 message: Json, rank: map<string, nat>, impl: Implementation)
    requires RankedBy(queues, rank) && topic in queues && queues[topic] == Some(Plain(impl))
    ensures var o := Run(queues, last, topic, message, rank);
      && o.result == Predict(impl, message)
      && o.trace == [Call(topic, message)]
      && o.last == if o.result.Ok? then last[topic := o.result.value] else last
  {
  }

  /** A topic whose callback is chained to `target`: if `predict` raises, nothing else is
      published and nothing cached; otherwise its output `y` is published exactly once, to
      `target`, right after the publish itself, and the callback returns `y` unchanged
      unless that downstream publish raised. */
  lemma RunChained(queues: map<string, Option<Handler>>, last: map<string, Json>, topic: string,
                   message: Json, rank: map<string, nat>, impl: Implementation, target: string)
    requires RankedBy(queues, rank) && topic in queues
    requires queues[topic] == Some(Chained(impl, target))
    ensures var o := Run(queues, last, topic, message, rank);
      Predict(impl, message).Err? ==>
        o == Outcome(Predict(impl, message), last, [Call(topic, message)])
    ensures var o := Run(queues, last, topic, message, rank);
      Predict(impl, message).Ok? ==>
        var y := Predict(impl, message).value;
        var d := Run(queues, last, target, y, rank);
        && o.trace == [Call(topic, message)] + d.trace
        && |o.trace| >= 2 && o.trace[1] == Call(target, y)
        && (forall k :: 0 <= k < |o.trace| && k != 1 ==> o.trace[k].topic != target)
        && (d.result.Ok? ==> o.result == Ok(y) && o.last == d.last[topic := y])
        && (d.result.Err? ==> o.result == d.result && o.last == last)
  {
    var p := Predict(impl, message);
    if p.Ok? {
      RunTrace(queues, last, topic, message, rank);
      RunTrace(queues, last, target, p.value, rank);
      RunCache(queues, last, target, p.value, rank);
    }
  }

  /** Two publishes to the same topic: the cache holds the second result if the second
      returned, and still the first result if only the first returned. */
  lemma LastPublishWins(queues: map<string, Option<Handler>>, last: map<string, Json>,
                        topic: string, first: Json, second: Json, rank: map<string, nat>)
    requires RankedBy(queues, rank)
    ensures var o1 := Run(queues, last, topic, first, rank);
      var o2 := Run(queues, o1.last, topic, second, rank);
      && (o2.result.Ok? ==> Cached(o2.last, topic) == Some(o2.result.value))
      && (o1.result.Ok? && o2.result.Err? ==> Cached(o2.last, topic) == Some(o1.result.value))
  {
    var o1 := Run(queues, last, topic, first, rank);
    RunCache(queues, last, topic, first, rank);
    RunCache(queues, o1.last, topic, second, rank);
  }

  /** `path` follows chains: each of its topics except the last holds a chained callback
      whose target is the next topic. */
  ghost predicate ChainPath(queues: map<string, Option<Handler>>, path: seq<string>)
  {
    forall i :: 0 <= i < |path| - 1 ==>
      path[i] in queues && queues[path[i]].Some? && queues[path[i]].value.Chained?
      && queues[path[i]].value.targetTopic == path[i + 1]
  }

  /** Along a chain path the rank never grows. */
  lemma {:induction false} ChainPathDescends(queues: map<string, Option<Handler>>,
                                             rank: map<string, nat>, path: seq<string>)
    requires RankedBy(queues, rank) && ChainPath(queues, path)
    requires |path| >= 1 && path[0] in rank && path[|path| - 1] in rank
    ensures rank[path[|path| - 1]] <= rank[path[0]]
  {
    if |path| > 1 {
      assert path[0] in queues;
      ChainPathDescends(queues, rank, path[1..]);
    }
  }

  /** A chain that leads back to where it started, through any number of topics, admits no
      rank: publishing on it would not finish, so no publish on it is modelled. */
  lemma CyclicChainHasNoRank(queues: map<string, Option<Handler>>, rank: map<string, nat>,
                             path: seq<string>)
    requires |path| >= 1 && ChainPath(queues, path)
    requires var end := path[|path| - 1];
      end in queues && queues[end].Some? && queues[end].value.Chained?
      && queues[end].value.targetTopic == path[0]
    ensures !RankedBy(queues, rank)
  {
    if RankedBy(queues, rank) {
      ChainPathDescends(queues, rank, path);
    }
  }
}
