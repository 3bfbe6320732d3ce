/** Values that flow between model services and the broker, and the errors the core raises. */
module Payloads {

  /** A JSON-like document: the Python `dict` payloads and their contents. */
  datatype Json =
    | Null
    | Bool(b: bool)
    | Num(n: int)
    | Str(s: string)
    | Arr(items: seq<Json>)
    | Obj(fields: map<string, Json>)

  /** The empty dictionary `{}`. */
  const EmptyObject: Json := Obj(map[])

  /** The exceptions the core raises, one constructor per raise site. */
  datatype Error =
    | UnknownTopic(topic: string)          // ValueError: publish on a topic never registered
    | NoCallback(topic: string)            // ValueError: topic registered but its callback is None
    | ModelNotFound(name: string)          // ValueError: get_model on a name that was not constructed
    | NotAModelService(className: string)  // TypeError: a decorated class does not inherit ModelService
    | MissingChainTarget(name: string)     // KeyError: a chain names a target with no constructed instance
    | NotAMapping                          // TypeError: the raw input cannot be unpacked as keyword arguments
    | ValidationError                      // pydantic.ValidationError: input does not fit the input schema
    | InferenceError(reason: string)       // whatever a service's own inference step raises

  /** A value that may be absent (Python `None`). */
  datatype Option<+T> = None | Some(value: T)

  /** A call that returns a value or raises. */
  datatype Result<+T> = Ok(value: T) | Err(error: Error)

  /** A call that returns nothing or raises. */
  datatype Status = Pass | Fail(error: Error)
}
