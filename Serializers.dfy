/**
 * The back end's check on a saved simulation state's payload: it must be a
 * JSON object, and its JSON text at most 200000 characters long.
 *
 * Python's `json.dumps` is a parameter, `dumps`.
 */
module Serializers {
  import opened Wrappers
  import opened Js

  /** The largest accepted length of a payload's JSON text. */
  const MaxPayloadLength: nat := 200000

  const NotAnObject: string := "payload must be a JSON object"
  const TooLarge: string := "payload too large"

  /** SimStateSerializer.validate_payload: the payload itself, or the validation error it raises. */
  function ValidatePayload(value: Value, dumps: Value -> string): (r: Result<Value, string>)
    ensures !value.Obj? ==> r == Err(NotAnObject)
    ensures value.Obj? && |dumps(value)| > MaxPayloadLength ==> r == Err(TooLarge)
    ensures r.Ok? <==> value.Obj? && |dumps(value)| <= MaxPayloadLength
    ensures r.Ok? ==> r.value == value
  {
    if !value.Obj? then Err(NotAnObject)
    else if |dumps(value)| > MaxPayloadLength then Err(TooLarge)
    else Ok(value)
  }

  /** A payload whose text is exactly at the limit is accepted. */
  lemma LimitIsInclusive(fields: map<string, Value>, dumps: Value -> string)
    requires |dumps(Obj(fields))| == MaxPayloadLength
    ensures ValidatePayload(Obj(fields), dumps) == Ok(Obj(fields))
  {
  }

  /** The type check comes first: a non-object is refused the same way whatever its text would be. */
  lemma TypeCheckFirst(value: Value, d1: Value -> string, d2: Value -> string)
    requires !value.Obj?
    ensures ValidatePayload(value, d1) == ValidatePayload(value, d2) == Err(NotAnObject)
  {
  }
}
