/**
  What the request binders share: decoded JSON values, the binders' errors, the
  billing service's responses, and the request object a binder writes into.
 */
module BinderCommon {

  import opened Wrappers
  import Text

  /** A decoded JSON value (numbers are float64 in the decoder's output). */
  datatype Json =
    | JNull
    | JBool(b: bool)
    | JNumber(n: real)
    | JString(s: string)
    | JArray(items: seq<Json>)
    | JObject(fields: map<string, Json>)

  /** The errors a binder returns. */
  datatype BindError =
    | DecodeFailed(message: string)
    | RequestParamsIncorrect
    | IncorrectMerchantId
    | IncorrectPaymentMethodId
    | IncorrectProductId
    | IncorrectProjectId
    | Unknown
    | ServiceMessage(message: string)
    | ParseFailed(text: string)
    | IncorrectType(parameter: string)

  /** The billing service's answer to an RPC call: a transport failure, or a response. */
  datatype Rpc<T> = CallFailed(reason: string) | Response(status: int, message: string, item: T)

  /** The status of a successful response (declared in the billing package). */
  const ResponseStatusOk: int := 200

  /** The decoded request the binder was handed and fills in. */
  class Slot<T> {
    var value: T

    constructor (v: T)
      ensures value == v
    {
      value := v;
    }
  }

  /** The identifier checks: non-empty and an ObjectId in hex. */
  predicate ValidId(id: string)
  {
    id != "" && Text.IsObjectIdHex(id)
  }

  /** The emptiness test in front of IsObjectIdHex rejects nothing on its own. */
  lemma ValidIdIsObjectIdHex(id: string)
    ensures ValidId(id) <==> Text.IsObjectIdHex(id)
  {
  }

  /** Query values as the HTTP layer parses them: a present key has at least one value. */
  ghost predicate WellFormedQuery(params: map<string, seq<string>>)
  {
    forall k :: k in params ==> |params[k]| > 0
  }

  /** The truncation toward zero of a float64 conversion to an integer type. */
  function TruncateTowardZero(x: real): (i: int)
    ensures x >= 0.0 ==> i as real <= x < i as real + 1.0
    ensures x < 0.0 ==> i as real - 1.0 < x <= i as real
  {
    if x >= 0.0 then x.Floor else -((-x).Floor)
  }

  const Int32Min: int := -0x8000_0000
  const Int32Max: int := 0x7FFF_FFFF

  /** A float64 whose conversion to int32 keeps its integer part. */
  predicate FitsInt32(x: real)
  {
    Int32Min as real - 1.0 < x < Int32Max as real + 1.0
  }

  lemma TruncateFitsInt32(x: real)
    requires FitsInt32(x)
    ensures Int32Min <= TruncateTowardZero(x) <= Int32Max
  {
  }
}
