/**
  The order binders: the order form (OrderFormBinder) and the payment-create
  request (PaymentCreateProcessBinder).
 */
module OrderBinders {

  import opened Wrappers
  import opened BinderCommon

  /** billing.OrderCreateRequest: the decoded fields, and the two parameter maps the binder fills. */
  datatype OrderCreateRequest = OrderCreateRequest(
    decoded: map<string, Json>,
    other: map<string, string>,
    rawParams: map<string, string>)

  /** Every form key with its first value. */
  function FirstValues(params: map<string, seq<string>>): (m: map<string, string>)
    requires WellFormedQuery(params)
    ensures m.Keys == params.Keys
    ensures forall k :: k in m ==> m[k] == params[k][0]
  {
    map k | k in params :: params[k][0]
  }

  /** The form keys that are not reserved by the order request, with their first value. */
  function ExtraValues(params: map<string, seq<string>>, reserved: set<string>): (m: map<string, string>)
    requires WellFormedQuery(params)
    ensures m.Keys == params.Keys - reserved
    ensures forall k :: k in m ==> m[k] == params[k][0]
  {
    map k | k in params && k !in reserved :: params[k][0]
  }

  /** Other holds exactly the raw parameters whose keys are not reserved, with the same values. */
  lemma ExtraIsRawMinusReserved(params: map<string, seq<string>>, reserved: set<string>)
    requires WellFormedQuery(params)
    ensures forall k :: k in ExtraValues(params, reserved) <==> k in FirstValues(params) && k !in reserved
    ensures forall k :: k in ExtraValues(params, reserved) ==> ExtraValues(params, reserved)[k] == FirstValues(params)[k]
  {
  }

  /** OrderFormBinder (stateless). */
  class OrderFormBinder {

    constructor ()
    {
    }

    /**
      Bind: `decoded` is echo's decoding of the request into the order request,
      `form` the parsed form parameters, `reserved` the order request's own field
      names (OrderReservedWords).
     */
    method Bind(o: Slot<OrderCreateRequest>, decoded: Result<OrderCreateRequest, string>,
                form: Result<map<string, seq<string>>, string>, reserved: set<string>)
      returns (err: Option<BindError>)
      requires form.Success? ==> WellFormedQuery(form.value)
      modifies o
      ensures decoded.Failure? ==> err == Some(DecodeFailed(decoded.error)) && o.value == old(o.value)
      ensures decoded.Success? && form.Failure? ==> err == Some(DecodeFailed(form.error)) && o.value == decoded.value
      ensures decoded.Success? && form.Success? ==>
        && err.None?
        && o.value == decoded.value.(other := ExtraValues(form.value, reserved), rawParams := FirstValues(form.value))
    {
      if decoded.Failure? {
        return Some(DecodeFailed(decoded.error));
      }
      o.value := decoded.value;
      if form.Failure? {
        return Some(DecodeFailed(form.error));
      }
      var params := form.value;
      var addParams: map<string, string> := map[];
      var rawParams: map<string, string> := map[];
      var rest := params.Keys;
      while rest != {}
        invariant rest <= params.Keys
        invariant addParams == map k | k in params.Keys - rest && k !in reserved :: params[k][0]
        invariant rawParams == map k | k in params.Keys - rest :: params[k][0]
        decreases |rest|
      {
        var key :| key in rest;
        if key !in reserved {
          addParams := addParams[key := params[key][0]];
        }
        rawParams := rawParams[key := params[key][0]];
        rest := rest - {key};
      }
      o.value := o.value.(other := addParams, rawParams := rawParams);
      return None;
    }
  }

  /** The text a decoded value is sent as: booleans as "1" and "0", the rest as `%v` formats it. */
  function Coerce(v: Json, formatValue: Json -> string): (s: string)
    ensures v == JBool(true) ==> s == "1"
    ensures v == JBool(false) ==> s == "0"
    ensures !v.JBool? ==> s == formatValue(v)
  {
    if v.JBool? then (if v.b then "1" else "0") else formatValue(v)
  }

  /** The data map after coercing every decoded value into it. */
  function Coerced(data: map<string, string>, untyped: map<string, Json>, formatValue: Json -> string)
    : (m: map<string, string>)
    ensures m.Keys == data.Keys + untyped.Keys
    ensures forall k :: k in untyped ==> m[k] == Coerce(untyped[k], formatValue)
    ensures forall k :: k in data && k !in untyped ==> m[k] == data[k]
  {
    map k | k in data.Keys + untyped.Keys :: if k in untyped then Coerce(untyped[k], formatValue) else data[k]
  }

  /** Coercing one more value writes exactly its key. */
  lemma CoercedStep(data: map<string, string>, untyped: map<string, Json>, k: string, v: Json,
                    formatValue: Json -> string)
    ensures Coerced(data, untyped[k := v], formatValue) == Coerced(data, untyped, formatValue)[k := Coerce(v, formatValue)]
  {
    var a := Coerced(data, untyped[k := v], formatValue);
    var b := Coerced(data, untyped, formatValue)[k := Coerce(v, formatValue)];
    assert a.Keys == b.Keys;
    forall j | j in a
      ensures a[j] == b[j]
    {
    }
  }

  /** PaymentCreateProcessBinder (stateless). */
  class PaymentCreateProcessBinder {

    constructor ()
    {
    }

    /**
      Bind: `decoded` is echo's decoding of the body into an untyped map, `data`
      the string map that is filled, `formatValue` fmt's `%v`.
     */
    method Bind(data: Slot<map<string, string>>, decoded: Result<map<string, Json>, string>,
                formatValue: Json -> string)
      returns (err: Option<BindError>)
      modifies data
      ensures decoded.Failure? ==> err == Some(DecodeFailed(decoded.error)) && data.value == old(data.value)
      ensures decoded.Success? ==> err.None? && data.value == Coerced(old(data.value), decoded.value, formatValue)
    {
      if decoded.Failure? {
        return Some(DecodeFailed(decoded.error));
      }
      var m := CoerceAll(data.value, decoded.value, formatValue);
      data.value := m;
      return None;
    }
  }

  /** The type switch for one decoded value: a boolean becomes "0", then "1" when true. */
  method CoerceInto(m: map<string, string>, k: string, v: Json, formatValue: Json -> string)
    returns (r: map<string, string>)
    ensures r == m[k := Coerce(v, formatValue)]
  {
    r := m;
    if v.JBool? {
      r := r[k := "0"];
      if v.b {
        r := r[k := "1"];
      }
    } else {
      r := r[k := formatValue(v)];
    }
  }

  /** The coercion loop over the decoded values, writing into the string map `data`. */
  method CoerceAll(data: map<string, string>, untypedData: map<string, Json>, formatValue: Json -> string)
    returns (m: map<string, string>)
    ensures m == Coerced(data, untypedData, formatValue)
  {
    m := data;
    var rest := untypedData.Keys;
    ghost var done: map<string, Json> := map[];
    while rest != {}
      invariant rest <= untypedData.Keys
      invariant done == map k | k in untypedData && k !in rest :: untypedData[k]
      invariant m == Coerced(data, done, formatValue)
      decreases |rest|
    {
      var k :| k in rest;
      var v := untypedData[k];
      CoercedStep(data, done, k, v, formatValue);
      m := CoerceInto(m, k, v, formatValue);
      done := done[k := v];
      rest := rest - {k};
    }
    assert done == untypedData;
  }
}
