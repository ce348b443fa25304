/**
  ChangeMerchantDataRequestBinder: the merchant's two signature flags, taken from
  the stored merchant and overridden by the booleans the request carries.
 */
module MerchantDataBinder {

  import opened Wrappers
  import opened BinderCommon
  import Text

  /** The body keys (declared beside the binders). */
  const KeyHasMerchantSignature: string := "has_merchant_signature"
  const KeyHasPspSignature: string := "has_psp_signature"

  /** The stored merchant as GetMerchantBy returns it (the fields the binder reads). */
  datatype Merchant = Merchant(hasMerchantSignature: bool, hasPspSignature: bool)

  datatype ChangeMerchantDataRequest =
    ChangeMerchantDataRequest(merchantId: string, hasMerchantSignature: bool, hasPspSignature: bool)

  /** A flag's new value: the request's boolean when it has one, the stored value when the key is absent. */
  function FlagOverride(req: map<string, Json>, key: string, stored: bool): (r: Result<bool, BindError>)
    ensures key !in req ==> r == Success(stored)
    ensures key in req && req[key].JBool? ==> r == Success(req[key].b)
    ensures r.Failure? <==> key in req && !req[key].JBool?
    ensures r.Failure? ==> r.error == IncorrectType(key)
  {
    if key !in req then Success(stored)
    else if req[key].JBool? then Success(req[key].b)
    else Failure(IncorrectType(key))
  }

  /** ChangeMerchantDataRequestBinder. */
  class ChangeMerchantDataRequestBinder {

    constructor ()
    {
    }

    /**
      Bind: `decoded` is the body as an untyped map, `merchantId` the path's `id`,
      `fetched` the billing service's answer to GetMerchantBy.
     */
    method Bind(s: Slot<ChangeMerchantDataRequest>, decoded: Result<map<string, Json>, string>,
                merchantId: string, fetched: Rpc<Merchant>)
      returns (err: Option<BindError>)
      modifies s
      ensures decoded.Failure? ==> err == Some(RequestParamsIncorrect)
      ensures decoded.Success? && !ValidId(merchantId) ==> err == Some(IncorrectMerchantId)
      ensures decoded.Success? && ValidId(merchantId) && fetched.CallFailed? ==> err == Some(Unknown)
      ensures decoded.Success? && ValidId(merchantId) && fetched.Response? && fetched.status != ResponseStatusOk ==>
        err == Some(ServiceMessage(fetched.message))
      ensures !(decoded.Success? && ValidId(merchantId) && fetched.Response? && fetched.status == ResponseStatusOk) ==>
        s.value == old(s.value)
      ensures decoded.Success? && ValidId(merchantId) && fetched.Response? && fetched.status == ResponseStatusOk ==>
        var req := decoded.value;
        var item := fetched.item;
        var m := FlagOverride(req, KeyHasMerchantSignature, item.hasMerchantSignature);
        var p := FlagOverride(req, KeyHasPspSignature, item.hasPspSignature);
        && (m.Failure? ==>
              err == Some(m.error)
              && s.value == ChangeMerchantDataRequest(merchantId, item.hasMerchantSignature, item.hasPspSignature))
        && (m.Success? && p.Failure? ==>
              err == Some(p.error)
              && s.value == ChangeMerchantDataRequest(merchantId, m.value, item.hasPspSignature))
        && (m.Success? && p.Success? ==> err.None? && s.value == ChangeMerchantDataRequest(merchantId, m.value, p.value))
    {
      if decoded.Failure? {
        return Some(RequestParamsIncorrect);
      }
      var req := decoded.value;
      if merchantId == "" || !Text.IsObjectIdHex(merchantId) {
        return Some(IncorrectMerchantId);
      }
      if fetched.CallFailed? {
        return Some(Unknown);
      }
      if fetched.status != ResponseStatusOk {
        return Some(ServiceMessage(fetched.message));
      }
      s.value := s.value.(merchantId := merchantId);
      s.value := s.value.(hasMerchantSignature := fetched.item.hasMerchantSignature);
      s.value := s.value.(hasPspSignature := fetched.item.hasPspSignature);
      if KeyHasMerchantSignature in req {
        var v := req[KeyHasMerchantSignature];
        if !v.JBool? {
          return Some(IncorrectType(KeyHasMerchantSignature));
        }
        s.value := s.value.(hasMerchantSignature := v.b);
      }
      if KeyHasPspSignature in req {
        var v := req[KeyHasPspSignature];
        if !v.JBool? {
          return Some(IncorrectType(KeyHasPspSignature));
        }
        s.value := s.value.(hasPspSignature := v.b);
      }
      return None;
    }
  }
}
