/**
  The onboarding binders: merchant and notification listings, and the requests
  that carry a merchant or payment-method identifier in the path.
 */
module OnboardingBinders {

  import opened Wrappers
  import opened BinderCommon
  import Text

  /** The query parameter names (declared beside the binders). */
  const ParamIsSigned: string := "is_signed"
  const ParamIsSystem: string := "is_system"

  /** grpc.MerchantListingRequest: isSigned 0 means no filter, 1 not signed, 2 signed. */
  datatype MerchantListingRequest = MerchantListingRequest(limit: int, offset: int, isSigned: int, rest: map<string, Json>)

  /** grpc.ListingNotificationRequest: isSystem 1 means user notifications, 2 system ones. */
  datatype ListingNotificationRequest =
    ListingNotificationRequest(merchantId: string, limit: int, offset: int, isSystem: int, rest: map<string, Json>)

  datatype GetMerchantPaymentMethodRequest = GetMerchantPaymentMethodRequest(merchantId: string, paymentMethodId: string)

  /** grpc.MerchantPaymentMethodRequest; `paymentMethodId` is the id of its decoded PaymentMethod. */
  datatype MerchantPaymentMethodRequest =
    MerchantPaymentMethodRequest(merchantId: string, paymentMethodId: string, rest: map<string, Json>)

  datatype MerchantChangeStatusRequest = MerchantChangeStatusRequest(merchantId: string, rest: map<string, Json>)

  datatype NotificationRequest = NotificationRequest(merchantId: string, rest: map<string, Json>)

  /** A non-positive limit is replaced by the binder's default. */
  function WithDefaultLimit(limit: int, limitDefault: int): (l: int)
    ensures limit > 0 ==> l == limit
    ensures limit <= 0 ==> l == limitDefault
  {
    if limit <= 0 then limitDefault else limit
  }

  predicate IsFalseText(v: string)
  {
    v == "0" || v == "false"
  }

  predicate IsTrueText(v: string)
  {
    v == "1" || v == "true"
  }

  /** The is_signed filter as the listing binder computes it: both spellings of a flag give 2. */
  function SignedFilterAsWritten(v: string): (r: Result<int, BindError>)
    ensures r.Success? <==> IsFalseText(v) || IsTrueText(v)
    ensures r.Success? ==> r.value == 2
    ensures r.Failure? ==> r.error == RequestParamsIncorrect
  {
    if IsFalseText(v) then Success(2)
    else if IsTrueText(v) then Success(2)
    else Failure(RequestParamsIncorrect)
  }

  /** A request for unsigned merchants filters exactly like a request for signed ones. */
  lemma SignedFilterAsWrittenConflates()
    ensures SignedFilterAsWritten("false") == SignedFilterAsWritten("true") == Success(2)
  {
  }

  /** The is_signed filter with false mapped to 1 and true to 2. */
  function SignedFilter(v: string): (r: Result<int, BindError>)
    ensures r == Success(1) <==> IsFalseText(v)
    ensures r == Success(2) <==> IsTrueText(v)
    ensures r.Failure? <==> !IsFalseText(v) && !IsTrueText(v)
    ensures r.Failure? ==> r.error == RequestParamsIncorrect
  {
    if IsFalseText(v) then Success(1)
    else if IsTrueText(v) then Success(2)
    else Failure(RequestParamsIncorrect)
  }

  /** The is_system filter: false spellings give 1, any other value 2. */
  function SystemFilter(v: string): (f: int)
    ensures f == 1 <==> IsFalseText(v)
    ensures f == 2 <==> !IsFalseText(v)
  {
    if IsFalseText(v) then 1 else 2
  }

  /** The corrected is_signed filter agrees with is_system on every value both accept as a flag. */
  lemma SignedFilterAgreesWithSystemFilter(v: string)
    requires IsFalseText(v) || IsTrueText(v)
    ensures SignedFilter(v) == Success(SystemFilter(v))
  {
  }

  /** OnboardingMerchantListingBinder. */
  class OnboardingMerchantListingBinder {
    const limitDefault: int
    const offsetDefault: int

    constructor (limitDefault: int, offsetDefault: int)
      ensures this.limitDefault == limitDefault && this.offsetDefault == offsetDefault
    {
      this.limitDefault := limitDefault;
      this.offsetDefault := offsetDefault;
    }

    /** Bind with the is_signed mapping of SignedFilter. */
    method Bind(s: Slot<MerchantListingRequest>, decoded: Result<MerchantListingRequest, string>,
                query: map<string, seq<string>>)
      returns (err: Option<BindError>)
      requires WellFormedQuery(query)
      modifies s
      ensures decoded.Failure? ==> err == Some(DecodeFailed(decoded.error)) && s.value == old(s.value)
      ensures decoded.Success? ==>
        var d := decoded.value;
        var limited := d.(limit := WithDefaultLimit(d.limit, limitDefault));
        && (ParamIsSigned !in query ==> err.None? && s.value == limited)
        && (ParamIsSigned in query ==>
              var f := SignedFilter(query[ParamIsSigned][0]);
              && (f.Success? ==> err.None? && s.value == limited.(isSigned := f.value))
              && (f.Failure? ==> err == Some(f.error) && s.value == limited))
    {
      if decoded.Failure? {
        return Some(DecodeFailed(decoded.error));
      }
      s.value := decoded.value;
      if s.value.limit <= 0 {
        s.value := s.value.(limit := limitDefault);
      }
      if ParamIsSigned in query {
        var v := query[ParamIsSigned];
        if v[0] == "0" || v[0] == "false" {
          s.value := s.value.(isSigned := 1);
        } else if v[0] == "1" || v[0] == "true" {
          s.value := s.value.(isSigned := 2);
        } else {
          return Some(RequestParamsIncorrect);
        }
      }
      return None;
    }

    /** Bind as the source writes it: the false spellings also set isSigned to 2. */
    method BindAsWritten(s: Slot<MerchantListingRequest>, decoded: Result<MerchantListingRequest, string>,
                         query: map<string, seq<string>>)
      returns (err: Option<BindError>)
      requires WellFormedQuery(query)
      modifies s
      ensures decoded.Failure? ==> err == Some(DecodeFailed(decoded.error)) && s.value == old(s.value)
      ensures decoded.Success? ==>
        var d := decoded.value;
        var limited := d.(limit := WithDefaultLimit(d.limit, limitDefault));
        && (ParamIsSigned !in query ==> err.None? && s.value == limited)
        && (ParamIsSigned in query ==>
              var f := SignedFilterAsWritten(query[ParamIsSigned][0]);
              && (f.Success? ==> err.None? && s.value == limited.(isSigned := f.value))
              && (f.Failure? ==> err == Some(f.error) && s.value == limited))
    {
      if decoded.Failure? {
        return Some(DecodeFailed(decoded.error));
      }
      s.value := decoded.value;
      if s.value.limit <= 0 {
        s.value := s.value.(limit := limitDefault);
      }
      if ParamIsSigned in query {
        var v := query[ParamIsSigned];
        if v[0] == "0" || v[0] == "false" {
          s.value := s.value.(isSigned := 2);
        } else if v[0] == "1" || v[0] == "true" {
          s.value := s.value.(isSigned := 2);
        } else {
          return Some(RequestParamsIncorrect);
        }
      }
      return None;
    }
  }

  /** OnboardingNotificationsListBinder. */
  class OnboardingNotificationsListBinder {
    const limitDefault: int
    const offsetDefault: int

    constructor (limitDefault: int, offsetDefault: int)
      ensures this.limitDefault == limitDefault && this.offsetDefault == offsetDefault
    {
      this.limitDefault := limitDefault;
      this.offsetDefault := offsetDefault;
    }

    /** Bind: `merchantId` is the path parameter, copied without a check. */
    method Bind(s: Slot<ListingNotificationRequest>, decoded: Result<ListingNotificationRequest, string>,
                query: map<string, seq<string>>, merchantId: string)
      returns (err: Option<BindError>)
      requires WellFormedQuery(query)
      modifies s
      ensures decoded.Failure? ==> err == Some(DecodeFailed(decoded.error)) && s.value == old(s.value)
      ensures decoded.Success? ==>
        var d := decoded.value;
        && err.None?
        && s.value == d.(merchantId := merchantId, limit := WithDefaultLimit(d.limit, limitDefault),
                         isSystem := if ParamIsSystem in query then SystemFilter(query[ParamIsSystem][0]) else d.isSystem)
    {
      if decoded.Failure? {
        return Some(DecodeFailed(decoded.error));
      }
      s.value := decoded.value;
      s.value := s.value.(merchantId := merchantId);
      if s.value.limit <= 0 {
        s.value := s.value.(limit := limitDefault);
      }
      if ParamIsSystem in query {
        var v := query[ParamIsSystem];
        if v[0] == "0" || v[0] == "false" {
          s.value := s.value.(isSystem := 1);
        } else {
          s.value := s.value.(isSystem := 2);
        }
      }
      return None;
    }
  }

  /** OnboardingGetPaymentMethodBinder: both identifiers come from the path; nothing is decoded. */
  class OnboardingGetPaymentMethodBinder {

    constructor ()
    {
    }

    method Bind(s: Slot<GetMerchantPaymentMethodRequest>, merchantId: string, paymentMethodId: string)
      returns (err: Option<BindError>)
      modifies s
      ensures !ValidId(merchantId) ==> err == Some(IncorrectMerchantId)
      ensures ValidId(merchantId) && !ValidId(paymentMethodId) ==> err == Some(IncorrectPaymentMethodId)
      ensures err.Some? ==> s.value == old(s.value)
      ensures err.None? <==> ValidId(merchantId) && ValidId(paymentMethodId)
      ensures err.None? ==> s.value == GetMerchantPaymentMethodRequest(merchantId, paymentMethodId)
    {
      if merchantId == "" || !Text.IsObjectIdHex(merchantId) {
        return Some(IncorrectMerchantId);
      }
      if paymentMethodId == "" || !Text.IsObjectIdHex(paymentMethodId) {
        return Some(IncorrectPaymentMethodId);
      }
      s.value := s.value.(merchantId := merchantId, paymentMethodId := paymentMethodId);
      return None;
    }
  }

  /** OnboardingChangePaymentMethodBinder. */
  class OnboardingChangePaymentMethodBinder {

    constructor ()
    {
    }

    /** Bind: the path's method id must also be the id of the decoded payment method. */
    method Bind(s: Slot<MerchantPaymentMethodRequest>, decoded: Result<MerchantPaymentMethodRequest, string>,
                merchantId: string, methodId: string)
      returns (err: Option<BindError>)
      modifies s
      ensures decoded.Failure? ==> err == Some(DecodeFailed(decoded.error)) && s.value == old(s.value)
      ensures decoded.Success? ==>
        && (!ValidId(merchantId) ==> err == Some(IncorrectMerchantId) && s.value == decoded.value)
        && (ValidId(merchantId) && (!ValidId(methodId) || decoded.value.paymentMethodId != methodId) ==>
              err == Some(IncorrectPaymentMethodId) && s.value == decoded.value)
        && (ValidId(merchantId) && ValidId(methodId) && decoded.value.paymentMethodId == methodId ==>
              err.None? && s.value == decoded.value.(merchantId := merchantId))
    {
      if decoded.Failure? {
        return Some(DecodeFailed(decoded.error));
      }
      s.value := decoded.value;
      if merchantId == "" || !Text.IsObjectIdHex(merchantId) {
        return Some(IncorrectMerchantId);
      }
      if methodId == "" || !Text.IsObjectIdHex(methodId) || s.value.paymentMethodId != methodId {
        return Some(IncorrectPaymentMethodId);
      }
      s.value := s.value.(merchantId := merchantId);
      return None;
    }
  }

  /** OnboardingChangeMerchantStatusBinder: the merchant id is the path's `id`. */
  class OnboardingChangeMerchantStatusBinder {

    constructor ()
    {
    }

    method Bind(s: Slot<MerchantChangeStatusRequest>, decoded: Result<MerchantChangeStatusRequest, string>,
                merchantId: string)
      returns (err: Option<BindError>)
      modifies s
      ensures decoded.Failure? ==> err == Some(DecodeFailed(decoded.error)) && s.value == old(s.value)
      ensures decoded.Success? && !ValidId(merchantId) ==> err == Some(IncorrectMerchantId) && s.value == decoded.value
      ensures decoded.Success? && ValidId(merchantId) ==>
        err.None? && s.value == decoded.value.(merchantId := merchantId)
    {
      if decoded.Failure? {
        return Some(DecodeFailed(decoded.error));
      }
      s.value := decoded.value;
      if merchantId == "" || !Text.IsObjectIdHex(merchantId) {
        return Some(IncorrectMerchantId);
      }
      s.value := s.value.(merchantId := merchantId);
      return None;
    }
  }

  /** OnboardingCreateNotificationBinder: the merchant id is the path's `merchant_id`. */
  class OnboardingCreateNotificationBinder {

    constructor ()
    {
    }

    method Bind(s: Slot<NotificationRequest>, decoded: Result<NotificationRequest, string>, merchantId: string)
      returns (err: Option<BindError>)
      modifies s
      ensures decoded.Failure? ==> err == Some(DecodeFailed(decoded.error)) && s.value == old(s.value)
      ensures decoded.Success? && !ValidId(merchantId) ==> err == Some(IncorrectMerchantId) && s.value == decoded.value
      ensures decoded.Success? && ValidId(merchantId) ==>
        err.None? && s.value == decoded.value.(merchantId := merchantId)
    {
      if decoded.Failure? {
        return Some(DecodeFailed(decoded.error));
      }
      s.value := decoded.value;
      if merchantId == "" || !Text.IsObjectIdHex(merchantId) {
        return Some(IncorrectMerchantId);
      }
      s.value := s.value.(merchantId := merchantId);
      return None;
    }
  }
}
