/**
  ChangeProjectRequestBinder: the project update request starts from the stored
  project and takes each field the body carries, checking its JSON type; the six
  descriptive fields are taken from the typed decoding of the same body.
 */
module ProjectBinder {

  import opened Wrappers
  import opened BinderCommon
  import Text

  /** The fields of the project record that the first nine checks write. */
  datatype Checkout = Checkout(
    name: map<string, string>,
    callbackCurrency: string,
    callbackProtocol: string,
    createOrderAllowedUrls: seq<string>,
    allowDynamicNotifyUrls: bool,
    allowDynamicRedirectUrls: bool,
    limitsCurrency: string,
    minPaymentAmount: real,
    maxPaymentAmount: real)

  /** The fields the next nine checks write. */
  datatype Notifications = Notifications(
    notifyEmails: seq<string>,
    isProductsCheckout: bool,
    secretKey: string,
    signatureRequired: bool,
    sendNotifyEmail: bool,
    urlCheckAccount: string,
    urlProcessPayment: string,
    urlRedirectFail: string,
    urlRedirectSuccess: string)

  /** The four payment-event URLs, checked last. */
  datatype PaymentUrls = PaymentUrls(
    urlChargebackPayment: string,
    urlCancelPayment: string,
    urlFraudPayment: string,
    urlRefundPayment: string)

  /** The descriptive fields, taken from the typed decoding of the body. */
  datatype Descriptions = Descriptions(
    shortDescription: Json,
    cover: Json,
    fullDescription: Json,
    localizations: Json,
    currencies: Json,
    virtualCurrency: Json)

  /** The project record (the fields the binder writes), grouped as the binder writes them. */
  datatype BillingProject = BillingProject(
    id: string,
    merchantId: string,
    checkout: Checkout,
    notifications: Notifications,
    status: int,
    paymentUrls: PaymentUrls,
    descriptions: Descriptions)

  /** The body keys (declared beside the binders). */
  const KeyName: string := "name"
  const KeyCallbackCurrency: string := "callback_currency"
  const KeyCallbackProtocol: string := "callback_protocol"
  const KeyCreateOrderAllowedUrls: string := "create_order_allowed_urls"
  const KeyAllowDynamicNotifyUrls: string := "allow_dynamic_notify_urls"
  const KeyAllowDynamicRedirectUrls: string := "allow_dynamic_redirect_urls"
  const KeyLimitsCurrency: string := "limits_currency"
  const KeyMinPaymentAmount: string := "min_payment_amount"
  const KeyMaxPaymentAmount: string := "max_payment_amount"
  const KeyNotifyEmails: string := "notify_emails"
  const KeyIsProductsCheckout: string := "is_products_checkout"
  const KeySecretKey: string := "secret_key"
  const KeySignatureRequired: string := "signature_required"
  const KeySendNotifyEmail: string := "send_notify_email"
  const KeyUrlCheckAccount: string := "url_check_account"
  const KeyUrlProcessPayment: string := "url_process_payment"
  const KeyUrlRedirectFail: string := "url_redirect_fail"
  const KeyUrlRedirectSuccess: string := "url_redirect_success"
  const KeyStatus: string := "status"
  const KeyUrlChargebackPayment: string := "url_chargeback_payment"
  const KeyUrlCancelPayment: string := "url_cancel_payment"
  const KeyUrlFraudPayment: string := "url_fraud_payment"
  const KeyUrlRefundPayment: string := "url_refund_payment"
  const KeyFullDescription: string := "full_description"
  const KeyShortDescription: string := "short_description"
  const KeyCover: string := "cover"
  const KeyLocalizations: string := "localizations"
  const KeyCurrencies: string := "currencies"
  const KeyVirtualCurrency: string := "virtual_currency"

  /** The JSON type each checked field must have. */
  datatype Kind = NameKind | TextKind | ListKind | FlagKind | NumberKind

  predicate WellTyped(k: Kind, j: Json)
  {
    match k
    case NameKind => j.JObject? && |j.fields| > 0
    case TextKind => j.JString?
    case ListKind => j.JArray?
    case FlagKind => j.JBool?
    case NumberKind => j.JNumber?
  }

  /** The checked fields, in the order the binder examines them: the key of the `i`-th. */
  function TypedKey(i: nat): string
  {
    match i
    case 0 => KeyName
    case 1 => KeyCallbackCurrency
    case 2 => KeyCallbackProtocol
    case 3 => KeyCreateOrderAllowedUrls
    case 4 => KeyAllowDynamicNotifyUrls
    case 5 => KeyAllowDynamicRedirectUrls
    case 6 => KeyLimitsCurrency
    case 7 => KeyMinPaymentAmount
    case 8 => KeyMaxPaymentAmount
    case 9 => KeyNotifyEmails
    case 10 => KeyIsProductsCheckout
    case 11 => KeySecretKey
    case 12 => KeySignatureRequired
    case 13 => KeySendNotifyEmail
    case 14 => KeyUrlCheckAccount
    case 15 => KeyUrlProcessPayment
    case 16 => KeyUrlRedirectFail
    case 17 => KeyUrlRedirectSuccess
    case 18 => KeyStatus
    case 19 => KeyUrlChargebackPayment
    case 20 => KeyUrlCancelPayment
    case 21 => KeyUrlFraudPayment
    case _ => KeyUrlRefundPayment
  }

  /** The JSON type the `i`-th checked field must have. */
  function KindOf(i: nat): Kind
  {
    match i
    case 0 => NameKind
    case 3 => ListKind
    case 4 => FlagKind
    case 5 => FlagKind
    case 7 => NumberKind
    case 8 => NumberKind
    case 9 => ListKind
    case 10 => FlagKind
    case 12 => FlagKind
    case 13 => FlagKind
    case 18 => NumberKind
    case _ => TextKind
  }

  const FieldCount: nat := 23

  /** The `i`-th checked field is present with the wrong JSON type. */
  predicate Bad(req: map<string, Json>, i: nat)
    requires i < FieldCount
  {
    TypedKey(i) in req && !WellTyped(KindOf(i), req[TypedKey(i)])
  }

  /** The binder gets past the first `n` checked fields. */
  predicate Reaches(req: map<string, Json>, n: nat)
    requires n <= FieldCount
  {
    n == 0 || (Reaches(req, n - 1) && !Bad(req, n - 1))
  }

  /** The first of the first `n` checked fields with the wrong type, if any. */
  function FirstBadBelow(req: map<string, Json>, n: nat): (r: Option<nat>)
    requires n <= FieldCount
    ensures r.Some? ==> r.value < n && Bad(req, r.value) && Reaches(req, r.value)
    ensures r.None? <==> Reaches(req, n)
  {
    if n == 0 then None
    else
      var r := FirstBadBelow(req, n - 1);
      if r.Some? then r
      else if Bad(req, n - 1) then Some(n - 1)
      else None
  }

  /** The first checked field with the wrong type, if any: where the binder stops. */
  function FirstBad(req: map<string, Json>): (r: Option<nat>)
    ensures r.Some? ==> r.value < FieldCount && Bad(req, r.value) && Reaches(req, r.value)
    ensures r.None? <==> Reaches(req, FieldCount)
  {
    FirstBadBelow(req, FieldCount)
  }

  /** A field reached with the wrong type stays the first one, however many fields follow. */
  lemma {:induction false} FirstBadBelowIs(req: map<string, Json>, i: nat, n: nat)
    requires i < n <= FieldCount && Reaches(req, i) && Bad(req, i)
    ensures FirstBadBelow(req, n) == Some(i)
    decreases n
  {
    if n > i + 1 {
      FirstBadBelowIs(req, i, n - 1);
    }
  }

  /** Past the first `n` fields, none of them had the wrong type. */
  lemma {:induction false} ReachedNotBad(req: map<string, Json>, n: nat, i: nat)
    requires n <= FieldCount && Reaches(req, n) && i < n
    ensures !Bad(req, i)
    decreases n
  {
    if i < n - 1 {
      ReachedNotBad(req, n - 1, i);
    }
  }

  /** If none of the first `n` fields has the wrong type, the binder gets past them. */
  lemma {:induction false} NoneBadReached(req: map<string, Json>, n: nat)
    requires n <= FieldCount
    requires forall i :: 0 <= i < n ==> !Bad(req, i)
    ensures Reaches(req, n)
    decreases n
  {
    if n > 0 {
      NoneBadReached(req, n - 1);
    }
  }

  lemma FirstBadIs(req: map<string, Json>, i: nat)
    requires i < FieldCount && Reaches(req, i) && Bad(req, i)
    ensures FirstBad(req) == Some(i)
  {
    FirstBadBelowIs(req, i, FieldCount);
  }

  /**
    Values the binder asserts to strings without checking (the name's values and
    the list elements): where it reads one that is not a string it panics.
   */
  predicate AllTexts(items: seq<Json>)
  {
    forall i :: 0 <= i < |items| ==> items[i].JString?
  }

  predicate AllTextValues(fields: map<string, Json>)
  {
    forall k :: k in fields ==> fields[k].JString?
  }

  /** The body does not make the binder panic before it returns. */
  predicate PanicFree(req: map<string, Json>)
  {
    && (Reaches(req, 0) && KeyName in req && WellTyped(NameKind, req[KeyName]) ==>
          AllTextValues(req[KeyName].fields))
    && (Reaches(req, 3) && KeyCreateOrderAllowedUrls in req && req[KeyCreateOrderAllowedUrls].JArray? ==>
          AllTexts(req[KeyCreateOrderAllowedUrls].items))
    && (Reaches(req, 9) && KeyNotifyEmails in req && req[KeyNotifyEmails].JArray? ==>
          AllTexts(req[KeyNotifyEmails].items))
  }

  /** The text of a value asserted to be a string. */
  function TextOf(j: Json): string
  {
    if j.JString? then j.s else ""
  }

  /** The list of the elements' texts. */
  function Texts(items: seq<Json>): (r: seq<string>)
    ensures |r| == |items|
    ensures forall i :: 0 <= i < |items| && items[i].JString? ==> r[i] == items[i].s
  {
    seq(|items|, i requires 0 <= i < |items| => TextOf(items[i]))
  }

  /** The stored name map with the body's entries written over it. */
  function Renamed(name: map<string, string>, fields: map<string, Json>): (r: map<string, string>)
    ensures r.Keys == name.Keys + fields.Keys
    ensures forall k :: k in fields && fields[k].JString? ==> r[k] == fields[k].s
    ensures forall k :: k in name && k !in fields ==> r[k] == name[k]
  {
    map k | k in name.Keys + fields.Keys :: if k in fields then TextOf(fields[k]) else name[k]
  }

  lemma RenamedStep(name: map<string, string>, fields: map<string, Json>, k: string, v: Json)
    ensures Renamed(name, fields[k := v]) == Renamed(name, fields)[k := TextOf(v)]
  {
    var a := Renamed(name, fields[k := v]);
    var b := Renamed(name, fields)[k := TextOf(v)];
    assert a.Keys == b.Keys;
    forall j | j in a
      ensures a[j] == b[j]
    {
    }
  }

  /** The value that the `i`-th checked field takes, once the binder has examined it. */
  function Over(req: map<string, Json>, i: nat, n: nat): (r: Option<Json>)
    requires i < FieldCount
    ensures r.Some? <==> i < n && TypedKey(i) in req
    ensures r.Some? ==> r.value == req[TypedKey(i)]
  {
    if i < n && TypedKey(i) in req then Some(req[TypedKey(i)]) else None
  }

  function NameOr(o: Option<Json>, current: map<string, string>): map<string, string>
  {
    if o.Some? && WellTyped(NameKind, o.value) then Renamed(current, o.value.fields) else current
  }

  function TextOr(o: Option<Json>, current: string): string
  {
    if o.Some? && o.value.JString? then o.value.s else current
  }

  function ListOr(o: Option<Json>, current: seq<string>): seq<string>
  {
    if o.Some? && o.value.JArray? then Texts(o.value.items) else current
  }

  function FlagOr(o: Option<Json>, current: bool): bool
  {
    if o.Some? && o.value.JBool? then o.value.b else current
  }

  function NumberOr(o: Option<Json>, current: real): real
  {
    if o.Some? && o.value.JNumber? then o.value.n else current
  }

  /** `int32(tv)`: the number truncated toward zero. */
  function StatusOr(o: Option<Json>, current: int): int
  {
    if o.Some? && o.value.JNumber? then TruncateTowardZero(o.value.n) else current
  }


  /** The checkout fields after the binder has examined the first `n` checked fields. */
  function MergedCheckout(c: Checkout, req: map<string, Json>, n: nat): Checkout
  {
    Checkout(
      NameOr(Over(req, 0, n), c.name),
      TextOr(Over(req, 1, n), c.callbackCurrency),
      TextOr(Over(req, 2, n), c.callbackProtocol),
      ListOr(Over(req, 3, n), c.createOrderAllowedUrls),
      FlagOr(Over(req, 4, n), c.allowDynamicNotifyUrls),
      FlagOr(Over(req, 5, n), c.allowDynamicRedirectUrls),
      TextOr(Over(req, 6, n), c.limitsCurrency),
      NumberOr(Over(req, 7, n), c.minPaymentAmount),
      NumberOr(Over(req, 8, n), c.maxPaymentAmount))
  }

  function MergedNotifications(t: Notifications, req: map<string, Json>, n: nat): Notifications
  {
    Notifications(
      ListOr(Over(req, 9, n), t.notifyEmails),
      FlagOr(Over(req, 10, n), t.isProductsCheckout),
      TextOr(Over(req, 11, n), t.secretKey),
      FlagOr(Over(req, 12, n), t.signatureRequired),
      FlagOr(Over(req, 13, n), t.sendNotifyEmail),
      TextOr(Over(req, 14, n), t.urlCheckAccount),
      TextOr(Over(req, 15, n), t.urlProcessPayment),
      TextOr(Over(req, 16, n), t.urlRedirectFail),
      TextOr(Over(req, 17, n), t.urlRedirectSuccess))
  }

  function MergedPaymentUrls(u: PaymentUrls, req: map<string, Json>, n: nat): PaymentUrls
  {
    PaymentUrls(
      TextOr(Over(req, 19, n), u.urlChargebackPayment),
      TextOr(Over(req, 20, n), u.urlCancelPayment),
      TextOr(Over(req, 21, n), u.urlFraudPayment),
      TextOr(Over(req, 22, n), u.urlRefundPayment))
  }

  /** The project after the binder has examined the first `n` checked fields. */
  function MergedPrefix(base: BillingProject, req: map<string, Json>, n: nat): BillingProject
  {
    base.(
      checkout := MergedCheckout(base.checkout, req, n),
      notifications := MergedNotifications(base.notifications, req, n),
      status := StatusOr(Over(req, 18, n), base.status),
      paymentUrls := MergedPaymentUrls(base.paymentUrls, req, n))
  }

  /** The descriptive fields, taken from the typed decoding `typed` where the body has their key. */
  function Described(d: Descriptions, req: map<string, Json>, typed: Descriptions): Descriptions
  {
    Descriptions(
      if KeyShortDescription in req then typed.shortDescription else d.shortDescription,
      if KeyCover in req then typed.cover else d.cover,
      if KeyFullDescription in req then typed.fullDescription else d.fullDescription,
      if KeyLocalizations in req then typed.localizations else d.localizations,
      if KeyCurrencies in req then typed.currencies else d.currencies,
      if KeyVirtualCurrency in req then typed.virtualCurrency else d.virtualCurrency)
  }

  datatype Merge = Merge(project: BillingProject, error: Option<BindError>)

  /**
    What the body does to the starting project `base`: at the first checked field
    with the wrong type the binder stops with that field's error, keeping what it
    wrote before it; otherwise every field the body has is taken.
   */
  function Merged(base: BillingProject, req: map<string, Json>, typed: Descriptions): (r: Merge)
    ensures r.error.Some? <==> FirstBad(req).Some?
    ensures r.error.Some? ==> r.error.value == IncorrectType(TypedKey(FirstBad(req).value))
  {
    match FirstBad(req)
    case Some(i) => Merge(MergedPrefix(base, req, i), Some(IncorrectType(TypedKey(i))))
    case None =>
      var p := MergedPrefix(base, req, FieldCount);
      Merge(p.(descriptions := Described(p.descriptions, req, typed)), None)
  }

  /** The checks in front of the merge, in the binder's order. */
  function Gate(typed: Result<BillingProject, string>, decoded: Result<map<string, Json>, string>,
                projectId: string, fetched: Rpc<BillingProject>): (r: Option<BindError>)
    ensures typed.Failure? || decoded.Failure? ==> r == Some(RequestParamsIncorrect)
    ensures typed.Success? && decoded.Success? && !ValidId(projectId) ==> r == Some(IncorrectProjectId)
    ensures typed.Success? && decoded.Success? && ValidId(projectId) && fetched.CallFailed? ==> r == Some(Unknown)
    ensures typed.Success? && decoded.Success? && ValidId(projectId) && fetched.Response? ==>
      r == if fetched.status != ResponseStatusOk then Some(ServiceMessage(fetched.message)) else None
  {
    if typed.Failure? then Some(RequestParamsIncorrect)
    else if decoded.Failure? then Some(RequestParamsIncorrect)
    else if projectId == "" || !Text.IsObjectIdHex(projectId) then Some(IncorrectProjectId)
    else if fetched.CallFailed? then Some(Unknown)
    else if fetched.status != ResponseStatusOk then Some(ServiceMessage(fetched.message))
    else None
  }

  /**
    The starting project as written: the identifier from the path and every field
    from the stored project except the four payment-event URLs, which keep the
    values of the request object the binder was handed.
   */
  function StartAsWritten(p: BillingProject, projectId: string, stored: BillingProject): (r: BillingProject)
    ensures r.paymentUrls == p.paymentUrls
    ensures r.(paymentUrls := stored.paymentUrls) == stored.(id := projectId)
  {
    stored.(id := projectId, paymentUrls := p.paymentUrls)
  }

  /** The starting project, corrected: the identifier from the path and every field from the stored project. */
  function Start(p: BillingProject, projectId: string, stored: BillingProject): (r: BillingProject)
    ensures r == StartAsWritten(p, projectId, stored).(paymentUrls := stored.paymentUrls)
  {
    stored.(id := projectId)
  }

  /** The list assertion loop: a fresh list with each element's text appended. */
  method CollectTexts(items: seq<Json>) returns (xs: seq<string>)
    requires AllTexts(items)
    ensures xs == Texts(items)
  {
    xs := [];
    for i := 0 to |items|
      invariant xs == Texts(items[..i])
    {
      assert Texts(items[..i + 1]) == Texts(items[..i]) + [items[i].s];
      xs := xs + [items[i].s];
    }
    assert items[..|items|] == items;
  }

  /** The name loop: each entry of the body written into the stored name map. */
  method MergeNames(name: map<string, string>, fields: map<string, Json>) returns (m: map<string, string>)
    requires AllTextValues(fields)
    ensures m == Renamed(name, fields)
  {
    m := name;
    var rest := fields.Keys;
    ghost var done: map<string, Json> := map[];
    while rest != {}
      invariant rest <= fields.Keys
      invariant done == map k | k in fields && k !in rest :: fields[k]
      invariant m == Renamed(name, done)
      decreases |rest|
    {
      var k :| k in rest;
      RenamedStep(name, done, k, fields[k]);
      m := m[k := fields[k].s];
      done := done[k := fields[k]];
      rest := rest - {k};
    }
    assert done == fields;
  }

  /** The binder stopped at a checked field from `lo` to below `hi`, with that field's error. */
  predicate StoppedIn(req: map<string, Json>, lo: nat, hi: nat, err: Option<BindError>)
  {
    && FirstBad(req).Some? && lo <= FirstBad(req).value < hi
    && err == Some(IncorrectType(TypedKey(FirstBad(req).value)))
  }

  /*
    One check and write each: a present key of the wrong type stops the binder
    with that field's error; a present key of the right type replaces the value.
   */

  method TakeName(req: map<string, Json>, current: map<string, string>)
    returns (r: map<string, string>, err: Option<BindError>)
    requires KeyName in req && WellTyped(NameKind, req[KeyName]) ==> AllTextValues(req[KeyName].fields)
    ensures err.Some? <==> Bad(req, 0)
    ensures err.Some? ==> err == Some(IncorrectType(KeyName))
    ensures err.None? ==> r == NameOr(Over(req, 0, 1), current)
  {
    if KeyName in req {
      var v := req[KeyName];
      if !v.JObject? || |v.fields| <= 0 {
        return current, Some(IncorrectType(KeyName));
      }
      r := MergeNames(current, v.fields);
      return r, None;
    }
    return current, None;
  }

  method TakeText(req: map<string, Json>, i: nat, current: string) returns (r: string, err: Option<BindError>)
    requires i < FieldCount && KindOf(i) == TextKind
    ensures err.Some? <==> Bad(req, i)
    ensures err.Some? ==> err == Some(IncorrectType(TypedKey(i)))
    ensures err.None? ==> r == TextOr(Over(req, i, i + 1), current)
  {
    if TypedKey(i) in req {
      var v := req[TypedKey(i)];
      if !v.JString? {
        return current, Some(IncorrectType(TypedKey(i)));
      }
      return v.s, None;
    }
    return current, None;
  }

  method TakeList(req: map<string, Json>, i: nat, current: seq<string>) returns (r: seq<string>, err: Option<BindError>)
    requires i < FieldCount && KindOf(i) == ListKind
    requires TypedKey(i) in req && req[TypedKey(i)].JArray? ==> AllTexts(req[TypedKey(i)].items)
    ensures err.Some? <==> Bad(req, i)
    ensures err.Some? ==> err == Some(IncorrectType(TypedKey(i)))
    ensures err.None? ==> r == ListOr(Over(req, i, i + 1), current)
  {
    if TypedKey(i) in req {
      var v := req[TypedKey(i)];
      if !v.JArray? {
        return current, Some(IncorrectType(TypedKey(i)));
      }
      r := CollectTexts(v.items);
      return r, None;
    }
    return current, None;
  }

  method TakeFlag(req: map<string, Json>, i: nat, current: bool) returns (r: bool, err: Option<BindError>)
    requires i < FieldCount && KindOf(i) == FlagKind
    ensures err.Some? <==> Bad(req, i)
    ensures err.Some? ==> err == Some(IncorrectType(TypedKey(i)))
    ensures err.None? ==> r == FlagOr(Over(req, i, i + 1), current)
  {
    if TypedKey(i) in req {
      var v := req[TypedKey(i)];
      if !v.JBool? {
        return current, Some(IncorrectType(TypedKey(i)));
      }
      return v.b, None;
    }
    return current, None;
  }

  method TakeNumber(req: map<string, Json>, i: nat, current: real) returns (r: real, err: Option<BindError>)
    requires i < FieldCount && KindOf(i) == NumberKind
    ensures err.Some? <==> Bad(req, i)
    ensures err.Some? ==> err == Some(IncorrectType(TypedKey(i)))
    ensures err.None? ==> r == NumberOr(Over(req, i, i + 1), current)
  {
    if TypedKey(i) in req {
      var v := req[TypedKey(i)];
      if !v.JNumber? {
        return current, Some(IncorrectType(TypedKey(i)));
      }
      return v.n, None;
    }
    return current, None;
  }

  /** Checked fields 0 to 2: the name and the callback currency and protocol. */
  method MergeCallbacks(c: Checkout, req: map<string, Json>, current: Checkout) returns (q: Checkout, err: Option<BindError>)
    requires PanicFree(req) && Reaches(req, 0) && current == MergedCheckout(c, req, 0)
    ensures err.None? ==> Reaches(req, 3) && q == MergedCheckout(c, req, 3)
    ensures err.Some? ==> StoppedIn(req, 0, 3, err) && q == MergedCheckout(c, req, FirstBad(req).value)
  {
    q := current;
    var name, e0 := TakeName(req, q.name);
    if e0.Some? { FirstBadIs(req, 0); return q, e0; }
    q := q.(name := name);
    assert Reaches(req, 1) && q == MergedCheckout(c, req, 1);
    var callbackCurrency, e1 := TakeText(req, 1, q.callbackCurrency);
    if e1.Some? { FirstBadIs(req, 1); return q, e1; }
    q := q.(callbackCurrency := callbackCurrency);
    assert Reaches(req, 2) && q == MergedCheckout(c, req, 2);
    var callbackProtocol, e2 := TakeText(req, 2, q.callbackProtocol);
    if e2.Some? { FirstBadIs(req, 2); return q, e2; }
    q := q.(callbackProtocol := callbackProtocol);
    return q, None;
  }

  /** Checked fields 3 to 5: the allowed order URLs and the two dynamic URL flags. */
  method MergeDynamicUrls(c: Checkout, req: map<string, Json>, current: Checkout) returns (q: Checkout, err: Option<BindError>)
    requires PanicFree(req) && Reaches(req, 3) && current == MergedCheckout(c, req, 3)
    ensures err.None? ==> Reaches(req, 6) && q == MergedCheckout(c, req, 6)
    ensures err.Some? ==> StoppedIn(req, 3, 6, err) && q == MergedCheckout(c, req, FirstBad(req).value)
  {
    q := current;
    var urls, e3 := TakeList(req, 3, q.createOrderAllowedUrls);
    if e3.Some? { FirstBadIs(req, 3); return q, e3; }
    q := q.(createOrderAllowedUrls := urls);
    assert Reaches(req, 4) && q == MergedCheckout(c, req, 4);
    var notifyUrls, e4 := TakeFlag(req, 4, q.allowDynamicNotifyUrls);
    if e4.Some? { FirstBadIs(req, 4); return q, e4; }
    q := q.(allowDynamicNotifyUrls := notifyUrls);
    assert Reaches(req, 5) && q == MergedCheckout(c, req, 5);
    var redirectUrls, e5 := TakeFlag(req, 5, q.allowDynamicRedirectUrls);
    if e5.Some? { FirstBadIs(req, 5); return q, e5; }
    q := q.(allowDynamicRedirectUrls := redirectUrls);
    return q, None;
  }

  /** Checked fields 6 to 8: the limits currency and the payment amount bounds. */
  method MergeLimits(c: Checkout, req: map<string, Json>, current: Checkout) returns (q: Checkout, err: Option<BindError>)
    requires PanicFree(req) && Reaches(req, 6) && current == MergedCheckout(c, req, 6)
    ensures err.None? ==> Reaches(req, 9) && q == MergedCheckout(c, req, 9)
    ensures err.Some? ==> StoppedIn(req, 6, 9, err) && q == MergedCheckout(c, req, FirstBad(req).value)
  {
    q := current;
    var limitsCurrency, e6 := TakeText(req, 6, q.limitsCurrency);
    if e6.Some? { FirstBadIs(req, 6); return q, e6; }
    q := q.(limitsCurrency := limitsCurrency);
    assert Reaches(req, 7) && q == MergedCheckout(c, req, 7);
    var minAmount, e7 := TakeNumber(req, 7, q.minPaymentAmount);
    if e7.Some? { FirstBadIs(req, 7); return q, e7; }
    q := q.(minPaymentAmount := minAmount);
    assert Reaches(req, 8) && q == MergedCheckout(c, req, 8);
    var maxAmount, e8 := TakeNumber(req, 8, q.maxPaymentAmount);
    if e8.Some? { FirstBadIs(req, 8); return q, e8; }
    q := q.(maxPaymentAmount := maxAmount);
    return q, None;
  }

  /** Checked fields 9 to 11: the notification emails, the products checkout flag and the secret key. */
  method MergeEmails(t: Notifications, req: map<string, Json>, current: Notifications) returns (q: Notifications, err: Option<BindError>)
    requires PanicFree(req) && Reaches(req, 9) && current == MergedNotifications(t, req, 9)
    ensures err.None? ==> Reaches(req, 12) && q == MergedNotifications(t, req, 12)
    ensures err.Some? ==> StoppedIn(req, 9, 12, err) && q == MergedNotifications(t, req, FirstBad(req).value)
  {
    q := current;
    var emails, e9 := TakeList(req, 9, q.notifyEmails);
    if e9.Some? { FirstBadIs(req, 9); return q, e9; }
    q := q.(notifyEmails := emails);
    assert Reaches(req, 10) && q == MergedNotifications(t, req, 10);
    var productsCheckout, e10 := TakeFlag(req, 10, q.isProductsCheckout);
    if e10.Some? { FirstBadIs(req, 10); return q, e10; }
    q := q.(isProductsCheckout := productsCheckout);
    assert Reaches(req, 11) && q == MergedNotifications(t, req, 11);
    var secretKey, e11 := TakeText(req, 11, q.secretKey);
    if e11.Some? { FirstBadIs(req, 11); return q, e11; }
    q := q.(secretKey := secretKey);
    return q, None;
  }

  /** Checked fields 12 to 14: the signature and email flags and the account check URL. */
  method MergeSignatureFlags(t: Notifications, req: map<string, Json>, current: Notifications) returns (q: Notifications, err: Option<BindError>)
    requires PanicFree(req) && Reaches(req, 12) && current == MergedNotifications(t, req, 12)
    ensures err.None? ==> Reaches(req, 15) && q == MergedNotifications(t, req, 15)
    ensures err.Some? ==> StoppedIn(req, 12, 15, err) && q == MergedNotifications(t, req, FirstBad(req).value)
  {
    q := current;
    var signatureRequired, e12 := TakeFlag(req, 12, q.signatureRequired);
    if e12.Some? { FirstBadIs(req, 12); return q, e12; }
    q := q.(signatureRequired := signatureRequired);
    assert Reaches(req, 13) && q == MergedNotifications(t, req, 13);
    var sendNotifyEmail, e13 := TakeFlag(req, 13, q.sendNotifyEmail);
    if e13.Some? { FirstBadIs(req, 13); return q, e13; }
    q := q.(sendNotifyEmail := sendNotifyEmail);
    assert Reaches(req, 14) && q == MergedNotifications(t, req, 14);
    var urlCheckAccount, e14 := TakeText(req, 14, q.urlCheckAccount);
    if e14.Some? { FirstBadIs(req, 14); return q, e14; }
    q := q.(urlCheckAccount := urlCheckAccount);
    return q, None;
  }

  /** Checked fields 15 to 17: the payment processing and redirect URLs. */
  method MergeProcessUrls(t: Notifications, req: map<string, Json>, current: Notifications) returns (q: Notifications, err: Option<BindError>)
    requires PanicFree(req) && Reaches(req, 15) && current == MergedNotifications(t, req, 15)
    ensures err.None? ==> Reaches(req, 18) && q == MergedNotifications(t, req, 18)
    ensures err.Some? ==> StoppedIn(req, 15, 18, err) && q == MergedNotifications(t, req, FirstBad(req).value)
  {
    q := current;
    var urlProcessPayment, e15 := TakeText(req, 15, q.urlProcessPayment);
    if e15.Some? { FirstBadIs(req, 15); return q, e15; }
    q := q.(urlProcessPayment := urlProcessPayment);
    assert Reaches(req, 16) && q == MergedNotifications(t, req, 16);
    var urlRedirectFail, e16 := TakeText(req, 16, q.urlRedirectFail);
    if e16.Some? { FirstBadIs(req, 16); return q, e16; }
    q := q.(urlRedirectFail := urlRedirectFail);
    assert Reaches(req, 17) && q == MergedNotifications(t, req, 17);
    var urlRedirectSuccess, e17 := TakeText(req, 17, q.urlRedirectSuccess);
    if e17.Some? { FirstBadIs(req, 17); return q, e17; }
    q := q.(urlRedirectSuccess := urlRedirectSuccess);
    return q, None;
  }

  /** Checked fields 19 to 22: the four payment-event URLs. */
  method MergeEventUrls(u: PaymentUrls, req: map<string, Json>, current: PaymentUrls) returns (q: PaymentUrls, err: Option<BindError>)
    requires PanicFree(req) && Reaches(req, 19) && current == MergedPaymentUrls(u, req, 19)
    ensures err.None? ==> Reaches(req, 23) && q == MergedPaymentUrls(u, req, 23)
    ensures err.Some? ==> StoppedIn(req, 19, 23, err) && q == MergedPaymentUrls(u, req, FirstBad(req).value)
  {
    q := current;
    var chargeback, e19 := TakeText(req, 19, q.urlChargebackPayment);
    if e19.Some? { FirstBadIs(req, 19); return q, e19; }
    q := q.(urlChargebackPayment := chargeback);
    assert Reaches(req, 20) && q == MergedPaymentUrls(u, req, 20);
    var cancel, e20 := TakeText(req, 20, q.urlCancelPayment);
    if e20.Some? { FirstBadIs(req, 20); return q, e20; }
    q := q.(urlCancelPayment := cancel);
    assert Reaches(req, 21) && q == MergedPaymentUrls(u, req, 21);
    var fraud, e21 := TakeText(req, 21, q.urlFraudPayment);
    if e21.Some? { FirstBadIs(req, 21); return q, e21; }
    q := q.(urlFraudPayment := fraud);
    assert Reaches(req, 22) && q == MergedPaymentUrls(u, req, 22);
    var refund, e22 := TakeText(req, 22, q.urlRefundPayment);
    if e22.Some? { FirstBadIs(req, 22); return q, e22; }
    q := q.(urlRefundPayment := refund);
    return q, None;
  }

  method TakeStatus(req: map<string, Json>, current: int) returns (r: int, err: Option<BindError>)
    ensures err.Some? <==> Bad(req, 18)
    ensures err.Some? ==> err == Some(IncorrectType(KeyStatus))
    ensures err.None? ==> r == StatusOr(Over(req, 18, 19), current)
  {
    if KeyStatus in req {
      var v := req[KeyStatus];
      if !v.JNumber? {
        return current, Some(IncorrectType(KeyStatus));
      }
      return TruncateTowardZero(v.n), None;
    }
    return current, None;
  }

  /** The checkout fields are settled once the binder is past them. */
  lemma CheckoutSettled(c: Checkout, req: map<string, Json>, n: nat)
    requires n >= 9
    ensures MergedCheckout(c, req, n) == MergedCheckout(c, req, 9)
  {
  }

  /** The fields after the checkout group are untouched until the binder reaches them. */
  lemma LaterGroupsUntouched(base: BillingProject, req: map<string, Json>, n: nat)
    ensures n <= 9 ==> MergedNotifications(base.notifications, req, n) == base.notifications
    ensures n <= 18 ==> StatusOr(Over(req, 18, n), base.status) == base.status
    ensures n <= 19 ==> MergedPaymentUrls(base.paymentUrls, req, n) == base.paymentUrls
  {
  }

  /** All the checked fields and the descriptive ones, as the binder writes them after the stored project. */
  method MergeAll(base: BillingProject, req: map<string, Json>, typed: Descriptions) returns (r: Merge)
    requires PanicFree(req)
    ensures r == Merged(base, req, typed)
  {
    LaterGroupsUntouched(base, req, 0);
    var c, e := MergeCallbacks(base.checkout, req, base.checkout);
    if e.Some? {
      LaterGroupsUntouched(base, req, FirstBad(req).value);
      return Merge(base.(checkout := c), e);
    }
    c, e := MergeDynamicUrls(base.checkout, req, c);
    if e.Some? {
      LaterGroupsUntouched(base, req, FirstBad(req).value);
      return Merge(base.(checkout := c), e);
    }
    c, e := MergeLimits(base.checkout, req, c);
    if e.Some? {
      LaterGroupsUntouched(base, req, FirstBad(req).value);
      return Merge(base.(checkout := c), e);
    }
    r := MergeRest(base, req, typed, c);
  }

  /** The checked fields from the notification emails on, once the checkout group is written. */
  method MergeRest(base: BillingProject, req: map<string, Json>, typed: Descriptions, c: Checkout) returns (r: Merge)
    requires PanicFree(req) && Reaches(req, 9) && c == MergedCheckout(base.checkout, req, 9)
    ensures r == Merged(base, req, typed)
  {
    LaterGroupsUntouched(base, req, 9);
    var p := base.(checkout := c);
    var t, e := MergeEmails(base.notifications, req, base.notifications);
    if e.Some? {
      CheckoutSettled(base.checkout, req, FirstBad(req).value);
      LaterGroupsUntouched(base, req, FirstBad(req).value);
      return Merge(p.(notifications := t), e);
    }
    t, e := MergeSignatureFlags(base.notifications, req, t);
    if e.Some? {
      CheckoutSettled(base.checkout, req, FirstBad(req).value);
      LaterGroupsUntouched(base, req, FirstBad(req).value);
      return Merge(p.(notifications := t), e);
    }
    t, e := MergeProcessUrls(base.notifications, req, t);
    if e.Some? {
      CheckoutSettled(base.checkout, req, FirstBad(req).value);
      LaterGroupsUntouched(base, req, FirstBad(req).value);
      return Merge(p.(notifications := t), e);
    }
    p := p.(notifications := t);
    assert p == MergedPrefix(base, req, 18);
    r := MergeLast(base, req, typed, p);
  }

  /** The status, the four payment-event URLs and the descriptive fields. */
  method MergeLast(base: BillingProject, req: map<string, Json>, typed: Descriptions, current: BillingProject)
    returns (r: Merge)
    requires PanicFree(req) && Reaches(req, 18) && current == MergedPrefix(base, req, 18)
    ensures r == Merged(base, req, typed)
  {
    var p := current;
    var status, e := TakeStatus(req, p.status);
    if e.Some? {
      FirstBadIs(req, 18);
      return Merge(p, e);
    }
    p := p.(status := status);
    CheckoutSettled(base.checkout, req, 19);
    assert p == MergedPrefix(base, req, 19);
    var u;
    u, e := MergeEventUrls(base.paymentUrls, req, p.paymentUrls);
    if e.Some? {
      CheckoutSettled(base.checkout, req, FirstBad(req).value);
      return Merge(p.(paymentUrls := u), e);
    }
    p := p.(paymentUrls := u);
    CheckoutSettled(base.checkout, req, FieldCount);
    assert p == MergedPrefix(base, req, FieldCount);
    var d := p.descriptions;
    if KeyFullDescription in req {
      d := d.(fullDescription := typed.fullDescription);
    }
    if KeyShortDescription in req {
      d := d.(shortDescription := typed.shortDescription);
    }
    if KeyCover in req {
      d := d.(cover := typed.cover);
    }
    if KeyLocalizations in req {
      d := d.(localizations := typed.localizations);
    }
    if KeyCurrencies in req {
      d := d.(currencies := typed.currencies);
    }
    if KeyVirtualCurrency in req {
      d := d.(virtualCurrency := typed.virtualCurrency);
    }
    return Merge(p.(descriptions := d), None);
  }
  /** The request object the update handler hands to the binder: every field at its zero value. */
  const EmptyProject: BillingProject := BillingProject(
    "", "",
    Checkout(map[], "", "", [], false, false, "", 0.0, 0.0),
    Notifications([], false, "", false, false, "", "", "", ""),
    0,
    PaymentUrls("", "", "", ""),
    Descriptions(JNull, JNull, JNull, JNull, JNull, JNull))

  /** ChangeProjectRequestBinder. */
  class ChangeProjectRequestBinder {

    constructor ()
    {
    }

    /**
      Bind, corrected: `typed` is the body decoded into a project, `decoded` the
      same body as an untyped map, `projectId` the path's `id`, `fetched` the
      billing service's answer to GetProject.
     */
    method Bind(s: Slot<BillingProject>, typed: Result<BillingProject, string>,
                decoded: Result<map<string, Json>, string>, projectId: string, fetched: Rpc<BillingProject>)
      returns (err: Option<BindError>)
      requires Gate(typed, decoded, projectId, fetched).None? ==> PanicFree(decoded.value)
      modifies s
      ensures Gate(typed, decoded, projectId, fetched).Some? ==>
        err == Gate(typed, decoded, projectId, fetched) && s.value == old(s.value)
      ensures Gate(typed, decoded, projectId, fetched).None? ==>
        var m := Merged(Start(old(s.value), projectId, fetched.item), decoded.value, typed.value.descriptions);
        err == m.error && s.value == m.project
    {
      var start := StartGated(s.value, typed, decoded, projectId, fetched);
      if start.Failure? {
        return Some(start.error);
      }
      var p := start.value.(paymentUrls := fetched.item.paymentUrls);
      var m := MergeAll(p, decoded.value, typed.value.descriptions);
      s.value := m.project;
      return m.error;
    }

    /** Bind as written: the payment-event URLs are not taken from the stored project. */
    method BindAsWritten(s: Slot<BillingProject>, typed: Result<BillingProject, string>,
                         decoded: Result<map<string, Json>, string>, projectId: string, fetched: Rpc<BillingProject>)
      returns (err: Option<BindError>)
      requires Gate(typed, decoded, projectId, fetched).None? ==> PanicFree(decoded.value)
      modifies s
      ensures Gate(typed, decoded, projectId, fetched).Some? ==>
        err == Gate(typed, decoded, projectId, fetched) && s.value == old(s.value)
      ensures Gate(typed, decoded, projectId, fetched).None? ==>
        var m := Merged(StartAsWritten(old(s.value), projectId, fetched.item), decoded.value, typed.value.descriptions);
        err == m.error && s.value == m.project
    {
      var start := StartGated(s.value, typed, decoded, projectId, fetched);
      if start.Failure? {
        return Some(start.error);
      }
      var m := MergeAll(start.value, decoded.value, typed.value.descriptions);
      s.value := m.project;
      return m.error;
    }
  }

  /**
    The checks in front of the merge, then the fields the binder copies from the
    stored project (the payment-event URLs not among them).
   */
  method StartGated(p: BillingProject, typed: Result<BillingProject, string>,
                    decoded: Result<map<string, Json>, string>, projectId: string, fetched: Rpc<BillingProject>)
    returns (r: Result<BillingProject, BindError>)
    ensures r.Failure? <==> Gate(typed, decoded, projectId, fetched).Some?
    ensures r.Failure? ==> r.error == Gate(typed, decoded, projectId, fetched).value
    ensures r.Success? ==> r.value == StartAsWritten(p, projectId, fetched.item)
  {
    if typed.Failure? {
      return Failure(RequestParamsIncorrect);
    }
    if decoded.Failure? {
      return Failure(RequestParamsIncorrect);
    }
    if projectId == "" || !Text.IsObjectIdHex(projectId) {
      return Failure(IncorrectProjectId);
    }
    if fetched.CallFailed? {
      return Failure(Unknown);
    }
    if fetched.status != ResponseStatusOk {
      return Failure(ServiceMessage(fetched.message));
    }
    var item := fetched.item;
    var q := p.(id := projectId, merchantId := item.merchantId);
    q := q.(checkout := item.checkout, notifications := item.notifications, status := item.status);
    q := q.(descriptions := item.descriptions);
    return Success(q);
  }

  /** Corrected: a body with none of the payment-event URL keys keeps the stored URLs. */
  lemma AbsentEventUrlsKept(p: BillingProject, projectId: string, stored: BillingProject,
                            req: map<string, Json>, typed: Descriptions)
    requires KeyUrlChargebackPayment !in req && KeyUrlCancelPayment !in req
    requires KeyUrlFraudPayment !in req && KeyUrlRefundPayment !in req
    ensures Merged(Start(p, projectId, stored), req, typed).project.paymentUrls == stored.paymentUrls
  {
  }

  /** As written: such a body leaves the URLs of the object handed in, whatever is stored. */
  lemma AbsentEventUrlsAsWritten(p: BillingProject, projectId: string, stored: BillingProject,
                                 req: map<string, Json>, typed: Descriptions)
    requires KeyUrlChargebackPayment !in req && KeyUrlCancelPayment !in req
    requires KeyUrlFraudPayment !in req && KeyUrlRefundPayment !in req
    ensures Merged(StartAsWritten(p, projectId, stored), req, typed).project.paymentUrls == p.paymentUrls
  {
  }

  /**
    As written, from the handler's empty request object, an empty body clears a
    stored chargeback URL.
   */
  lemma EventUrlsClearedAsWritten(projectId: string, typed: Descriptions)
    ensures var stored := EmptyProject.(paymentUrls := PaymentUrls("https://shop.example/chargeback", "", "", ""));
      && Merged(StartAsWritten(EmptyProject, projectId, stored), map[], typed).project.paymentUrls.urlChargebackPayment == ""
      && stored.paymentUrls.urlChargebackPayment != ""
  {
    var stored := EmptyProject.(paymentUrls := PaymentUrls("https://shop.example/chargeback", "", "", ""));
    AbsentEventUrlsAsWritten(EmptyProject, projectId, stored, map[], typed);
  }

  /** Corrected: an empty body binds the stored project under the path's identifier, without error. */
  lemma EmptyBodyKeepsStored(p: BillingProject, projectId: string, stored: BillingProject, typed: Descriptions)
    ensures Merged(Start(p, projectId, stored), map[], typed) == Merge(stored.(id := projectId), None)
  {
    NoneBadReached(map[], FieldCount);
  }

  /**
    Present, well-typed fields are taken, shown for a sample of one field of each
    kind: a string, a number, a string list, the status, a payment URL, and a
    descriptive field that follows its key.
   */
  lemma FieldsTaken(base: BillingProject, req: map<string, Json>, typed: Descriptions)
    requires FirstBad(req).None?
    ensures var r := Merged(base, req, typed).project;
      && (KeyCallbackCurrency in req ==>
            req[KeyCallbackCurrency].JString? && r.checkout.callbackCurrency == req[KeyCallbackCurrency].s)
      && (KeyMinPaymentAmount in req ==>
            req[KeyMinPaymentAmount].JNumber? && r.checkout.minPaymentAmount == req[KeyMinPaymentAmount].n)
      && (KeyNotifyEmails in req ==>
            req[KeyNotifyEmails].JArray? && |r.notifications.notifyEmails| == |req[KeyNotifyEmails].items|
            && forall i :: 0 <= i < |req[KeyNotifyEmails].items| && req[KeyNotifyEmails].items[i].JString? ==>
                 r.notifications.notifyEmails[i] == req[KeyNotifyEmails].items[i].s)
      && (KeyStatus in req ==> req[KeyStatus].JNumber? && r.status == TruncateTowardZero(req[KeyStatus].n))
      && (KeyUrlRefundPayment in req ==>
            req[KeyUrlRefundPayment].JString? && r.paymentUrls.urlRefundPayment == req[KeyUrlRefundPayment].s)
      && (KeyCover in req ==> r.descriptions.cover == typed.cover)
      && (KeyCover !in req ==> r.descriptions.cover == base.descriptions.cover)
  {
    ReachedNotBad(req, FieldCount, 1);
    ReachedNotBad(req, FieldCount, 7);
    ReachedNotBad(req, FieldCount, 9);
    ReachedNotBad(req, FieldCount, 18);
    ReachedNotBad(req, FieldCount, 22);
  }

  /** A wrongly typed field stops the binder: nothing after it is written. */
  lemma StopLeavesLaterFields(base: BillingProject, req: map<string, Json>, typed: Descriptions)
    requires FirstBad(req).Some?
    ensures var r := Merged(base, req, typed).project;
      && r.descriptions == base.descriptions
      && (FirstBad(req).value < 19 ==> r.paymentUrls == base.paymentUrls)
      && (FirstBad(req).value < 9 ==> r.notifications == base.notifications && r.status == base.status)
  {
  }
}
