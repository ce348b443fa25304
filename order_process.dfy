/**
  The order creation pipeline of OrderManager.Process: a short-circuiting chain
  of checks whose first failure is returned, then the fee arithmetic, and the
  insertion of the new order into the order table.
 */
module OrderProcess {

  import opened Wrappers
  import opened OrderModel
  import opened OrderChecks
  import opened OrderSignature
  import opened OrderLifecycle
  import Text

  /** The orders collection: documents by identifier. */
  class OrderTable {
    var orders: map<string, Order>

    /** Every document is stored under its own identifier. */
    ghost predicate Valid()
      reads this
    {
      forall k :: k in orders ==> orders[k].id == k
    }

    constructor (initial: map<string, Order>)
      requires forall k :: k in initial ==> initial[k].id == k
      ensures orders == initial && Valid()
    {
      orders := initial;
    }

    /** InsertOrder: refused when the identifier is taken. */
    method Insert(o: Order) returns (ok: bool)
      requires Valid()
      modifies this
      ensures Valid()
      ensures ok == (o.id !in old(orders))
      ensures orders == if ok then old(orders)[o.id := o] else old(orders)
    {
      ok := o.id !in orders;
      if ok {
        orders := orders[o.id := o];
      }
    }

    /** UpdateOrder: replaces the stored document with the same identifier. */
    method Update(o: Order) returns (ok: bool)
      requires Valid()
      modifies this
      ensures Valid()
      ensures ok == (o.id in old(orders))
      ensures orders == if ok then old(orders)[o.id := o] else old(orders)
    {
      ok := o.id in orders;
      if ok {
        orders := orders[o.id := o];
      }
    }
  }

  /**
    checkProjectOrderIdUnique: an external order id that some stored order
    already carries is a duplicate. The lookup is by that id alone.
   */
  function CheckProjectOrderIdUnique(orders: map<string, Order>, orderId: Option<string>): (r: Outcome<OrderError>)
    ensures r == Pass <==> (orderId.None? || forall id :: id in orders ==> orders[id].projectOrderId != orderId)
    ensures r.Fail? ==> r.error == ProjectOrderIdIsDuplicate
  {
    if orderId.Some? && exists id :: id in orders && orders[id].projectOrderId == orderId then
      Fail(ProjectOrderIdIsDuplicate)
    else Pass
  }

  /** Once an order with an external id is stored, the same id is refused. */
  lemma DuplicateAfterInsert(orders: map<string, Order>, o: Order, orderId: string)
    requires o.projectOrderId == Some(orderId)
    ensures CheckProjectOrderIdUnique(orders[o.id := o], Some(orderId)) == Fail(ProjectOrderIdIsDuplicate)
  {
    assert o.id in orders[o.id := o];
  }

  /** What the checks resolve, threaded to the pricing and assembly steps. */
  datatype Check = Check(
    project: Project,
    currency: Option<Currency>,
    paymentMethod: Option<PaymentMethod>,
    fixed: Option<FixedPackageChoice>,
    pmOutcome: Option<PmOutcome>,
    commission: Option<Commission>,
    vat: real)

  /** Payment-method limits, commission and VAT for a chosen payment method. */
  datatype Pricing = Pricing(outcome: PmOutcome, commission: Commission, vat: real)

  /**
    The payment-method limits, the commission and, for a merchant with VAT, the VAT
    on the outcome amount. The VAT is computed for the GeoIP record, which only the
    fixed-package step resolves: without it Go dereferences a nil record.
   */
  function PricePaymentMethod(env: Collaborators, p: Project, oc: Option<Currency>, amount: real,
                              pm: PaymentMethod, fixed: Option<FixedPackageChoice>)
    : (r: Result<Pricing, OrderError>)
    ensures var lim := CheckPaymentMethodLimits(env.convert, amount, oc, pm);
      && (lim.Failure? ==> r == Failure(lim.error))
      && (lim.Success? ==>
            var com := env.commission(p.id, pm.id, lim.value.amount);
            && (com.Failure? ==> r == Failure(Collaborator(com.error)))
            && (com.Success? && !p.merchant.isVatEnabled ==> r == Success(Pricing(lim.value, com.value, 0.0)))
            && (com.Success? && p.merchant.isVatEnabled && fixed.None? ==> r == Failure(NilDereference))
            && (com.Success? && p.merchant.isVatEnabled && fixed.Some? ==>
                  var vat := env.vat(fixed.value.geo.countryIsoCode, fixed.value.geo.subdivisionIsoCode, lim.value.amount);
                  && (vat.Failure? ==> r == Failure(Collaborator(vat.error)))
                  && (vat.Success? ==> r == Success(Pricing(lim.value, com.value, vat.value)))))
  {
    var lim := CheckPaymentMethodLimits(env.convert, amount, oc, pm);
    if lim.Failure? then Failure(lim.error)
    else
      var com := env.commission(p.id, pm.id, lim.value.amount);
      if com.Failure? then Failure(Collaborator(com.error))
      else if !p.merchant.isVatEnabled then Success(Pricing(lim.value, com.value, 0.0))
      else if fixed.None? then Failure(NilDereference)
      else
        var vat := env.vat(fixed.value.geo.countryIsoCode, fixed.value.geo.subdivisionIsoCode, lim.value.amount);
        if vat.Failure? then Failure(Collaborator(vat.error))
        else Success(Pricing(lim.value, com.value, vat.value))
  }

  /** What the order document needs that Go dereferences: the order currency and the GeoIP record. */
  predicate Complete(c: Check)
  {
    c.currency.Some? && c.fixed.Some?
  }

  /** A priced payment method comes with its outcome and commission. */
  predicate Priced(c: Check)
  {
    c.paymentMethod.Some? ==> c.pmOutcome.Some? && c.commission.Some?
  }

  // The checks of Process, each stage reached only when the earlier ones pass.

  function ProjectOf(catalog: Catalog, o: OrderScalar): Project
    requires o.projectId in catalog.projects
  {
    catalog.projects[o.projectId]
  }

  /** The project exists and is active: the currency lookup is reached. */
  predicate ReachesCurrency(catalog: Catalog, o: OrderScalar)
  {
    o.projectId in catalog.projects && ProjectOf(catalog, o).isActive
  }

  /** The order carries no currency, or one the catalogue knows. */
  predicate CurrencyKnown(catalog: Catalog, o: OrderScalar)
  {
    o.currency.None? || o.currency.value in catalog.currencies
  }

  function OrderCurrency(catalog: Catalog, o: OrderScalar): Option<Currency>
    requires CurrencyKnown(catalog, o)
  {
    if o.currency.Some? then Some(catalog.currencies[o.currency.value]) else None
  }

  predicate ReachesSignature(catalog: Catalog, o: OrderScalar)
  {
    ReachesCurrency(catalog, o) && CurrencyKnown(catalog, o)
  }

  /** No signature, or a signature equal to the digest checkSignature computes. */
  ghost predicate SignatureOk(catalog: Catalog, env: Collaborators, o: OrderScalar)
    requires o.projectId in catalog.projects
  {
    o.signature.Some? ==> env.sha256(Preimage(o.rawRequestParams, ProjectOf(catalog, o).secretKey)) == o.signature.value
  }

  ghost predicate ReachesPaymentMethod(catalog: Catalog, env: Collaborators, o: OrderScalar)
  {
    ReachesSignature(catalog, o) && SignatureOk(catalog, env, o)
  }

  /** The payment method of the request, resolved by checkPaymentMethod when one is named. */
  function PaymentMethodStage(catalog: Catalog, o: OrderScalar): Result<Option<PaymentMethod>, OrderError>
    requires o.projectId in catalog.projects
  {
    if o.paymentMethod.None? then Success(None)
    else
      var s := SelectPaymentMethod(o.paymentMethod.value, ProjectOf(catalog, o), catalog.paymentMethods);
      if s.Failure? then Failure(s.error) else Success(Some(s.value))
  }

  ghost predicate ReachesFixedPackage(catalog: Catalog, env: Collaborators, o: OrderScalar)
  {
    ReachesPaymentMethod(catalog, env, o) && PaymentMethodStage(catalog, o).Success?
  }

  /** The fixed package, resolved only for a project that takes fixed amounts only. */
  function FixedPackageStage(catalog: Catalog, env: Collaborators, o: OrderScalar)
    : Result<Option<FixedPackageChoice>, OrderError>
    requires o.projectId in catalog.projects
  {
    if !ProjectOf(catalog, o).onlyFixedAmounts then Success(None)
    else
      var f := SelectFixedPackage(o, ProjectOf(catalog, o), env.geoCity);
      if f.Failure? then Failure(f.error) else Success(Some(f.value))
  }

  ghost predicate ReachesProjectLimits(catalog: Catalog, env: Collaborators, o: OrderScalar)
  {
    ReachesFixedPackage(catalog, env, o) && FixedPackageStage(catalog, env, o).Success?
  }

  function ProjectLimitsStage(catalog: Catalog, env: Collaborators, o: OrderScalar): Outcome<OrderError>
    requires ReachesSignature(catalog, o)
  {
    CheckProjectLimits(env.convert, o.amount, OrderCurrency(catalog, o), ProjectOf(catalog, o))
  }

  ghost predicate ReachesPricing(catalog: Catalog, env: Collaborators, o: OrderScalar)
  {
    ReachesProjectLimits(catalog, env, o) && ProjectLimitsStage(catalog, env, o) == Pass
  }

  /** Limits, commission and VAT of the payment method, when the request names one. */
  function PricingStage(catalog: Catalog, env: Collaborators, o: OrderScalar): Result<Option<Pricing>, OrderError>
    requires ReachesProjectLimits(catalog, env, o)
  {
    var pm := PaymentMethodStage(catalog, o).value;
    if pm.None? then Success(None)
    else
      var pr := PricePaymentMethod(env, ProjectOf(catalog, o), OrderCurrency(catalog, o), o.amount, pm.value,
                                   FixedPackageStage(catalog, env, o).value);
      if pr.Failure? then Failure(pr.error) else Success(Some(pr.value))
  }

  ghost predicate ReachesUniqueness(catalog: Catalog, env: Collaborators, o: OrderScalar)
  {
    ReachesPricing(catalog, env, o) && PricingStage(catalog, env, o).Success?
  }

  ghost predicate ReachesNotifyUrls(catalog: Catalog, env: Collaborators, orders: map<string, Order>, o: OrderScalar)
  {
    ReachesUniqueness(catalog, env, o) && CheckProjectOrderIdUnique(orders, o.orderId) == Pass
  }

  /** Dynamic notification URLs are given only to a project that allows them. */
  predicate NotifyUrlsAllowed(catalog: Catalog, o: OrderScalar)
    requires o.projectId in catalog.projects
  {
    (o.urlVerify.Some? || o.urlNotify.Some?) ==> ProjectOf(catalog, o).isAllowDynamicNotifyUrls
  }

  ghost predicate ReachesRedirectUrls(catalog: Catalog, env: Collaborators, orders: map<string, Order>, o: OrderScalar)
  {
    ReachesNotifyUrls(catalog, env, orders, o) && NotifyUrlsAllowed(catalog, o)
  }

  /** Dynamic redirect URLs are given only to a project that allows them. */
  predicate RedirectUrlsAllowed(catalog: Catalog, o: OrderScalar)
    requires o.projectId in catalog.projects
  {
    (o.urlSuccess.Some? || o.urlFail.Some?) ==> ProjectOf(catalog, o).isAllowDynamicRedirectUrls
  }

  /** Every check of Process passes. */
  ghost predicate PassesAll(catalog: Catalog, env: Collaborators, orders: map<string, Order>, o: OrderScalar)
  {
    ReachesRedirectUrls(catalog, env, orders, o) && RedirectUrlsAllowed(catalog, o)
  }

  /**
    The checks of Process in their order: project found, project active, currency
    known, signature, payment method, fixed package, project limits, payment-method
    limits with commission and VAT, unique external id, dynamic URL permissions. The
    first check that fails decides the error; when all pass, the context holds what
    each check resolved.
   */
  ghost function Validate(catalog: Catalog, env: Collaborators, orders: map<string, Order>, o: OrderScalar)
    : (r: Result<Check, OrderError>)
    ensures o.projectId !in catalog.projects ==> r == Failure(ProjectNotFound)
    ensures o.projectId in catalog.projects && !ProjectOf(catalog, o).isActive ==> r == Failure(ProjectInactive)
    ensures ReachesCurrency(catalog, o) && !CurrencyKnown(catalog, o) ==> r == Failure(CurrencyNotFound)
    ensures ReachesSignature(catalog, o) && !SignatureOk(catalog, env, o) ==> r == Failure(SignatureInvalid)
    ensures ReachesPaymentMethod(catalog, env, o) && PaymentMethodStage(catalog, o).Failure? ==>
      r == Failure(PaymentMethodStage(catalog, o).error)
    ensures ReachesFixedPackage(catalog, env, o) && FixedPackageStage(catalog, env, o).Failure? ==>
      r == Failure(FixedPackageStage(catalog, env, o).error)
    ensures ReachesProjectLimits(catalog, env, o) && ProjectLimitsStage(catalog, env, o).Fail? ==>
      r == Failure(ProjectLimitsStage(catalog, env, o).error)
    ensures ReachesPricing(catalog, env, o) && PricingStage(catalog, env, o).Failure? ==>
      r == Failure(PricingStage(catalog, env, o).error)
    ensures ReachesUniqueness(catalog, env, o) && CheckProjectOrderIdUnique(orders, o.orderId).Fail? ==>
      r == Failure(ProjectOrderIdIsDuplicate)
    ensures ReachesNotifyUrls(catalog, env, orders, o) && !NotifyUrlsAllowed(catalog, o) ==>
      r == Failure(DynamicNotifyUrlsNotAllowed)
    ensures ReachesRedirectUrls(catalog, env, orders, o) && !RedirectUrlsAllowed(catalog, o) ==>
      r == Failure(DynamicRedirectUrlsNotAllowed)
    ensures r.Success? <==> PassesAll(catalog, env, orders, o)
    ensures r.Success? ==>
      var pricing := PricingStage(catalog, env, o).value;
      && r.value.project == ProjectOf(catalog, o)
      && r.value.currency == OrderCurrency(catalog, o)
      && r.value.paymentMethod == PaymentMethodStage(catalog, o).value
      && r.value.fixed == FixedPackageStage(catalog, env, o).value
      && (r.value.paymentMethod.Some? <==> pricing.Some?)
      && r.value.pmOutcome == (if pricing.Some? then Some(pricing.value.outcome) else None)
      && r.value.commission == (if pricing.Some? then Some(pricing.value.commission) else None)
      && r.value.vat == (if pricing.Some? then pricing.value.vat else 0.0)
      && Priced(r.value)
  {
    if o.projectId !in catalog.projects then Failure(ProjectNotFound)
    else if !ProjectOf(catalog, o).isActive then Failure(ProjectInactive)
    else if !CurrencyKnown(catalog, o) then Failure(CurrencyNotFound)
    else if !SignatureOk(catalog, env, o) then Failure(SignatureInvalid)
    else if PaymentMethodStage(catalog, o).Failure? then Failure(PaymentMethodStage(catalog, o).error)
    else if FixedPackageStage(catalog, env, o).Failure? then Failure(FixedPackageStage(catalog, env, o).error)
    else if ProjectLimitsStage(catalog, env, o).Fail? then Failure(ProjectLimitsStage(catalog, env, o).error)
    else if PricingStage(catalog, env, o).Failure? then Failure(PricingStage(catalog, env, o).error)
    else if CheckProjectOrderIdUnique(orders, o.orderId).Fail? then Failure(ProjectOrderIdIsDuplicate)
    else if !NotifyUrlsAllowed(catalog, o) then Failure(DynamicNotifyUrlsNotAllowed)
    else if !RedirectUrlsAllowed(catalog, o) then Failure(DynamicRedirectUrlsNotAllowed)
    else
      var pricing := PricingStage(catalog, env, o).value;
      Success(Check(ProjectOf(catalog, o), OrderCurrency(catalog, o), PaymentMethodStage(catalog, o).value,
                    FixedPackageStage(catalog, env, o).value,
                    if pricing.Some? then Some(pricing.value.outcome) else None,
                    if pricing.Some? then Some(pricing.value.commission) else None,
                    if pricing.Some? then pricing.value.vat else 0.0))
  }

  /**
    A request that was accepted is refused as a duplicate once its order is stored,
    whatever else it carries: the earlier checks do not depend on the order table.
   */
  lemma AcceptedRequestReplayRejected(catalog: Catalog, env: Collaborators, orders: map<string, Order>,
                                      o: OrderScalar, n: Order)
    requires Validate(catalog, env, orders, o).Success?
    requires o.orderId.Some? && n.projectOrderId == o.orderId
    ensures Validate(catalog, env, orders[n.id := n], o) == Failure(ProjectOrderIdIsDuplicate)
  {
    DuplicateAfterInsert(orders, n, o.orderId.value);
  }

  /**
    A request without a currency, for an active project that does not take fixed
    amounts only, is still checked against the project limits: below the minimum
    it is refused with that error.
   */
  lemma NoCurrencyBelowMinimumRejected(catalog: Catalog, env: Collaborators, orders: map<string, Order>,
                                       o: OrderScalar)
    requires ReachesCurrency(catalog, o) && !ProjectOf(catalog, o).onlyFixedAmounts
    requires o.currency.None? && o.signature.None? && o.paymentMethod.None?
    requires o.amount < ProjectOf(catalog, o).minPaymentAmount
    ensures Validate(catalog, env, orders, o) == Failure(AmountLowerThanMinAllowed)
  {
  }

  const DescriptionPrefix: string := "Payment by order # "

  /**
    The order document of Process, from the resolved checks. The two currency
    conversions of the fees can fail; the conversions of the order amount into the
    merchant and callback currencies are used whatever they report.
   */
  function Assemble(env: Collaborators, c: Check, o: OrderScalar, newId: string, now: int)
    : (r: Result<Order, OrderError>)
    requires Priced(c)
    ensures r == Failure(NilDereference) <==> !Complete(c)
    ensures Complete(c) && r.Failure? ==> r.error.Collaborator? && c.paymentMethod.Some?
    ensures Complete(c) && c.paymentMethod.None? ==> r.Success?
    ensures r.Success? ==>
      var p := c.project;
      var n := r.value;
      var fmt := env.formatAmount;
      && n.id == newId && n.status == New && n.createdAt == now
      && n.projectId == p.id && n.merchant == p.merchant
      && n.description == (if o.description.Some? then o.description.value else DescriptionPrefix + newId)
      && n.projectOrderId == o.orderId && n.projectAccount == o.account && n.projectParams == o.other
      && n.projectIncomeAmount == fmt(o.amount)
      && n.projectIncomeCurrency == c.currency.value
      && n.projectOutcomeCurrency == p.callbackCurrency
      && n.projectOutcomeAmount
           == fmt(env.convert(c.currency.value.codeInt, p.callbackCurrency.codeInt, o.amount).amount)
      && n.amountInMerchantAccountingCurrency
           == fmt(env.convert(c.currency.value.codeInt, p.merchant.currency.codeInt, o.amount).amount)
      && n.fixedPackage == Some(c.fixed.value.package)
      && n.payerData == PayerData(o.createOrderIp, c.fixed.value.geo.countryIsoCode,
                                  c.fixed.value.geo.subdivisionIsoCode, c.fixed.value.geo.timezone,
                                  o.payerPhone, o.payerEmail)
      && n.vatAmount == fmt(c.vat)
      && (n.paymentMethod.Some? <==> c.paymentMethod.Some?)
      && n.paymentMethodIncomeAmount == 0.0 && n.paymentMethodIncomeCurrency.None?
    ensures r.Success? && c.paymentMethod.None? ==>
      var n := r.value;
      && n.paymentMethodOutcomeAmount == 0.0 && n.paymentMethodOutcomeCurrency.None?
      && n.projectFeeAmount == 0.0 && n.paymentMethodFeeAmount == 0.0
      && n.pspFeeAmount == 0.0 && n.toPayerFeeAmount == 0.0
    ensures c.paymentMethod.Some? ==>
      var m := c.project.merchant;
      var pm := c.paymentMethod.value;
      var com := c.commission.value;
      var fmt := env.formatAmount;
      var fee := fmt(com.pspCommission + com.pmCommission);
      var projectFee := if m.isCommissionToUserEnabled then fmt(fee - fmt(com.toUserCommission)) else fee;
      var pspConvert := env.convert(pm.currency.codeInt, m.currency.codeInt, com.pmCommission);
      var prjConvert := env.convert(pm.currency.codeInt, m.currency.codeInt, projectFee);
      && (Complete(c) ==> (r.Success? <==> pspConvert.failure.None? && prjConvert.failure.None?))
      && (r.Success? ==>
            var n := r.value;
            && n.paymentMethod == Some(OrderPaymentMethod(pm.id, pm.name, pm.paymentSystem, pm.groupAlias))
            && n.paymentMethodOutcomeCurrency == Some(c.pmOutcome.value.currency)
            && n.paymentMethodOutcomeAmount
                 == fmt(c.pmOutcome.value.amount
                        + (if m.isCommissionToUserEnabled then com.toUserCommission else 0.0)
                        + (if m.isVatEnabled then c.vat else 0.0))
            && n.paymentMethodFeeAmount == fmt(com.pmCommission)
            && n.pspFeeAmount == fmt(pspConvert.amount)
            && n.toPayerFeeAmount == (if m.isCommissionToUserEnabled then fmt(com.toUserCommission) else 0.0)
            && n.projectFeeAmount == fmt(prjConvert.amount))
  {
    if !Complete(c) then Failure(NilDereference)
    else
      var n := BaseOrder(env, c, o, newId, now);
      if c.paymentMethod.None? then Success(n) else WithPaymentMethod(env, c, n)
  }

  /**
    No order is built for a project that does not take fixed amounts only: its
    checks resolve no GeoIP record, which the order document dereferences.
   */
  lemma NotFixedReachesNilDereference(catalog: Catalog, env: Collaborators, orders: map<string, Order>,
                                      o: OrderScalar, newId: string, now: int)
    requires Validate(catalog, env, orders, o).Success?
    requires !ProjectOf(catalog, o).onlyFixedAmounts
    ensures Assemble(env, Validate(catalog, env, orders, o).value, o, newId, now) == Failure(NilDereference)
  {
  }

  /** The order as built before a payment method is priced into it. */
  function BaseOrder(env: Collaborators, c: Check, o: OrderScalar, newId: string, now: int): Order
    requires Complete(c)
  {
    var p := c.project;
    var fmt := env.formatAmount;
    var oCurrency := c.currency.value;
    var gRecord := c.fixed.value.geo;
    var mACAmount := env.convert(oCurrency.codeInt, p.merchant.currency.codeInt, o.amount).amount;
    var pOutAmount := env.convert(oCurrency.codeInt, p.callbackCurrency.codeInt, o.amount).amount;
    Order(
      id := newId,
      projectId := p.id,
      merchant := p.merchant,
      description := if o.description.Some? then o.description.value else DescriptionPrefix + newId,
      projectOrderId := o.orderId,
      projectAccount := o.account,
      projectIncomeAmount := fmt(o.amount),
      projectIncomeCurrency := oCurrency,
      projectOutcomeAmount := fmt(pOutAmount),
      projectOutcomeCurrency := p.callbackCurrency,
      projectParams := o.other,
      payerData := PayerData(o.createOrderIp, gRecord.countryIsoCode, gRecord.subdivisionIsoCode,
                             gRecord.timezone, o.payerPhone, o.payerEmail),
      status := New,
      createdAt := now,
      updatedAt := 0,
      fixedPackage := Some(c.fixed.value.package),
      amountInMerchantAccountingCurrency := fmt(mACAmount),
      vatAmount := fmt(c.vat),
      paymentMethod := None,
      paymentMethodOutcomeAmount := 0.0,
      paymentMethodOutcomeCurrency := None,
      projectFeeAmount := 0.0,
      paymentMethodFeeAmount := 0.0,
      pspFeeAmount := 0.0,
      toPayerFeeAmount := 0.0,
      paymentMethodIncomeCurrencyA3 := "",
      paymentMethodIncomeAmount := 0.0,
      paymentMethodIncomeCurrency := None,
      amountInPSPAccountingCurrency := 0.0,
      amountOutMerchantAccountingCurrency := 0.0,
      amountInPaymentSystemAccountingCurrency := 0.0)
  }

  /** The payment method, its outcome and the fees, priced into the order `n`. */
  function WithPaymentMethod(env: Collaborators, c: Check, n: Order): Result<Order, OrderError>
    requires Complete(c) && Priced(c) && c.paymentMethod.Some?
  {
    var fmt := env.formatAmount;
    var pm := c.paymentMethod.value;
    var com := c.commission.value;
    var m := c.project.merchant;
    var pmOutAmount := c.pmOutcome.value.amount
      + (if m.isCommissionToUserEnabled then com.toUserCommission else 0.0)
      + (if m.isVatEnabled then c.vat else 0.0);
    var pspConvert := env.convert(pm.currency.codeInt, m.currency.codeInt, com.pmCommission);
    var toPayer := if m.isCommissionToUserEnabled then fmt(com.toUserCommission) else n.toPayerFeeAmount;
    var fee := fmt(com.pspCommission + com.pmCommission);
    var projectFee := if m.isCommissionToUserEnabled then fmt(fee - toPayer) else fee;
    var prjConvert := env.convert(pm.currency.codeInt, m.currency.codeInt, projectFee);
    if pspConvert.failure.Some? then Failure(Collaborator(pspConvert.failure.value))
    else if prjConvert.failure.Some? then Failure(Collaborator(prjConvert.failure.value))
    else
      Success(n.(
        paymentMethod := Some(OrderPaymentMethod(pm.id, pm.name, pm.paymentSystem, pm.groupAlias)),
        paymentMethodOutcomeAmount := fmt(pmOutAmount),
        paymentMethodOutcomeCurrency := Some(c.pmOutcome.value.currency),
        paymentMethodFeeAmount := fmt(com.pmCommission),
        pspFeeAmount := fmt(pspConvert.amount),
        toPayerFeeAmount := toPayer,
        projectFeeAmount := fmt(prjConvert.amount)))
  }

  /** The order manager: reference data, collaborators and the order table. */
  class OrderManager {
    const catalog: Catalog
    const env: Collaborators
    const table: OrderTable

    constructor (catalog: Catalog, env: Collaborators, table: OrderTable)
      ensures this.catalog == catalog && this.env == env && this.table == table
    {
      this.catalog := catalog;
      this.env := env;
      this.table := table;
    }

    /** The checks of Process, one after the other, against the current order table. */
    method RunChecks(o: OrderScalar) returns (r: Result<Check, OrderError>)
      ensures r == Validate(catalog, env, table.orders, o)
    {
      if o.projectId !in catalog.projects {
        return Failure(ProjectNotFound);
      }
      var p := catalog.projects[o.projectId];
      if !p.isActive {
        return Failure(ProjectInactive);
      }
      var oCurrency: Option<Currency> := None;
      if o.currency.Some? {
        if o.currency.value !in catalog.currencies {
          return Failure(CurrencyNotFound);
        }
        oCurrency := Some(catalog.currencies[o.currency.value]);
      }

      if o.signature.Some? {
        var sig := CheckSignature(o.rawRequestParams, p.secretKey, o.signature.value, env.sha256);
        if sig.Fail? {
          return Failure(sig.error);
        }
      }

      var pm: Option<PaymentMethod> := None;
      if o.paymentMethod.Some? {
        var found := CheckPaymentMethod(o.paymentMethod.value, p, catalog.paymentMethods);
        if found.Failure? {
          return Failure(found.error);
        }
        pm := Some(found.value);
      }
      r := RunPricingChecks(o, p, oCurrency, pm);
    }

    /** The checks of Process from the fixed package on, once the payment method is resolved. */
    method RunPricingChecks(o: OrderScalar, p: Project, oCurrency: Option<Currency>, pm: Option<PaymentMethod>)
      returns (r: Result<Check, OrderError>)
      requires ReachesFixedPackage(catalog, env, o)
      requires p == ProjectOf(catalog, o) && oCurrency == OrderCurrency(catalog, o)
      requires pm == PaymentMethodStage(catalog, o).value
      ensures r == Validate(catalog, env, table.orders, o)
    {
      var fixed: Option<FixedPackageChoice> := None;
      if p.onlyFixedAmounts {
        var fp := GetOrderFixedPackage(o, p, env.geoCity);
        if fp.Failure? {
          return Failure(fp.error);
        }
        fixed := Some(fp.value);
      }

      var limits := CheckProjectLimits(env.convert, o.amount, oCurrency, p);
      if limits.Fail? {
        return Failure(limits.error);
      }

      var pricing: Option<Pricing> := None;
      if pm.Some? {
        var priced := PricePaymentMethod(env, p, oCurrency, o.amount, pm.value, fixed);
        if priced.Failure? {
          return Failure(priced.error);
        }
        pricing := Some(priced.value);
      }

      if o.orderId.Some? {
        var unique := CheckProjectOrderIdUnique(table.orders, o.orderId);
        if unique.Fail? {
          return Failure(unique.error);
        }
      }
      if (o.urlVerify.Some? || o.urlNotify.Some?) && !p.isAllowDynamicNotifyUrls {
        return Failure(DynamicNotifyUrlsNotAllowed);
      }
      if (o.urlSuccess.Some? || o.urlFail.Some?) && !p.isAllowDynamicRedirectUrls {
        return Failure(DynamicRedirectUrlsNotAllowed);
      }
      return Success(Check(p, oCurrency, pm, fixed,
                           if pm.Some? then Some(pricing.value.outcome) else None,
                           if pm.Some? then Some(pricing.value.commission) else None,
                           if pm.Some? then pricing.value.vat else 0.0));
    }

    /** The order document of Process, filled in field by field. */
    method BuildOrder(c: Check, o: OrderScalar, newId: string, now: int) returns (r: Result<Order, OrderError>)
      requires Priced(c)
      ensures r == Assemble(env, c, o, newId, now)
    {
      if c.currency.None? || c.fixed.None? {
        return Failure(NilDereference);
      }
      var fmt := env.formatAmount;
      var p := c.project;
      var oCurrency := c.currency.value;
      var gRecord := c.fixed.value.geo;
      var mACAmount := env.convert(oCurrency.codeInt, p.merchant.currency.codeInt, o.amount).amount;
      var pOutAmount := env.convert(oCurrency.codeInt, p.callbackCurrency.codeInt, o.amount).amount;

      var n := Order(
        id := newId,
        projectId := p.id,
        merchant := p.merchant,
        description := DescriptionPrefix + newId,
        projectOrderId := o.orderId,
        projectAccount := o.account,
        projectIncomeAmount := fmt(o.amount),
        projectIncomeCurrency := oCurrency,
        projectOutcomeAmount := fmt(pOutAmount),
        projectOutcomeCurrency := p.callbackCurrency,
        projectParams := o.other,
        payerData := PayerData(o.createOrderIp, gRecord.countryIsoCode, gRecord.subdivisionIsoCode,
                               gRecord.timezone, o.payerPhone, o.payerEmail),
        status := New,
        createdAt := now,
        updatedAt := 0,
        fixedPackage := Some(c.fixed.value.package),
        amountInMerchantAccountingCurrency := fmt(mACAmount),
        vatAmount := fmt(c.vat),
        paymentMethod := None,
        paymentMethodOutcomeAmount := 0.0,
        paymentMethodOutcomeCurrency := None,
        projectFeeAmount := 0.0,
        paymentMethodFeeAmount := 0.0,
        pspFeeAmount := 0.0,
        toPayerFeeAmount := 0.0,
        paymentMethodIncomeCurrencyA3 := "",
        paymentMethodIncomeAmount := 0.0,
        paymentMethodIncomeCurrency := None,
        amountInPSPAccountingCurrency := 0.0,
        amountOutMerchantAccountingCurrency := 0.0,
        amountInPaymentSystemAccountingCurrency := 0.0);

      if o.description.Some? {
        n := n.(description := o.description.value);
      }

      assert n == BaseOrder(env, c, o, newId, now);
      if c.paymentMethod.Some? {
        r := ChargePaymentMethod(c, n);
        return;
      }
      return Success(n);
    }

    /** The payment method's part of the order: its outcome amount and the fees. */
    method ChargePaymentMethod(c: Check, n0: Order) returns (r: Result<Order, OrderError>)
      requires Complete(c) && Priced(c) && c.paymentMethod.Some?
      ensures r == WithPaymentMethod(env, c, n0)
    {
      var fmt := env.formatAmount;
      var p := c.project;
      var n := n0;
      var chosen := c.paymentMethod.value;
      var com := c.commission.value;
      var pmOutAmount := c.pmOutcome.value.amount;
      if p.merchant.isCommissionToUserEnabled {
        pmOutAmount := pmOutAmount + com.toUserCommission;
      }
      if p.merchant.isVatEnabled {
        pmOutAmount := pmOutAmount + c.vat;
      }
      n := n.(paymentMethod := Some(OrderPaymentMethod(chosen.id, chosen.name, chosen.paymentSystem, chosen.groupAlias)));
      n := n.(paymentMethodOutcomeAmount := fmt(pmOutAmount));
      n := n.(paymentMethodOutcomeCurrency := Some(c.pmOutcome.value.currency));

      n := n.(projectFeeAmount := fmt(com.pspCommission + com.pmCommission));
      n := n.(paymentMethodFeeAmount := fmt(com.pmCommission));

      var pspConvert := env.convert(chosen.currency.codeInt, p.merchant.currency.codeInt, com.pmCommission);
      if pspConvert.failure.Some? {
        return Failure(Collaborator(pspConvert.failure.value));
      }
      n := n.(pspFeeAmount := fmt(pspConvert.amount));

      if p.merchant.isCommissionToUserEnabled {
        n := n.(toPayerFeeAmount := fmt(com.toUserCommission));
        n := n.(projectFeeAmount := fmt(n.projectFeeAmount - n.toPayerFeeAmount));
      }

      var prjConvert := env.convert(chosen.currency.codeInt, p.merchant.currency.codeInt, n.projectFeeAmount);
      if prjConvert.failure.Some? {
        return Failure(Collaborator(prjConvert.failure.value));
      }
      n := n.(projectFeeAmount := fmt(prjConvert.amount));
      return Success(n);
    }

    /**
      Process: validate and price an order request and store the new order. `newId`
      stands for the generated ObjectId and `now` for the clock.
     */
    method Process(o: OrderScalar, newId: string, now: int) returns (r: Result<Order, OrderError>)
      requires table.Valid()
      modifies table
      ensures table.Valid()
      ensures var v := Validate(catalog, env, old(table.orders), o);
        && (v.Failure? ==> r == Failure(v.error))
        && (v.Success? ==>
             var a := Assemble(env, v.value, o, newId, now);
             && (a.Failure? ==> r == a)
             && (a.Success? && newId in old(table.orders) ==> r == Failure(CanNotCreate))
             && (a.Success? && newId !in old(table.orders) ==>
                   r == a && table.orders == old(table.orders)[newId := a.value]))
      ensures r.Failure? ==> table.orders == old(table.orders)
    {
      var c := RunChecks(o);
      if c.Failure? {
        return Failure(c.error);
      }
      var n := BuildOrder(c.value, o, newId, now);
      if n.Failure? {
        return n;
      }
      var inserted := table.Insert(n.value);
      if !inserted {
        return Failure(CanNotCreate);
      }
      return n;
    }

    /**
      ProcessNotifyPayment. `handlerError` is the failure of looking up the payment
      system's handler, if any; `processPayment` is that handler applied to the
      notification; `now` stands for the clock.
     */
    method ProcessNotifyPayment(id: string, handlerError: Option<string>,
                                processPayment: Order -> HandlerOutcome, now: int)
      returns (r: NotifyResult)
      requires Text.IsObjectIdHex(id)
      requires table.Valid() && HandlerKeepsOrder(processPayment)
      modifies table
      ensures table.Valid()
      ensures var g := NotifyGate(old(table.orders), id);
        && (g.Failure? ==> r == NotifyFailed(g.error))
        && (g.Success? && handlerError.Some? ==> r == NotifyFailed(Collaborator(handlerError.value)))
        && (g.Success? && handlerError.None? ==>
              var h := processPayment(g.value);
              var a := NotifyAmounts(catalog, env.convert, h.order.(status := NotifiedStatus(h.error)));
              && (a.Failure? ==> r == NotifyFailed(a.error))
              && (a.Success? ==> r == Notified(a.value.(updatedAt := now), h.error)))
      ensures r.NotifyFailed? ==> table.orders == old(table.orders)
      ensures r.Notified? ==>
        && table.orders == old(table.orders)[id := r.order]
        && r.order.status == NotifiedStatus(r.handlerError)
        && NotifyGate(table.orders, id) == Failure(OrderAlreadyHasEndedStatus(r.order.status))
    {
      var found := NotifyGate(table.orders, id);
      if found.Failure? {
        return NotifyFailed(found.error);
      }
      if handlerError.Some? {
        return NotifyFailed(Collaborator(handlerError.value));
      }
      var handled := processPayment(found.value);
      var o := handled.order;
      o := o.(status := NotifiedStatus(handled.error));
      var amounts := NotifyAmounts(catalog, env.convert, o);
      if amounts.Failure? {
        return NotifyFailed(amounts.error);
      }
      o := amounts.value;
      o := o.(updatedAt := now);
      var _ := table.Update(o);
      return Notified(o, handled.error);
    }

    /** modifyOrderAfterOrderFormSubmit, step by step. */
    method ModifyOrderAfterOrderFormSubmit(o: Order, pm: PaymentMethod) returns (r: Result<Order, OrderError>)
      ensures r == Resubmitted(catalog, env, o, pm)
    {
      if o.paymentMethod.Some? && o.paymentMethod.value.id == pm.id {
        return Success(o);
      }
      if o.projectId !in catalog.projects {
        return Failure(ProjectNotFound);
      }
      var p := catalog.projects[o.projectId];
      var pmOutData := CheckPaymentMethodLimits(env.convert, o.projectIncomeAmount, Some(o.projectIncomeCurrency), pm);
      if pmOutData.Failure? {
        return Failure(pmOutData.error);
      }
      var commissions := env.commission(o.projectId, pm.id, pmOutData.value.amount);
      if commissions.Failure? {
        return Failure(NilDereference);
      }
      r := Reprice(o, pm, p.merchant.currency, pmOutData.value, commissions.value);
    }

    /** The fees, the VAT and the payment method's outcome, written into the order. */
    method Reprice(o: Order, pm: PaymentMethod, merchantCurrency: Currency, pmOutData: PmOutcome,
                   commissions: Commission) returns (r: Result<Order, OrderError>)
      ensures r == Repriced(env, o, pm, merchantCurrency, pmOutData, commissions)
    {
      var fmt := env.formatAmount;
      var pmOutAmount := pmOutData.amount;

      var n := o;
      n := n.(projectFeeAmount := fmt(commissions.pspCommission + commissions.pmCommission));
      n := n.(paymentMethodFeeAmount := fmt(commissions.pmCommission));

      var pspConvert := env.convert(pm.currency.codeInt, merchantCurrency.codeInt, commissions.pmCommission);
      if pspConvert.failure.Some? {
        return Failure(Collaborator(pspConvert.failure.value));
      }
      n := n.(pspFeeAmount := fmt(pspConvert.amount));

      if o.merchant.isCommissionToUserEnabled {
        pmOutAmount := pmOutAmount + commissions.toUserCommission;
        n := n.(toPayerFeeAmount := fmt(commissions.toUserCommission));
        n := n.(projectFeeAmount := fmt(n.projectFeeAmount - n.toPayerFeeAmount));
      }

      var prjConvert := env.convert(pm.currency.codeInt, merchantCurrency.codeInt, n.projectFeeAmount);
      if prjConvert.failure.Some? {
        return Failure(Collaborator(prjConvert.failure.value));
      }
      n := n.(projectFeeAmount := fmt(prjConvert.amount));

      if o.merchant.isVatEnabled {
        var vat := env.vat(o.payerData.countryCodeA2, o.payerData.subdivision, pmOutData.amount);
        if vat.Failure? {
          return Failure(Collaborator(vat.error));
        }
        pmOutAmount := pmOutAmount + vat.value;
        n := n.(vatAmount := fmt(vat.value));
      }

      n := n.(paymentMethod := Some(OrderPaymentMethod(pm.id, pm.name, pm.paymentSystem, pm.groupAlias)));
      n := n.(paymentMethodOutcomeAmount := fmt(pmOutAmount));
      n := n.(paymentMethodOutcomeCurrency := Some(pmOutData.currency));
      return Success(n);
    }
  }
}
