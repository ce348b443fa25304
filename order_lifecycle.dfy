/**
  What happens to an order after it is created: the payment-form resubmission
  that may switch its payment method (modifyOrderAfterOrderFormSubmit), the
  required fields of a create-payment request (validateCreatePaymentData), and the
  payment-system notification that ends it (ProcessNotifyPayment and
  processNotifyPaymentAmounts).
 */
module OrderLifecycle {

  import opened Wrappers
  import opened OrderModel
  import opened OrderChecks

  // ---------------------------------------------------------------- create payment

  /** The names of the required create-payment fields (declared in the model package). */
  const FieldOrderId: string := "order_id"
  const FieldPaymentMethodId: string := "payment_method_id"
  const FieldEmail: string := "email"

  /** validateCreatePaymentData: order id, then payment method id, then email. */
  function ValidateCreatePaymentData(data: map<string, string>): (r: Outcome<OrderError>)
    ensures r == Pass <==> FieldOrderId in data && FieldPaymentMethodId in data && FieldEmail in data
    ensures r == Fail(RequiredFieldIdNotFound) <==> FieldOrderId !in data
    ensures r == Fail(RequiredFieldPaymentMethodNotFound) <==> FieldOrderId in data && FieldPaymentMethodId !in data
    ensures r == Fail(RequiredFieldEmailNotFound)
      <==> FieldOrderId in data && FieldPaymentMethodId in data && FieldEmail !in data
  {
    if FieldOrderId !in data then Fail(RequiredFieldIdNotFound)
    else if FieldPaymentMethodId !in data then Fail(RequiredFieldPaymentMethodNotFound)
    else if FieldEmail !in data then Fail(RequiredFieldEmailNotFound)
    else Pass
  }

  // ---------------------------------------------------------------- form resubmission

  predicate SamePaymentMethod(o: Order, pm: PaymentMethod)
  {
    o.paymentMethod.Some? && o.paymentMethod.value.id == pm.id
  }

  /** The limits of the new payment method, checked on the order's income amount. */
  function ResubmitLimits(env: Collaborators, o: Order, pm: PaymentMethod): Result<PmOutcome, OrderError>
  {
    CheckPaymentMethodLimits(env.convert, o.projectIncomeAmount, Some(o.projectIncomeCurrency), pm)
  }

  /** Every field other than the payment method and its fees and amounts is the same. */
  predicate SameApartFromPricing(a: Order, b: Order)
  {
    a.(projectFeeAmount := b.projectFeeAmount, paymentMethodFeeAmount := b.paymentMethodFeeAmount,
       pspFeeAmount := b.pspFeeAmount, toPayerFeeAmount := b.toPayerFeeAmount, vatAmount := b.vatAmount,
       paymentMethod := b.paymentMethod, paymentMethodOutcomeAmount := b.paymentMethodOutcomeAmount,
       paymentMethodOutcomeCurrency := b.paymentMethodOutcomeCurrency) == b
  }

  /**
    modifyOrderAfterOrderFormSubmit: reprice an order for the payment method chosen
    on the payment form. The merchant's flags come from the order's copy of the
    project; the merchant currency from the project as it is now. The commission
    error is not inspected before the commission is read, so a failed commission
    lookup reaches a nil dereference.
   */
  function Resubmitted(catalog: Catalog, env: Collaborators, o: Order, pm: PaymentMethod): (r: Result<Order, OrderError>)
    ensures SamePaymentMethod(o, pm) ==> r == Success(o)
    ensures r.Success? ==> SamePaymentMethod(r.value, pm) && SameApartFromPricing(r.value, o)
    ensures !SamePaymentMethod(o, pm) ==>
      var lim := ResubmitLimits(env, o, pm);
      && (o.projectId !in catalog.projects ==> r == Failure(ProjectNotFound))
      && (o.projectId in catalog.projects && lim.Failure? ==> r == Failure(lim.error))
      && (o.projectId in catalog.projects && lim.Success? ==>
            var com := env.commission(o.projectId, pm.id, lim.value.amount);
            && (com.Failure? ==> r == Failure(NilDereference))
            && (com.Success? ==>
                  r == Repriced(env, o, pm, catalog.projects[o.projectId].merchant.currency, lim.value, com.value)))
  {
    if SamePaymentMethod(o, pm) then Success(o)
    else if o.projectId !in catalog.projects then Failure(ProjectNotFound)
    else
      var p := catalog.projects[o.projectId];
      var lim := ResubmitLimits(env, o, pm);
      if lim.Failure? then Failure(lim.error)
      else
        var com := env.commission(o.projectId, pm.id, lim.value.amount);
        if com.Failure? then Failure(NilDereference)
        else Repriced(env, o, pm, p.merchant.currency, lim.value, com.value)
  }

  /**
    The repricing once the limits have passed: `lim` is the outcome in the method's
    currency, `com` the commission for it, `merchantCurrency` the project's merchant
    currency. The PSP fee and the project fee are converted into the merchant
    currency; when the user pays the commission, the project fee is reduced by the
    user's part and the outcome amount raised by it; with VAT enabled the VAT is
    added to the outcome amount. The first conversion or VAT failure is returned.
   */
  function Repriced(env: Collaborators, o: Order, pm: PaymentMethod, merchantCurrency: Currency,
                    lim: PmOutcome, com: Commission): (r: Result<Order, OrderError>)
    ensures
      var fmt := env.formatAmount;
      var userPays := o.merchant.isCommissionToUserEnabled;
      var vatOn := o.merchant.isVatEnabled;
      var psp := env.convert(pm.currency.codeInt, merchantCurrency.codeInt, com.pmCommission);
      var toUser := fmt(com.toUserCommission);
      var fee := fmt(com.pspCommission + com.pmCommission);
      var projectFee := if userPays then fmt(fee - toUser) else fee;
      var prj := env.convert(pm.currency.codeInt, merchantCurrency.codeInt, projectFee);
      var vat := env.vat(o.payerData.countryCodeA2, o.payerData.subdivision, lim.amount);
      && (r.Success? <==> psp.failure.None? && prj.failure.None? && (vatOn ==> vat.Success?))
      && (psp.failure.Some? ==> r == Failure(Collaborator(psp.failure.value)))
      && (psp.failure.None? && prj.failure.Some? ==> r == Failure(Collaborator(prj.failure.value)))
      && (psp.failure.None? && prj.failure.None? && vatOn && vat.Failure? ==> r == Failure(Collaborator(vat.error)))
      && (r.Success? ==>
            var n := r.value;
            && SameApartFromPricing(n, o)
            && n.paymentMethod == Some(OrderPaymentMethod(pm.id, pm.name, pm.paymentSystem, pm.groupAlias))
            && n.paymentMethodOutcomeCurrency == Some(lim.currency)
            && n.paymentMethodOutcomeAmount
                 == fmt(lim.amount + (if userPays then com.toUserCommission else 0.0) + (if vatOn then vat.value else 0.0))
            && n.paymentMethodFeeAmount == fmt(com.pmCommission)
            && n.pspFeeAmount == fmt(psp.amount)
            && n.projectFeeAmount == fmt(prj.amount)
            && n.toPayerFeeAmount == (if userPays then toUser else o.toPayerFeeAmount)
            && n.vatAmount == (if vatOn then fmt(vat.value) else o.vatAmount))
  {
    var fmt := env.formatAmount;
    var userPays := o.merchant.isCommissionToUserEnabled;
    var psp := env.convert(pm.currency.codeInt, merchantCurrency.codeInt, com.pmCommission);
    var toPayer := if userPays then fmt(com.toUserCommission) else o.toPayerFeeAmount;
    var fee := fmt(com.pspCommission + com.pmCommission);
    var projectFee := if userPays then fmt(fee - toPayer) else fee;
    var prj := env.convert(pm.currency.codeInt, merchantCurrency.codeInt, projectFee);
    var vat := env.vat(o.payerData.countryCodeA2, o.payerData.subdivision, lim.amount);
    if psp.failure.Some? then Failure(Collaborator(psp.failure.value))
    else if prj.failure.Some? then Failure(Collaborator(prj.failure.value))
    else if o.merchant.isVatEnabled && vat.Failure? then Failure(Collaborator(vat.error))
    else
      var outAmount := lim.amount + (if userPays then com.toUserCommission else 0.0)
                       + (if o.merchant.isVatEnabled then vat.value else 0.0);
      Success(o.(
        projectFeeAmount := fmt(prj.amount),
        paymentMethodFeeAmount := fmt(com.pmCommission),
        pspFeeAmount := fmt(psp.amount),
        toPayerFeeAmount := toPayer,
        vatAmount := if o.merchant.isVatEnabled then fmt(vat.value) else o.vatAmount,
        paymentMethod := Some(OrderPaymentMethod(pm.id, pm.name, pm.paymentSystem, pm.groupAlias)),
        paymentMethodOutcomeAmount := fmt(outAmount),
        paymentMethodOutcomeCurrency := Some(lim.currency)))
  }

  /** Submitting the form again with the method just applied changes nothing. */
  lemma ResubmitIdempotent(catalog: Catalog, env: Collaborators, o: Order, pm: PaymentMethod)
    requires Resubmitted(catalog, env, o, pm).Success?
    ensures var o' := Resubmitted(catalog, env, o, pm).value;
      Resubmitted(catalog, env, o', pm) == Success(o')
  {
    var o' := Resubmitted(catalog, env, o, pm).value;
    assert SamePaymentMethod(o', pm);
  }

  // ---------------------------------------------------------------- notification

  /** The order names a payment method with a payment system, whose accounting currency the notification reads. */
  predicate PaymentSystemKnown(o: Order)
  {
    o.paymentMethod.Some? && o.paymentMethod.value.paymentSystem.Some?
  }

  /** Only the income currency and the four recomputed amounts differ. */
  predicate SameApartFromIncome(a: Order, b: Order)
  {
    a.(paymentMethodIncomeCurrency := b.paymentMethodIncomeCurrency,
       projectOutcomeAmount := b.projectOutcomeAmount,
       amountInPSPAccountingCurrency := b.amountInPSPAccountingCurrency,
       amountOutMerchantAccountingCurrency := b.amountOutMerchantAccountingCurrency,
       amountInPaymentSystemAccountingCurrency := b.amountInPaymentSystemAccountingCurrency) == b
  }

  /**
    processNotifyPaymentAmounts: the income the payment system reported, converted
    into the callback, PSP accounting, merchant and payment-system currencies.
   */
  function NotifyAmounts(catalog: Catalog, convert: (int, int, real) -> Conversion, o: Order)
    : (r: Result<Order, OrderError>)
    ensures o.paymentMethodIncomeCurrencyA3 !in catalog.currencies <==> r == Failure(PaymentMethodIncomeCurrencyNotFound)
    ensures o.paymentMethodIncomeCurrencyA3 in catalog.currencies ==>
      var ic := catalog.currencies[o.paymentMethodIncomeCurrencyA3];
      var amount := o.paymentMethodIncomeAmount;
      var outcome := convert(ic.codeInt, o.projectOutcomeCurrency.codeInt, amount);
      var merchant := convert(ic.codeInt, o.merchant.currency.codeInt, amount);
      && (outcome.failure.Some? ==> r == Failure(Collaborator(outcome.failure.value)))
      && (outcome.failure.None? && catalog.pspAccountingCurrency.None? <==> r == Failure(PSPAccountingCurrencyNotFound))
      && (outcome.failure.None? && catalog.pspAccountingCurrency.Some? ==>
            var psp := convert(ic.codeInt, catalog.pspAccountingCurrency.value.codeInt, amount);
            && (psp.failure.Some? ==> r == Failure(Collaborator(psp.failure.value)))
            && (psp.failure.None? && merchant.failure.Some? ==> r == Failure(Collaborator(merchant.failure.value)))
            && (psp.failure.None? && merchant.failure.None? && !PaymentSystemKnown(o) ==> r == Failure(NilDereference))
            && (psp.failure.None? && merchant.failure.None? && PaymentSystemKnown(o) ==>
                  var ps := convert(ic.codeInt, o.paymentMethod.value.paymentSystem.value.accountingCurrency.codeInt, amount);
                  && (ps.failure.Some? ==> r == Failure(Collaborator(ps.failure.value)))
                  && (r.Success? <==> ps.failure.None?)))
    ensures r.Success? ==>
      var ic := catalog.currencies[o.paymentMethodIncomeCurrencyA3];
      var amount := o.paymentMethodIncomeAmount;
      && o.paymentMethodIncomeCurrencyA3 in catalog.currencies
      && catalog.pspAccountingCurrency.Some?
      && PaymentSystemKnown(o)
      && SameApartFromIncome(r.value, o)
      && r.value.paymentMethodIncomeCurrency == Some(ic)
      && r.value.projectOutcomeAmount == convert(ic.codeInt, o.projectOutcomeCurrency.codeInt, amount).amount
      && r.value.amountInPSPAccountingCurrency
           == convert(ic.codeInt, catalog.pspAccountingCurrency.value.codeInt, amount).amount
      && r.value.amountOutMerchantAccountingCurrency == convert(ic.codeInt, o.merchant.currency.codeInt, amount).amount
      && r.value.amountInPaymentSystemAccountingCurrency
           == convert(ic.codeInt, o.paymentMethod.value.paymentSystem.value.accountingCurrency.codeInt, amount).amount
  {
    if o.paymentMethodIncomeCurrencyA3 !in catalog.currencies then Failure(PaymentMethodIncomeCurrencyNotFound)
    else
      var ic := catalog.currencies[o.paymentMethodIncomeCurrencyA3];
      var amount := o.paymentMethodIncomeAmount;
      var outcome := convert(ic.codeInt, o.projectOutcomeCurrency.codeInt, amount);
      if outcome.failure.Some? then Failure(Collaborator(outcome.failure.value))
      else if catalog.pspAccountingCurrency.None? then Failure(PSPAccountingCurrencyNotFound)
      else
        var psp := convert(ic.codeInt, catalog.pspAccountingCurrency.value.codeInt, amount);
        var merchant := convert(ic.codeInt, o.merchant.currency.codeInt, amount);
        if psp.failure.Some? then Failure(Collaborator(psp.failure.value))
        else if merchant.failure.Some? then Failure(Collaborator(merchant.failure.value))
        else if !PaymentSystemKnown(o) then Failure(NilDereference)
        else
          var ps := convert(ic.codeInt, o.paymentMethod.value.paymentSystem.value.accountingCurrency.codeInt, amount);
          if ps.failure.Some? then Failure(Collaborator(ps.failure.value))
          else Success(o.(paymentMethodIncomeCurrency := Some(ic),
                          projectOutcomeAmount := outcome.amount,
                          amountInPSPAccountingCurrency := psp.amount,
                          amountOutMerchantAccountingCurrency := merchant.amount,
                          amountInPaymentSystemAccountingCurrency := ps.amount))
  }

  /** A notification is accepted only for a stored order waiting for the payment system. */
  function NotifyGate(orders: map<string, Order>, id: string): (r: Result<Order, OrderError>)
    ensures r.Success? <==> id in orders && orders[id].status == PaymentSystemCreate
    ensures r.Success? ==> r.value == orders[id]
    ensures id !in orders ==> r == Failure(NotFound)
    ensures id in orders && orders[id].status != PaymentSystemCreate ==>
      r == Failure(OrderAlreadyHasEndedStatus(orders[id].status))
  {
    if id !in orders then Failure(NotFound)
    else if orders[id].status != PaymentSystemCreate then Failure(OrderAlreadyHasEndedStatus(orders[id].status))
    else Success(orders[id])
  }

  /** The status the handler's verdict leads to. */
  function NotifiedStatus(handlerError: Option<string>): (s: OrderStatus)
    ensures s != PaymentSystemCreate
    ensures s == PaymentSystemReject <==> handlerError.Some?
    ensures s == PaymentSystemComplete <==> handlerError.None?
  {
    if handlerError.Some? then PaymentSystemReject else PaymentSystemComplete
  }

  /** What the payment-system handler makes of the order and the notification. */
  datatype HandlerOutcome = HandlerOutcome(order: Order, error: Option<string>)

  /** ProcessNotifyPayment's two results: an error, or the stored order and the handler's error. */
  datatype NotifyResult = NotifyFailed(error: OrderError) | Notified(order: Order, handlerError: Option<string>)

  /** The handler returns the order it was given, under the same identifier. */
  ghost predicate HandlerKeepsOrder(processPayment: Order -> HandlerOutcome)
  {
    forall x :: processPayment(x).order.id == x.id
  }
}
