/**
  The records the order engine works on (manager/order.go and the model package
  it uses), the error kinds it reports, and its collaborators. Amounts are
  reals: Go's float64 is modelled without rounding error, and every rounding
  the code applies goes through the collaborator `formatAmount`.
 */
module OrderModel {

  import opened Wrappers

  datatype Currency = Currency(codeInt: int, codeA3: string)

  datatype Merchant = Merchant(
    currency: Currency,
    isCommissionToUserEnabled: bool,
    isVatEnabled: bool)

  /** One configuration of a payment method for a project, stamped with the time it was added. */
  datatype ProjectPaymentMode = ProjectPaymentMode(id: string, addedAt: int)

  datatype FixedPackage = FixedPackage(name: string, price: real, currency: Currency, currencyInt: int)

  /** The fixed package recorded on an order, with its index in the region's list. */
  datatype OrderFixedPackage = OrderFixedPackage(
    id: nat,
    region: string,
    name: string,
    currencyInt: int,
    price: real)

  datatype Project = Project(
    id: string,
    name: map<string, string>,
    merchant: Merchant,
    isActive: bool,
    onlyFixedAmounts: bool,
    limitsCurrency: Currency,
    minPaymentAmount: real,
    maxPaymentAmount: real,
    paymentMethods: map<string, seq<ProjectPaymentMode>>,
    fixedPackage: map<string, seq<FixedPackage>>,
    secretKey: string,
    callbackCurrency: Currency,
    isAllowDynamicNotifyUrls: bool,
    isAllowDynamicRedirectUrls: bool)

  datatype PaymentSystem = PaymentSystem(id: string, isActive: bool, accountingCurrency: Currency)

  datatype PaymentMethod = PaymentMethod(
    id: string,
    name: string,
    isActive: bool,
    paymentSystem: Option<PaymentSystem>,
    currency: Currency,
    minPaymentAmount: real,
    maxPaymentAmount: real,
    groupAlias: string)

  /** The incoming order request (model.OrderScalar); a Go nil pointer is None. */
  datatype OrderScalar = OrderScalar(
    projectId: string,
    amount: real,
    currency: Option<string>,
    region: Option<string>,
    createOrderIp: string,
    rawRequestParams: map<string, string>,
    signature: Option<string>,
    paymentMethod: Option<string>,
    orderId: Option<string>,
    account: Option<string>,
    description: Option<string>,
    urlVerify: Option<string>,
    urlNotify: Option<string>,
    urlSuccess: Option<string>,
    urlFail: Option<string>,
    payerPhone: Option<string>,
    payerEmail: Option<string>,
    other: map<string, string>)

  /** What the GeoIP database yields for an address (the first subdivision only). */
  datatype GeoRecord = GeoRecord(countryIsoCode: string, subdivisionIsoCode: string, timezone: string)

  datatype PayerData = PayerData(
    ip: string,
    countryCodeA2: string,
    subdivision: string,
    timezone: string,
    phone: Option<string>,
    email: Option<string>)

  datatype OrderPaymentMethod = OrderPaymentMethod(
    id: string,
    name: string,
    paymentSystem: Option<PaymentSystem>,
    groupAlias: string)

  /** Order statuses the engine names; every other status code is `Other`. */
  datatype OrderStatus = New | PaymentSystemCreate | PaymentSystemReject | PaymentSystemComplete | Other(code: int)

  datatype Order = Order(
    id: string,
    projectId: string,
    merchant: Merchant,
    description: string,
    projectOrderId: Option<string>,
    projectAccount: Option<string>,
    projectIncomeAmount: real,
    projectIncomeCurrency: Currency,
    projectOutcomeAmount: real,
    projectOutcomeCurrency: Currency,
    projectParams: map<string, string>,
    payerData: PayerData,
    status: OrderStatus,
    createdAt: int,
    updatedAt: int,
    fixedPackage: Option<OrderFixedPackage>,
    amountInMerchantAccountingCurrency: real,
    vatAmount: real,
    paymentMethod: Option<OrderPaymentMethod>,
    paymentMethodOutcomeAmount: real,
    paymentMethodOutcomeCurrency: Option<Currency>,
    projectFeeAmount: real,
    paymentMethodFeeAmount: real,
    pspFeeAmount: real,
    toPayerFeeAmount: real,
    paymentMethodIncomeCurrencyA3: string,
    paymentMethodIncomeAmount: real,
    paymentMethodIncomeCurrency: Option<Currency>,
    amountInPSPAccountingCurrency: real,
    amountOutMerchantAccountingCurrency: real,
    amountInPaymentSystemAccountingCurrency: real)

  /**
    The named errors of manager/order.go, plus errors passed through from
    collaborators. `NilDereference` is not an error the source returns: it marks
    the point where the Go code dereferences a nil pointer and panics.
   */
  datatype OrderError =
    | ProjectNotFound
    | ProjectInactive
    | PaymentMethodNotAllowed
    | PaymentMethodNotFound
    | PaymentMethodInactive
    | PaymentSystemNotFound
    | PaymentSystemInactive
    | PayerRegionUnknown
    | FixedPackageForRegionNotFound
    | FixedPackageNotFound
    | ProjectOrderIdIsDuplicate
    | DynamicNotifyUrlsNotAllowed
    | DynamicRedirectUrlsNotAllowed
    | CurrencyNotFound
    | AmountLowerThanMinAllowed
    | AmountGreaterThanMaxAllowed
    | AmountLowerThanMinAllowedPaymentMethod
    | AmountGreaterThanMaxAllowedPaymentMethod
    | CanNotCreate
    | SignatureInvalid
    | NotFound
    | OrderAlreadyHasEndedStatus(status: OrderStatus)
    | PaymentMethodIncomeCurrencyNotFound
    | PSPAccountingCurrencyNotFound
    | RequiredFieldIdNotFound
    | RequiredFieldPaymentMethodNotFound
    | RequiredFieldEmailNotFound
    | Collaborator(message: string)
    | NilDereference

  /** A currency conversion yields an amount and possibly an error (Go's `(float64, error)`). */
  datatype Conversion = Conversion(amount: real, failure: Option<string>)

  datatype Commission = Commission(pspCommission: real, pmCommission: real, toUserCommission: real)

  /**
    The services the order manager calls and does not implement here: rate
    conversion by numeric currency code, commission and VAT calculation, the
    GeoIP city lookup, SHA-256 and the shared amount rounding rule.
   */
  datatype Collaborators = Collaborators(
    convert: (int, int, real) -> Conversion,
    commission: (string, string, real) -> Result<Commission, string>,
    vat: (string, string, real) -> Result<real, string>,
    geoCity: string -> Option<GeoRecord>,
    sha256: string -> string,
    formatAmount: real -> real)

  /** The read-only reference data the repositories serve, by lookup key. */
  datatype Catalog = Catalog(
    projects: map<string, Project>,
    currencies: map<string, Currency>,
    paymentMethods: map<string, PaymentMethod>,
    pspAccountingCurrency: Option<Currency>)
}
