# Order engine and request binders of the payment management API

This project models two parts of the management API gateway in Dafny and proves
properties of them.

The first part is the order manager (`manager/order.go`). It covers:

- pricing and creating an order: project, currency, signature, payment method, fixed
  package, project and payment-method limits, commission, VAT, the unique external order
  id and dynamic URL permissions;
- re-pricing an order when the payer picks another payment method on the order form;
- finishing an order when the payment system sends its notification;
- the required fields of a create-payment request;
- the query filter built from search parameters;
- the revenue-dynamics report.

The second part is the custom request binders (`internal/dispatcher/common/binder.go`).
A binder merges a decoded request body with path and query parameters, and with
records fetched from the billing service, before the request is forwarded.

Each step of the source becomes a step of the model:

- Code that only computes a value is a function with a named result and a contract.
  Examples are the limit checks, payment-method selection, the fixed-package choice and
  validateCreatePaymentData.
- Code that loops, or that updates a structure step by step, is a method. A method is
  proved equal to a specification function, and lemmas about that function state what
  the source promises. Examples are Process, modifyOrderAfterOrderFormSubmit,
  checkSignature, ProcessFilters, GetRevenueDynamic and every binder.
- State the source changes in place becomes a class:
  - The order repository is `OrderProcess.OrderTable`, whose `orders` map Insert and
    Update reassign.
  - The order manager is `OrderProcess.OrderManager`.
  - The structure a binder fills is a `BinderCommon.Slot`, whose `value` the binder's
    `Bind` overwrites.

The collaborators are fields of `OrderModel.Collaborators`, passed in as functions:

- currency conversion;
- commission;
- VAT;
- GeoIP;
- SHA-256;
- FormatAmount.

The answers of the billing service, Echo's body and form decoding, and the repository
queries are inputs of the operations. Go's `float64` amounts are `real`.

Modules, one concern each:

| file | module | models |
|---|---|---|
| wrappers.dfy | Wrappers | `Option`, `Result`, `Outcome` |
| text.dfy | Text | string ordering and `sort.Strings`, `strings.Join`, `strconv.Atoi`/`ParseInt`, ObjectId hex form |
| order_model.dfy | OrderModel | projects, payment methods, currencies, orders, errors, collaborators |
| order_checks.dfy | OrderChecks | getPaymentMethod, checkPaymentMethod, getOrderFixedPackage, checkProjectLimits, checkPaymentMethodLimits |
| order_signature.dfy | OrderSignature | checkSignature |
| order_lifecycle.dfy | OrderLifecycle | validateCreatePaymentData, modifyOrderAfterOrderFormSubmit (as functions), processNotifyPaymentAmounts |
| order_process.dfy | OrderProcess | checkProjectOrderIdUnique, Process, ProcessNotifyPayment, modifyOrderAfterOrderFormSubmit (method) |
| order_filters.dfy | OrderFilters | ProcessFilters |
| order_revenue.dfy | OrderRevenue | GetRevenueDynamic, getRevenueDynamicPointsKey |
| binder_common.dfy | BinderCommon | JSON values, binder errors, billing RPC answers, ObjectId check, `int32(float64)` |
| binder_order.dfy | OrderBinders | OrderFormBinder, PaymentCreateProcessBinder |
| binder_onboarding.dfy | OnboardingBinders | the six onboarding binders |
| binder_products.dfy | ProductBinders | the three products binders |
| binder_merchant.dfy | MerchantDataBinder | ChangeMerchantDataRequestBinder |
| binder_project.dfy | ProjectBinder | ChangeProjectRequestBinder |

## Model

| member | source | states |
|---|---|---|
| OrderChecks.LatestAdded | manager/order.go:413-419 | the index returned is the mode getPaymentMethod keeps: none is added later, and none listed before it is added at the same time |
| OrderChecks.LatestAddedUnique | manager/order.go:413-419 | at most one mode has that property, so the choice is determined |
| OrderChecks.GetPaymentMethod | manager/order.go:406-422 | fails with PaymentMethodNotAllowed exactly when the key is absent or its list is empty; otherwise returns the latest-added mode, found by the same forward loop as the source |
| OrderChecks.SelectPaymentMethod | manager/order.go:493-521 | each error as an if-and-only-if with the earlier checks passing: the key listed nowhere or with no mode gives PaymentMethodNotAllowed; the latest-added mode naming an unknown method gives PaymentMethodNotFound; an inactive method PaymentMethodInactive; a method without payment system PaymentSystemNotFound; an inactive system PaymentSystemInactive; success exactly when all five hold, with the method of that mode |
| OrderChecks.CheckPaymentMethod | manager/order.go:493-521 | the method, going through getPaymentMethod's loop and the four lookups, returns SelectPaymentMethod's result, whose contract names the error of each failing step and the success condition |
| OrderChecks.PayerRegion | manager/order.go:524-539 | a non-empty requested region wins; otherwise the GeoIP country code is used |
| OrderChecks.LastMatch | manager/order.go:547-557 | the index found matches price and currency, and no later package matches; None means no package matches |
| OrderChecks.SelectFixedPackage | manager/order.go:523-572 | each outcome as an if-and-only-if: GeoIP failing gives PayerRegionUnknown; a payer region with no packages gives FixedPackageForRegionNotFound; an order without currency reaches a nil dereference exactly when some package has its price, and otherwise gives FixedPackageNotFound; with a currency, no price-and-currency match gives FixedPackageNotFound; success exactly when there is a currency and a match, and the package is the last match, with its list index, the region, name, price and currency |
| OrderChecks.GetOrderFixedPackage | manager/order.go:523-572 | the loop, which stops at the first price match when the order has no currency, returns SelectFixedPackage's result |
| OrderChecks.AmountIn | manager/order.go:444-452 | the amount is unchanged when there is no order currency or it already is the target currency; a failure comes from the converter |
| OrderChecks.CheckProjectLimits | manager/order.go:442-463 | a converter failure is passed on; otherwise, as if-and-only-if statements: below the minimum gives AmountLowerThanMinAllowed, above the maximum (and not below the minimum) gives AmountGreaterThanMaxAllowed, and within both bounds passes |
| OrderChecks.CheckPaymentMethodLimits | manager/order.go:465-491 | the same three-way split against the payment method's bounds, and on success the outcome is the converted amount in the method's currency |
| OrderSignature.CheckSignature | manager/order.go:574-597 | passes exactly when the digest of Preimage (the pairs in ascending key order, joined by "\|", then "\|" and the secret) equals the signature, whatever order the map yields its keys in |
| OrderSignature.GatherKeys | manager/order.go:578-580 | the keys gathered are the map's keys, each once |
| OrderSignature.PairsOf | manager/order.go:584-587 | the strings built are `key=value` for each key in turn |
| OrderSignature.Pairs | manager/order.go:584-587 | one `key=value` string per key, at the same position |
| OrderSignature.PreimageDetectsValueChange | manager/order.go:574-597 | changing the value of any one request parameter changes the signed text |
| OrderSignature.SignedPairsReplace | manager/order.go:582-587 | changing one value changes exactly that key's pair, at its sorted position |
| OrderSignature.KeyPosition | manager/order.go:582 | every parameter key stands at exactly one position of the sorted key list |
| OrderSignature.PairsReplaceOne | manager/order.go:584-587 | a new value for a key listed once changes only that key's pair |
| OrderSignature.SortedKeysDistinct | manager/order.go:582 | the sorted keys of a map are pairwise distinct |
| Text.SortStrings | manager/order.go:582 | the result is sorted and a permutation of the input |
| Text.Insert | manager/order.go:582 | inserting into a sorted list keeps it sorted and adds exactly the one element |
| Text.SortedUnique | manager/order.go:582 | two sorted lists with the same elements are equal, so the signed order does not depend on the map's iteration order |
| Text.SortedSeqElements | manager/order.go:578-582 | the ascending list of a key set holds exactly its keys, in sorted order |
| Text.JoinAround | manager/order.go:590 | joining a list with a glue string puts each element between the joined text of the elements before it and the joined text of those after it |
| Text.ParseInt | manager/order.go:769 | a value that parses lies within the signed range of the bit size, and the text it came from is an optional sign followed by decimal digits only |
| Text.ParseIntFormatInt | manager/order.go:769 | the decimal form of any integer parses back to that integer exactly when it fits the bit size, and is refused otherwise |
| Text.DigitsValueOfDecimal | manager/order.go:769 | the decimal digits of a natural number have that number as their value |
| OrderLifecycle.ValidateCreatePaymentData | manager/order.go:950-964 | passes exactly when the order id, payment method id and email fields are all present; otherwise the error names the first missing field in that order, each as an if-and-only-if |
| OrderLifecycle.Resubmitted | manager/order.go:966-1061 | the same payment method returns the order unchanged; an unknown project gives ProjectNotFound; a limit failure is passed on; a failed commission lookup reaches a nil dereference; otherwise the result is Repriced's for the project's merchant currency, the limit outcome and the commission; on success only pricing fields change and the method is the chosen one |
| OrderLifecycle.ResubmitIdempotent | manager/order.go:967-969 | submitting the form again with the same payment method leaves the re-priced order as it is |
| OrderProcess.OrderManager.ModifyOrderAfterOrderFormSubmit | manager/order.go:966-1061 | the method returns Resubmitted's result, so each error case and, through Repriced, every fee field |
| OrderProcess.OrderManager.Reprice | manager/order.go:997-1058 | the step-by-step updates give Repriced's result |
| OrderLifecycle.Repriced | manager/order.go:997-1058 | success exactly when the PSP-fee conversion, the project-fee conversion and (with VAT enabled) the VAT succeed, the first failure being returned; on success the project fee is the merchant-currency conversion of the PSP plus method commission, less the user's part when the user pays; the PSP fee is the conversion of the method commission; the method fee, payer fee, VAT, outcome amount (limit outcome plus the user's part plus VAT) and outcome currency are set; nothing else changes |
| OrderLifecycle.NotifyAmounts | manager/order.go:894-948 | an unknown income currency gives PaymentMethodIncomeCurrencyNotFound, and PSPAccountingCurrencyNotFound comes exactly when the outcome conversion succeeded and no PSP accounting currency is set, both as if-and-only-if; each failed conversion is returned, in the source's order; an order without a payment system reaches NilDereference once the PSP and merchant conversions succeed; success exactly when the currency is known, the PSP currency set, the payment system known and all four conversions succeed, and then only the income currency and the four converted amounts change |
| OrderLifecycle.NotifyGate | manager/order.go:855-863 | succeeds exactly when the order exists in PaymentSystemCreate status; a missing order gives NotFound; any other status is reported in OrderAlreadyHasEndedStatus |
| OrderLifecycle.NotifiedStatus | manager/order.go:875-879 | a handler error gives PaymentSystemReject and no error gives PaymentSystemComplete, both as if-and-only-if; the result is never PaymentSystemCreate |
| OrderProcess.OrderManager.ProcessNotifyPayment | manager/order.go:854-892 | the gate, a handler error and an amounts failure, including the nil-dereference of an order without a payment system, each leave the repository unchanged; otherwise the order is stored with the new status and amounts, and a second notification for it is refused with the status it now has |
| OrderProcess.OrderTable.Insert | manager/order.go:325-329 | an insert succeeds exactly when the id is new, and only then changes the table |
| OrderProcess.OrderTable.Update | manager/order.go:887-889 | an update succeeds exactly when the order exists, and only then changes the table |
| OrderProcess.OrderTable.constructor | manager/order.go:92-115 | the table holds the given orders, each under its own id |
| OrderProcess.CheckProjectOrderIdUnique | manager/order.go:424-440 | passes exactly when no external id is given or no stored order carries that external id; otherwise ProjectOrderIdIsDuplicate |
| OrderProcess.DuplicateAfterInsert | manager/order.go:424-440 | once an order with an external id is stored, the same external id is refused |
| OrderProcess.PricePaymentMethod | manager/order.go:190-223 | a limit failure and a commission failure are passed on; without VAT the pricing is the limit outcome and the commission; with VAT and no GeoIP record it reaches a nil dereference, and otherwise a VAT failure is passed on or the VAT joins the pricing |
| OrderProcess.Validate | manager/order.go:126-237 | for each check, in the source's order, failing it when the earlier ones pass gives its error: ProjectNotFound, ProjectInactive, CurrencyNotFound (only for a currency given), SignatureInvalid (only for a signature given), the payment-method error, the fixed-package error (only for a project taking fixed amounts only), the project-limit error, the pricing error, ProjectOrderIdIsDuplicate, DynamicNotifyUrlsNotAllowed, DynamicRedirectUrlsNotAllowed; success exactly when all pass, with what each check resolved |
| OrderProcess.AcceptedRequestReplayRejected | manager/order.go:225-229 | after any accepted request with an external id is stored, replaying it fails with ProjectOrderIdIsDuplicate |
| OrderProcess.NoCurrencyBelowMinimumRejected | manager/order.go:138-144 | a request without a currency for a project that does not take fixed amounts only still meets the project limits, and below the minimum gets AmountLowerThanMinAllowed |
| OrderProcess.Assemble | manager/order.go:239-323 | a nil dereference exactly when the order currency or the GeoIP record is missing; otherwise the order document: id, status New, time, project, merchant, the default or given description, external id, account, parameters, income and outcome amounts and currencies, the fixed package, payer data from GeoIP, VAT; with a payment method, its reference, outcome amount (plus the payer's commission and VAT) and the four fees, failing exactly when one of the two fee conversions fails; without one, all payment fields zero |
| OrderProcess.NotFixedReachesNilDereference | manager/order.go:178-264 | a request accepted for a project that does not take fixed amounts only has no GeoIP record, so building its order reaches a nil dereference |
| OrderProcess.OrderManager.RunChecks | manager/order.go:126-237 | the checks up to the payment method run in order and stop at the first failure, and the rest are handed on; the result is Validate's |
| OrderProcess.OrderManager.RunPricingChecks | manager/order.go:178-237 | the checks from the fixed package on, once the earlier ones passed, give Validate's result |
| OrderProcess.OrderManager.BuildOrder | manager/order.go:239-323 | the order built field by field is Assemble's |
| OrderProcess.OrderManager.ChargePaymentMethod | manager/order.go:281-323 | the payment-method block of the order is WithPaymentMethod's |
| OrderProcess.OrderManager.Process | manager/order.go:117-332 | a failed check, a nil dereference or a failed fee conversion returns that error and stores nothing; an order id already in the table gives CanNotCreate and stores nothing; otherwise the assembled order is stored under its new id and returned |
| OrderProcess.OrderManager.constructor | manager/order.go:92-115 | the manager holds the given reference data, collaborators and repository |
| OrderFilters.ProcessFilters | manager/order.go:724-803 | the filter built through the map updates is Filter's: selection, then account, then the two date ranges |
| OrderFilters.AddSelection | manager/order.go:725-759 | the id, payment-method, country and status updates are SelectionFilter's |
| OrderFilters.AddDateRanges | manager/order.go:766-800 | the two close-date updates are DateFilter's |
| OrderFilters.CollectStatuses | manager/order.go:743-754 | the statuses kept are exactly those that parse, in order |
| OrderFilters.CollectObjectIds | manager/order.go:729-734 | every payment-method id is kept, in order |
| OrderFilters.CollectRange | manager/order.go:766-778 | the range holds the `$gte` and `$lte` bounds, each set exactly when its value parses as a 64-bit integer |
| OrderFilters.ParsedStatuses | manager/order.go:743-754 | every status that parses is in the list, and every list element is the value of a parsed status |
| OrderFilters.NoStatusParses | manager/order.go:756-758 | the list is empty exactly when no status parses |
| OrderFilters.DateRangeOfUnixTimes | manager/order.go:766-778 | parameters holding Unix times in decimal read back as those times, and an absent parameter leaves its bound unset |
| OrderFilters.AccountFilter | manager/order.go:761-764 | the same case-insensitive search applies to each of the four account fields |
| OrderFilters.PutIf | manager/order.go:725-800 | a conditional update sets its key and changes no other key |
| OrderFilters.FilterPlainKeys | manager/order.go:725-741 | a present id, payment-method, country or account parameter sets its key to the value the source builds |
| OrderFilters.FilterStatus | manager/order.go:743-759 | the status key holds the parsed statuses when at least one parses; when none parses, the key is left as the caller had it |
| OrderFilters.FilterCloseDate | manager/order.go:766-800 | a non-empty project range becomes the close-date filter; otherwise a non-empty payment-method range does |
| OrderFilters.FilterKeepsOtherKeys | manager/order.go:724-803 | keys the function never writes keep the caller's value |
| OrderFilters.FilterKeepsUntouchedKeys | manager/order.go:724-803 | written keys that the request does not ask for also keep the caller's value |
| OrderRevenue.PointsKey | manager/order.go:1128-1150 | the year is read from the point id; month, week, day and hour are read when present and are 0 otherwise |
| OrderRevenue.PointsKeyOnlyReadsPeriods | manager/order.go:1128-1150 | ids that agree on the five period components give the same date |
| OrderRevenue.RefundTotals | manager/order.go:1077-1084 | the refund table has an entry for every refund bucket's date key, and for nothing else |
| OrderRevenue.RefundTotalsLastWins | manager/order.go:1083 | when several buckets share a date key, the last one's formatted total is kept |
| OrderRevenue.PointOf | manager/order.go:1092-1103 | a revenue point has its bucket's date, and its amount is the formatted total minus the refund for that date when there is one |
| OrderRevenue.CollectRefunds | manager/order.go:1077-1084 | the loop builds RefundTotals |
| OrderRevenue.CollectPoints | manager/order.go:1086-1106 | one point per revenue bucket, in order, each PointOf that bucket |
| OrderRevenue.GetRevenueDynamic | manager/order.go:1063-1126 | a failed query is passed on; otherwise one point per revenue bucket, net of refunds for its date, with both summaries formatted |
| BinderCommon.ValidIdIsObjectIdHex | internal/dispatcher/common/binder.go:398 | an id is accepted exactly when it is non-empty and in ObjectId hex form |
| BinderCommon.TruncateTowardZero | internal/dispatcher/common/binder.go:677 | `int32(float64)` drops the fraction toward zero, for negative values too |
| BinderCommon.TruncateFitsInt32 | internal/dispatcher/common/binder.go:677 | within the int32 range, truncation stays in the range |
| BinderCommon.Slot.constructor | internal/dispatcher/common/binder.go:87 | a slot starts with the given value |
| OrderBinders.FirstValues | internal/dispatcher/common/binder.go:89-95 | the raw parameters are every form key with its first value |
| OrderBinders.ExtraValues | internal/dispatcher/common/binder.go:89-97 | the extra parameters are the form keys that are not reserved words, with their first value |
| OrderBinders.ExtraIsRawMinusReserved | internal/dispatcher/common/binder.go:89-98 | the extra parameters are exactly the raw parameters without the reserved words |
| OrderBinders.OrderFormBinder.Bind | internal/dispatcher/common/binder.go:72-101 | a decode or form failure is returned; otherwise the order carries the raw and extra parameters |
| OrderBinders.Coerce | internal/dispatcher/common/binder.go:141-151 | true becomes "1", false becomes "0", and any other value is formatted |
| OrderBinders.Coerced | internal/dispatcher/common/binder.go:140-152 | every decoded key holds its coerced value, and the other keys keep their form value |
| OrderBinders.CoercedStep | internal/dispatcher/common/binder.go:140-152 | coercing one more key adds that key's coerced value |
| OrderBinders.CoerceInto | internal/dispatcher/common/binder.go:141-151 | the type switch writes the one coerced value |
| OrderBinders.CoerceAll | internal/dispatcher/common/binder.go:140-152 | the loop over the decoded map builds Coerced, whatever order the map yields its keys in |
| OrderBinders.PaymentCreateProcessBinder.Bind | internal/dispatcher/common/binder.go:130-155 | a decode failure is returned and nothing changes; otherwise the data map becomes Coerced |
| OnboardingBinders.WithDefaultLimit | internal/dispatcher/common/binder.go:169-171 | a limit that is not positive is replaced by the default |
| OnboardingBinders.SignedFilterAsWritten | internal/dispatcher/common/binder.go:173-183 | "false" and "true" (also "0" and "1") both give 2; any other text is RequestParamsIncorrect |
| OnboardingBinders.SignedFilterAsWrittenConflates | internal/dispatcher/common/binder.go:173-183 | as written, "false" and "true" give the same filter |
| OnboardingBinders.SignedFilter | internal/dispatcher/common/binder.go:173-183 | a false text gives 1 and a true text gives 2, each as if-and-only-if; any other text is RequestParamsIncorrect |
| OnboardingBinders.SystemFilter | internal/dispatcher/common/binder.go:205-211 | a false text gives 1 and anything else gives 2 |
| OnboardingBinders.SignedFilterAgreesWithSystemFilter | internal/dispatcher/common/binder.go:173-211 | the corrected signed filter encodes a valid flag as the system filter does |
| OnboardingBinders.OnboardingMerchantListingBinder.constructor | internal/dispatcher/common/binder.go:169-171 | the binder holds the configured limit and offset defaults |
| OnboardingBinders.OnboardingMerchantListingBinder.Bind | internal/dispatcher/common/binder.go:158-186 | a decode failure is returned and nothing changes; the limit defaults when it is not positive; a given is_signed sets the corrected filter, or reports an invalid value |
| OnboardingBinders.OnboardingMerchantListingBinder.BindAsWritten | internal/dispatcher/common/binder.go:158-186 | the same, with the filter of the source as written |
| OnboardingBinders.OnboardingNotificationsListBinder.constructor | internal/dispatcher/common/binder.go:201-203 | the binder holds the configured limit and offset defaults |
| OnboardingBinders.OnboardingNotificationsListBinder.Bind | internal/dispatcher/common/binder.go:189-214 | a decode failure is returned; otherwise the merchant id comes from the path, the limit defaults, and a given is_system sets the filter |
| OnboardingBinders.OnboardingGetPaymentMethodBinder.Bind | internal/dispatcher/common/binder.go:217-234 | succeeds exactly when both ids are valid, and then fills both; otherwise the error names the first invalid id and nothing changes |
| OnboardingBinders.OnboardingChangePaymentMethodBinder.Bind | internal/dispatcher/common/binder.go:237-261 | a decode failure is returned; an invalid merchant id, an invalid method id, or a body method id that differs from the path's is reported; otherwise the merchant id is set |
| OnboardingBinders.OnboardingChangeMerchantStatusBinder.Bind | internal/dispatcher/common/binder.go:264-282 | a decode failure is returned; an invalid merchant id is reported; otherwise the merchant id is set from the path |
| OnboardingBinders.OnboardingCreateNotificationBinder.Bind | internal/dispatcher/common/binder.go:285-303 | a decode failure is returned; an invalid merchant id is reported; otherwise the merchant id is set from the path |
| ProductBinders.PagingValue | internal/dispatcher/common/binder.go:312-326 | an absent parameter gives the default; a present one succeeds exactly when it parses as a 32-bit integer, stays within the int32 range, and otherwise reports the text |
| ProductBinders.TextFilter | internal/dispatcher/common/binder.go:332-348 | a non-empty query value replaces the field, and an empty or absent one keeps it |
| ProductBinders.ProductsGetProductsListBinder.constructor | internal/dispatcher/common/binder.go:307-308 | the binder holds the configured limit and offset defaults |
| ProductBinders.ProductsGetProductsListBinder.Bind | internal/dispatcher/common/binder.go:306-351 | a bad limit, then a bad offset, is reported and nothing changes; otherwise limit, offset, name, sku and project id are set |
| ProductBinders.ProductsCreateProductBinder.Bind | internal/dispatcher/common/binder.go:354-365 | a decode failure is returned; otherwise the product has an empty id |
| ProductBinders.ProductsUpdateProductBinder.Bind | internal/dispatcher/common/binder.go:368-383 | an invalid id, then a decode failure, is reported and nothing changes; otherwise the product takes the path id |
| MerchantDataBinder.FlagOverride | internal/dispatcher/common/binder.go:419-433 | an absent key keeps the stored flag, a boolean replaces it, and anything else fails with that key's type error, as an if-and-only-if |
| MerchantDataBinder.ChangeMerchantDataRequestBinder.Bind | internal/dispatcher/common/binder.go:386-436 | the decode, id, RPC and status gates in order, leaving the request unchanged; then the stored flags, each overridden by a boolean in the body; a non-boolean stops with the flags set so far |
| ProjectBinder.Gate | internal/dispatcher/common/binder.go:451-482 | the typed and untyped decodes, the project id, the RPC call and the response status are checked in that order, each with its error |
| ProjectBinder.StartGated | internal/dispatcher/common/binder.go:451-511 | fails exactly when Gate reports an error, with that error; otherwise the structure starts as written |
| ProjectBinder.StartAsWritten | internal/dispatcher/common/binder.go:484-511 | the structure starts as the fetched project with the path id, except for the four payment URLs, which keep the structure's previous values |
| ProjectBinder.Start | internal/dispatcher/common/binder.go:484-511 | corrected start: the fetched project with the path id, the four payment URLs included |
| ProjectBinder.FirstBad | internal/dispatcher/common/binder.go:513-711 | the first checked field of the wrong type, if any: it is badly typed and every field before it is well typed; None exactly when all 23 checked fields are well typed |
| ProjectBinder.FirstBadBelow | internal/dispatcher/common/binder.go:513-711 | the first badly typed field below a bound, with None exactly when all fields below it are well typed |
| ProjectBinder.FirstBadIs | internal/dispatcher/common/binder.go:513-711 | a badly typed field that every field before it passes is the first bad one |
| ProjectBinder.FirstBadBelowIs | internal/dispatcher/common/binder.go:513-711 | the same below a bound |
| ProjectBinder.ReachedNotBad | internal/dispatcher/common/binder.go:513-711 | a field the binder has passed is well typed |
| ProjectBinder.NoneBadReached | internal/dispatcher/common/binder.go:513-711 | when every field below a bound is well typed, the binder reaches that bound |
| ProjectBinder.Over | internal/dispatcher/common/binder.go:513-711 | a field's body value counts exactly when the binder has passed it and the key is present |
| ProjectBinder.Texts | internal/dispatcher/common/binder.go:548-552 | a body list becomes its strings, position by position |
| ProjectBinder.Renamed | internal/dispatcher/common/binder.go:520-522 | every body localisation is set in the name map, and the other languages are kept |
| ProjectBinder.RenamedStep | internal/dispatcher/common/binder.go:520-522 | setting one more language adds exactly that entry |
| ProjectBinder.CollectTexts | internal/dispatcher/common/binder.go:548-552 | the append loop builds Texts |
| ProjectBinder.MergeNames | internal/dispatcher/common/binder.go:520-522 | the loop over the localisations builds Renamed, whatever order the map yields them in |
| ProjectBinder.TakeName | internal/dispatcher/common/binder.go:513-523 | fails exactly when the name is present and is not a non-empty object; otherwise takes its localisations |
| ProjectBinder.TakeText | internal/dispatcher/common/binder.go:525-539 | a present non-string fails with the field's error, as an if-and-only-if; otherwise a present string replaces the value |
| ProjectBinder.TakeList | internal/dispatcher/common/binder.go:541-553 | a present non-list fails with the field's error, as an if-and-only-if; otherwise a present list replaces the value |
| ProjectBinder.TakeFlag | internal/dispatcher/common/binder.go:555-569 | a present non-boolean fails with the field's error, as an if-and-only-if; otherwise a present boolean replaces the value |
| ProjectBinder.TakeNumber | internal/dispatcher/common/binder.go:579-593 | a present non-number fails with the field's error, as an if-and-only-if; otherwise a present number replaces the value |
| ProjectBinder.TakeStatus | internal/dispatcher/common/binder.go:673-679 | a present non-number fails with the status error, as an if-and-only-if; otherwise a present number is truncated into the status |
| ProjectBinder.MergeCallbacks | internal/dispatcher/common/binder.go:513-539 | the name and the two callback fields: either all pass and the merge reaches field 3, or the first bad field among them stops the merge with its error and the fields before it taken |
| ProjectBinder.MergeDynamicUrls | internal/dispatcher/common/binder.go:541-569 | the same for the allowed order URLs and the two dynamic-URL flags |
| ProjectBinder.MergeLimits | internal/dispatcher/common/binder.go:571-593 | the same for the limits currency and the two amount bounds |
| ProjectBinder.MergeEmails | internal/dispatcher/common/binder.go:595-623 | the same for the notify emails, the products-checkout flag and the secret key |
| ProjectBinder.MergeSignatureFlags | internal/dispatcher/common/binder.go:625-647 | the same for the two notification flags and the check-account URL |
| ProjectBinder.MergeProcessUrls | internal/dispatcher/common/binder.go:649-671 | the same for the process and redirect URLs |
| ProjectBinder.MergeEventUrls | internal/dispatcher/common/binder.go:681-711 | the same for the chargeback, cancel, fraud and refund URLs |
| ProjectBinder.CheckoutSettled | internal/dispatcher/common/binder.go:513-593 | the checkout group is final once the binder has passed its nine fields |
| ProjectBinder.LaterGroupsUntouched | internal/dispatcher/common/binder.go:595-711 | groups the binder has not reached keep their starting values |
| ProjectBinder.Merged | internal/dispatcher/common/binder.go:513-737 | reports an error exactly when some checked field is badly typed, and the error names the first such field |
| ProjectBinder.MergeAll | internal/dispatcher/common/binder.go:513-737 | the 23 type checks and the six description copies, in source order, build Merged |
| ProjectBinder.MergeRest | internal/dispatcher/common/binder.go:595-737 | from field 9 on, the merge builds Merged |
| ProjectBinder.MergeLast | internal/dispatcher/common/binder.go:673-737 | from the status field on, the merge builds Merged |
| ProjectBinder.ChangeProjectRequestBinder.Bind | internal/dispatcher/common/binder.go:439-738 | a gate error is returned and the structure is unchanged; otherwise the structure is the corrected start merged with the body, with the merge's error |
| ProjectBinder.ChangeProjectRequestBinder.BindAsWritten | internal/dispatcher/common/binder.go:439-738 | the same, starting as the source does, so the four payment URLs keep the structure's previous values |
| ProjectBinder.FieldsTaken | internal/dispatcher/common/binder.go:525-731 | with a well-typed body, present fields are taken, for a sample of one field of each kind: callback currency, minimum amount, notify emails element by element, status truncated, refund URL, and the cover from the typed decode only when the key is sent |
| ProjectBinder.StopLeavesLaterFields | internal/dispatcher/common/binder.go:513-737 | a type error leaves the descriptions and every group after the failing field as they started |
| ProjectBinder.EmptyBodyKeepsStored | internal/dispatcher/common/binder.go:484-737 | with the corrected start, an empty body yields the stored project with the path id and no error |
| ProjectBinder.AbsentEventUrlsKept | internal/dispatcher/common/binder.go:484-711 | with the corrected start, a body without the four payment URLs keeps the stored URLs |
| ProjectBinder.AbsentEventUrlsAsWritten | internal/dispatcher/common/binder.go:484-711 | as written, such a body leaves the four URLs at the structure's previous values, not the stored ones |
| ProjectBinder.EventUrlsClearedAsWritten | internal/dispatcher/common/binder.go:484-711 | as written, an empty body clears a stored chargeback URL when the structure starts empty |

## Left out

- I/O is not modelled. This covers request reading, logging, the database, the billing RPC transport, `time.Now()`, `bson.NewObjectId()`, GeoIP, SHA-256, currency rates, commission and VAT. Each is a parameter:
  - a collaborator function in `Collaborators`;
  - an RPC answer `Rpc<T>`;
  - a decode outcome `Result`;
  - the new id and the clock value.
- A repository failure behind a lookup is not modelled as an error. The order lookup by external order id logs its error and carries on. A failed project, currency or payment-method lookup reads as "not found".
- The failed insert at `manager/order.go:325-329` is modelled as an id already present in the order table.
- Request parameter names, filter field names, status codes and `OrderReservedWords` come from packages that are not part of this model. They are placeholder string constants, and the reserved words are a parameter.
- Echo's decoding itself is not modelled: `ctx.Bind`, `DefaultBinder`, form parsing and `ShouldBind`. Its outcome is an input. A decode that fails after writing part of a structure is modelled as writing nothing.
- Where the order manager dereferences a nil pointer, Go panics. The model returns `NilDereference` at that point, and the contracts say exactly when:
  - the VAT step with no GeoIP record, when the project does not take fixed amounts only (`manager/order.go:213`);
  - the package scan of an order without currency, once a package price matches (`manager/order.go:551`);
  - building the order without a currency or a GeoIP record (`manager/order.go:239, 261-264`);
  - a failed commission lookup in the form resubmission, whose error is not inspected before use (`manager/order.go:997-999`).
  - the payment-system notification for an order without a payment method or payment system, at the fourth conversion (`manager/order.go:936-940`).
- Other Go panics are preconditions, not results:
  - OrderManager.ProcessNotifyPayment: `requires Text.IsObjectIdHex(id)`, standing for the `bson.ObjectIdHex` panic in `FindById` (`manager/order.go:335`).
  - OrderManager.ProcessNotifyPayment: `requires HandlerKeepsOrder(processPayment)`. The foreign payment-system handler is assumed to return the order under the id it was given, so that the stored order is the one updated.
  - OrderRevenue.GetRevenueDynamic: the aggregation result is a `Facets` value, which always holds one row with both point lists and both summaries. Go indexes `res[0]` (`manager/order.go:1074-1075`) and the first element of the revenue and refund summaries (`manager/order.go:1108-1109`). It panics when the query returns no row, or when a summary is empty, as the refund summary is for a period with no refunds. These cases are not modelled.
  - OrderRevenue.GetRevenueDynamic: `requires HasYears(...)` on both point lists, standing for the `.(int)` assertion on a bucket's year (`manager/order.go:1130`), which panics for a bucket without one.
  - ProcessFilters: `bson.ObjectIdHex` panics on ids that are not in hex form. The model copies the ids as given.
  - ChangeProjectRequestBinder: the assertions `tvv.(string)` on list and name elements. These are `PanicFree`.
  - ChangeProjectRequestBinder: a nil stored name map, which Go would panic on. The model treats the map as writable.
- PayerData: a GeoIP record holds one subdivision. Go's `gRecord.Subdivisions[0]` panics when the record has none; that panic is not modelled. The country and city names of `PayerData` (`manager/order.go:262-263`) are not modelled either. The order also leaves out the project name (`manager/order.go:248`) and `IsJsonRequest` (`manager/order.go:271`), and its payment method leaves out `Params` (`manager/order.go:285`). They are copied as given and no contract reads them.
- OnboardingChangePaymentMethodBinder.Bind: the body's payment method id is a plain string in the model. Go reads `structure.PaymentMethod.Id` (`internal/dispatcher/common/binder.go:254`); if `PaymentMethod` is a pointer there, a body without `payment_method` makes Go panic. The request type is not part of this model.
- OrderFilters.CollectObjectIds: `bson.ObjectIdHex` decodes hex, so ids that differ only in the case of their hex digits filter alike. The model keeps the strings as given and does not make that identification.
- OrderManager.ProcessNotifyPayment: the error of the final `UpdateOrder` (`manager/order.go:887-889`) is not modelled. In the model the update cannot fail, because the order was just read from the same table under the same id.
- ModifyOrderAfterOrderFormSubmit: Go writes the fee fields into the caller's order before a later conversion or VAT failure returns an error, so the caller's order is left partly repriced. The model returns a new value and leaves the input order as it was.
- Process: for a project that does not take fixed amounts only, no GeoIP record is resolved. Such a request goes through every check, but building its order dereferences the nil record, so `Assemble` reaches `NilDereference` and no order is created.
- The `float64` amounts are `real`. Rounding is not modelled, and FormatAmount is a collaborator.
- BinderCommon.TruncateTowardZero: a `float64` outside the int32 range converts in an implementation-defined way in Go. The model truncates without wrapping.
- The map-ordering behaviour of Go is modelled as an arbitrary choice. This covers `for k := range` in checkSignature, PaymentCreateProcessBinder and the project name merge. Each loop is proved to give the same result for every order.
- Fee fields are not shown to be non-negative. Nothing in the code enforces it, so the model does not state it.
- Only the project fields ChangeProjectRequestBinder reads or writes are in `BillingProject`, grouped into sub-records for checkout, notifications, payment URLs and descriptions. The localisation, currency and virtual-currency payloads are opaque JSON values.
- FindById, GetOrderByIdWithPaymentMethods, FindAll, transformOrders, ProcessCreatePayment and OrderJsonBinder are outside the modelled core.
- Concurrency is not modelled. That includes the race between the read and the insert of an external order id.

## Findings

| source | as written | input that shows it | evidently intended | confidence | as-written member | corrected member |
|---|---|---|---|---|---|---|
| internal/dispatcher/common/binder.go:173-183 | `is_signed` sets the filter to 2 for a false value as well as for a true one | query `is_signed=false` | 1 for false and 2 for true, as the `is_system` filter encodes it at lines 205-211 | not executed | OnboardingBinders.SignedFilterAsWrittenConflates | OnboardingBinders.SignedFilterAgreesWithSystemFilter |
| internal/dispatcher/common/binder.go:484-511 | the structure is filled from the fetched project, except for the four event URLs (chargeback, cancel, fraud, refund), which are never copied; a body that omits them writes their old structure values, empty for a fresh request, back to the billing service | empty body `{}`, stored chargeback URL `https://shop.example/chargeback` | the four URLs are copied from the fetched project like every other field | not executed | ProjectBinder.EventUrlsClearedAsWritten | ProjectBinder.AbsentEventUrlsKept |
