/**
  The validation steps of the order manager that select or check one thing:
  payment-method resolution (getPaymentMethod, checkPaymentMethod), fixed-package
  resolution (getOrderFixedPackage) and the two limit checks. Each loop of the
  source is a method proved against a function that specifies its result.
 */
module OrderChecks {

  import opened Wrappers
  import opened OrderModel

  // ---------------------------------------------------------------- payment method

  /** Mode `i` is the one getPaymentMethod keeps: added last, and the first-listed among equals. */
  ghost predicate IsLatestAdded(modes: seq<ProjectPaymentMode>, i: int)
  {
    && 0 <= i < |modes|
    && (forall j :: 0 <= j < |modes| ==> modes[j].addedAt <= modes[i].addedAt)
    && (forall j :: 0 <= j < i ==> modes[j].addedAt < modes[i].addedAt)
  }

  lemma LatestAddedUnique(modes: seq<ProjectPaymentMode>, i: int, k: int)
    requires IsLatestAdded(modes, i) && IsLatestAdded(modes, k)
    ensures i == k
  {
    assert modes[i].addedAt == modes[k].addedAt;
  }

  /** Index of the latest-added mode, found from the back of the list. */
  function LatestAdded(modes: seq<ProjectPaymentMode>): (i: nat)
    requires |modes| > 0
    ensures IsLatestAdded(modes, i)
  {
    if |modes| == 1 then 0
    else
      var k := LatestAdded(modes[1..]) + 1;
      if modes[k].addedAt <= modes[0].addedAt then 0 else k
  }

  /**
    getPaymentMethod: the configurations listed for `key`, of which the one with the
    latest AddedAt is kept; a later entry replaces the kept one only when it is
    strictly later.
   */
  method GetPaymentMethod(key: string, pms: map<string, seq<ProjectPaymentMode>>)
    returns (r: Result<ProjectPaymentMode, OrderError>)
    ensures r.Failure? <==> key !in pms || |pms[key]| == 0
    ensures r.Failure? ==> r.error == PaymentMethodNotAllowed
    ensures r.Success? ==> r.value == pms[key][LatestAdded(pms[key])]
  {
    if key !in pms || |pms[key]| <= 0 {
      return Failure(PaymentMethodNotAllowed);
    }
    var cpms := pms[key];
    var opm: Option<ProjectPaymentMode> := None;
    ghost var at := 0;
    for n := 0 to |cpms|
      invariant opm.None? <==> n == 0
      invariant opm.Some? ==> 0 <= at < n && opm.value == cpms[at]
      invariant opm.Some? ==> forall j :: 0 <= j < n ==> cpms[j].addedAt <= cpms[at].addedAt
      invariant opm.Some? ==> forall j :: 0 <= j < at ==> cpms[j].addedAt < cpms[at].addedAt
    {
      if opm.None? || opm.value.addedAt < cpms[n].addedAt {
        opm := Some(cpms[n]);
        at := n;
      }
    }
    LatestAddedUnique(cpms, at, LatestAdded(cpms));
    return Success(opm.value);
  }

  /** The project lists at least one configuration for `key`. */
  predicate Listed(key: string, project: Project)
  {
    key in project.paymentMethods && |project.paymentMethods[key]| > 0
  }

  /** The identifier of the configuration getPaymentMethod keeps for `key`. */
  function ChosenId(key: string, project: Project): string
    requires Listed(key, project)
  {
    var modes := project.paymentMethods[key];
    modes[LatestAdded(modes)].id
  }

  /**
    What checkPaymentMethod resolves `key` to, or the first check that fails: the
    configuration, the method it names, the method's activity, its payment system
    and that system's activity, in this order.
   */
  function SelectPaymentMethod(key: string, project: Project, methods: map<string, PaymentMethod>)
    : (r: Result<PaymentMethod, OrderError>)
    ensures r == Failure(PaymentMethodNotAllowed) <==> !Listed(key, project)
    ensures r == Failure(PaymentMethodNotFound) <==> Listed(key, project) && ChosenId(key, project) !in methods
    ensures r == Failure(PaymentMethodInactive) <==>
      Listed(key, project) && ChosenId(key, project) in methods && !methods[ChosenId(key, project)].isActive
    ensures r == Failure(PaymentSystemNotFound) <==>
      && Listed(key, project) && ChosenId(key, project) in methods
      && methods[ChosenId(key, project)].isActive && methods[ChosenId(key, project)].paymentSystem.None?
    ensures r == Failure(PaymentSystemInactive) <==>
      && Listed(key, project) && ChosenId(key, project) in methods
      && methods[ChosenId(key, project)].isActive && methods[ChosenId(key, project)].paymentSystem.Some?
      && !methods[ChosenId(key, project)].paymentSystem.value.isActive
    ensures r.Success? <==>
      && Listed(key, project) && ChosenId(key, project) in methods
      && methods[ChosenId(key, project)].isActive && methods[ChosenId(key, project)].paymentSystem.Some?
      && methods[ChosenId(key, project)].paymentSystem.value.isActive
    ensures r.Success? ==> r.value == methods[ChosenId(key, project)]
  {
    if !Listed(key, project) then Failure(PaymentMethodNotAllowed)
    else
      var id := ChosenId(key, project);
      if id !in methods then Failure(PaymentMethodNotFound)
      else
        var pm := methods[id];
        if !pm.isActive then Failure(PaymentMethodInactive)
        else if pm.paymentSystem.None? then Failure(PaymentSystemNotFound)
        else if !pm.paymentSystem.value.isActive then Failure(PaymentSystemInactive)
        else Success(pm)
  }

  /** checkPaymentMethod: resolve the configuration, then the method and its payment system. */
  method CheckPaymentMethod(key: string, project: Project, methods: map<string, PaymentMethod>)
    returns (r: Result<PaymentMethod, OrderError>)
    ensures r == SelectPaymentMethod(key, project, methods)
  {
    var opm := GetPaymentMethod(key, project.paymentMethods);
    if opm.Failure? {
      return Failure(opm.error);
    }
    if opm.value.id !in methods {
      return Failure(PaymentMethodNotFound);
    }
    var pm := methods[opm.value.id];
    if !pm.isActive {
      return Failure(PaymentMethodInactive);
    }
    var ps := pm.paymentSystem;
    if ps.None? {
      return Failure(PaymentSystemNotFound);
    }
    if !ps.value.isActive {
      return Failure(PaymentSystemInactive);
    }
    return Success(pm);
  }

  // ---------------------------------------------------------------- fixed package

  /** The region whose packages apply: the requested one unless absent or empty, else the GeoIP country. */
  function PayerRegion(requested: Option<string>, geo: GeoRecord): (region: string)
    ensures requested.Some? && requested.value != "" ==> region == requested.value
    ensures requested.None? || requested.value == "" ==> region == geo.countryIsoCode
  {
    var region := if requested.Some? then requested.value else "";
    if region == "" then geo.countryIsoCode else region
  }

  predicate PackageMatches(fp: FixedPackage, amount: real, currencyA3: string)
  {
    fp.price == amount && fp.currency.codeA3 == currencyA3
  }

  /** Index of the last package matching price and currency, if any. */
  function LastMatch(fps: seq<FixedPackage>, amount: real, currencyA3: string): (r: Option<nat>)
    ensures r.Some? ==>
      && r.value < |fps| && PackageMatches(fps[r.value], amount, currencyA3)
      && forall j :: r.value < j < |fps| ==> !PackageMatches(fps[j], amount, currencyA3)
    ensures r.None? ==> forall j :: 0 <= j < |fps| ==> !PackageMatches(fps[j], amount, currencyA3)
  {
    if fps == [] then None
    else if PackageMatches(fps[|fps| - 1], amount, currencyA3) then Some(|fps| - 1)
    else LastMatch(fps[..|fps| - 1], amount, currencyA3)
  }

  datatype FixedPackageChoice = FixedPackageChoice(geo: GeoRecord, package: OrderFixedPackage)

  /** The packages of the payer's region, when GeoIP knows the address and the region has some. */
  predicate RegionHasPackages(order: OrderScalar, project: Project, geo: GeoRecord)
  {
    var region := PayerRegion(order.region, geo);
    region in project.fixedPackage && |project.fixedPackage[region]| > 0
  }

  /** Some package of the list has the order's price (the currency is not looked at). */
  predicate SomePriceMatches(fps: seq<FixedPackage>, amount: real)
  {
    exists j :: 0 <= j < |fps| && fps[j].price == amount
  }

  /**
    What getOrderFixedPackage yields for an order, or the first failing step. The
    order currency is dereferenced only for a package whose price matches, so an
    order without a currency fails with FixedPackageNotFound when no price matches,
    and reaches a nil dereference otherwise.
   */
  function SelectFixedPackage(order: OrderScalar, project: Project, geoCity: string -> Option<GeoRecord>)
    : (r: Result<FixedPackageChoice, OrderError>)
    ensures geoCity(order.createOrderIp).None? <==> r == Failure(PayerRegionUnknown)
    ensures r == Failure(FixedPackageForRegionNotFound) <==>
      geoCity(order.createOrderIp).Some? && !RegionHasPackages(order, project, geoCity(order.createOrderIp).value)
    ensures r == Failure(NilDereference) <==>
      && geoCity(order.createOrderIp).Some? && RegionHasPackages(order, project, geoCity(order.createOrderIp).value)
      && order.currency.None?
      && SomePriceMatches(project.fixedPackage[PayerRegion(order.region, geoCity(order.createOrderIp).value)], order.amount)
    ensures r == Failure(FixedPackageNotFound) <==>
      && geoCity(order.createOrderIp).Some? && RegionHasPackages(order, project, geoCity(order.createOrderIp).value)
      && var fps := project.fixedPackage[PayerRegion(order.region, geoCity(order.createOrderIp).value)];
         if order.currency.None? then !SomePriceMatches(fps, order.amount)
         else LastMatch(fps, order.amount, order.currency.value).None?
    ensures r.Success? <==>
      && geoCity(order.createOrderIp).Some? && RegionHasPackages(order, project, geoCity(order.createOrderIp).value)
      && order.currency.Some?
      && LastMatch(project.fixedPackage[PayerRegion(order.region, geoCity(order.createOrderIp).value)],
                   order.amount, order.currency.value).Some?
    ensures r.Success? ==>
      && geoCity(order.createOrderIp) == Some(r.value.geo)
      && r.value.package.region == PayerRegion(order.region, r.value.geo)
      && r.value.package.region in project.fixedPackage
      && var fps := project.fixedPackage[r.value.package.region];
         && r.value.package.id < |fps|
         && PackageMatches(fps[r.value.package.id], order.amount, order.currency.value)
         && (forall j :: r.value.package.id < j < |fps| ==> !PackageMatches(fps[j], order.amount, order.currency.value))
         && r.value.package.name == fps[r.value.package.id].name
         && r.value.package.price == fps[r.value.package.id].price == order.amount
         && r.value.package.currencyInt == fps[r.value.package.id].currencyInt
  {
    var g := geoCity(order.createOrderIp);
    if g.None? then Failure(PayerRegionUnknown)
    else if !RegionHasPackages(order, project, g.value) then Failure(FixedPackageForRegionNotFound)
    else
      var region := PayerRegion(order.region, g.value);
      var fps := project.fixedPackage[region];
      if order.currency.None? then
        if SomePriceMatches(fps, order.amount) then Failure(NilDereference) else Failure(FixedPackageNotFound)
      else
        var m := LastMatch(fps, order.amount, order.currency.value);
        if m.None? then Failure(FixedPackageNotFound)
        else
          var fp := fps[m.value];
          Success(FixedPackageChoice(g.value, OrderFixedPackage(m.value, region, fp.name, fp.currencyInt, fp.price)))
  }

  /**
    getOrderFixedPackage. The scan stops at the first package of the right price
    when the order carries no currency: Go dereferences the nil currency there.
   */
  method GetOrderFixedPackage(order: OrderScalar, project: Project, geoCity: string -> Option<GeoRecord>)
    returns (r: Result<FixedPackageChoice, OrderError>)
    ensures r == SelectFixedPackage(order, project, geoCity)
  {
    var region := "";
    if order.region.Some? {
      region := order.region.value;
    }
    var gRecord := geoCity(order.createOrderIp);
    if gRecord.None? {
      return Failure(PayerRegionUnknown);
    }
    if region == "" {
      region := gRecord.value.countryIsoCode;
    }
    if region !in project.fixedPackage || |project.fixedPackage[region]| <= 0 {
      return Failure(FixedPackageForRegionNotFound);
    }
    var fps := project.fixedPackage[region];
    var ofp: Option<FixedPackage> := None;
    var ofpId := 0;
    for i := 0 to |fps|
      invariant order.currency.None? ==> ofp.None? && forall j :: 0 <= j < i ==> fps[j].price != order.amount
      invariant order.currency.Some? ==>
        (ofp.None? <==> LastMatch(fps[..i], order.amount, order.currency.value).None?)
      invariant order.currency.Some? && ofp.Some? ==>
        && LastMatch(fps[..i], order.amount, order.currency.value) == Some(ofpId)
        && ofpId < i && ofp.value == fps[ofpId]
    {
      assert fps[..i + 1][..i] == fps[..i];
      if fps[i].price != order.amount {
        continue;
      }
      if order.currency.None? {
        return Failure(NilDereference);
      }
      if fps[i].currency.codeA3 != order.currency.value {
        continue;
      }
      ofp := Some(fps[i]);
      ofpId := i;
    }
    assert fps[..|fps|] == fps;
    if ofp.None? {
      return Failure(FixedPackageNotFound);
    }
    return Success(FixedPackageChoice(gRecord.value,
      OrderFixedPackage(ofpId, region, ofp.value.name, ofp.value.currencyInt, ofp.value.price)));
  }

  // ---------------------------------------------------------------- limits

  /** The order amount in `target`, converted only when the currency codes differ. */
  function AmountIn(convert: (int, int, real) -> Conversion, amount: real, oCurrency: Option<Currency>, target: Currency)
    : (r: Result<real, OrderError>)
    ensures oCurrency.None? || oCurrency.value.codeA3 == target.codeA3 ==> r == Success(amount)
    ensures r.Failure? ==> r.error.Collaborator?
  {
    if oCurrency.Some? && oCurrency.value.codeA3 != target.codeA3 then
      var c := convert(oCurrency.value.codeInt, target.codeInt, amount);
      if c.failure.Some? then Failure(Collaborator(c.failure.value)) else Success(c.amount)
    else Success(amount)
  }

  /** checkProjectLimits: the amount in the project's limits currency must lie in [min, max]. */
  function CheckProjectLimits(convert: (int, int, real) -> Conversion, amount: real, oCurrency: Option<Currency>, project: Project)
    : (r: Outcome<OrderError>)
    ensures var a := AmountIn(convert, amount, oCurrency, project.limitsCurrency);
      && (a.Failure? ==> r == Fail(a.error))
      && (a.Success? ==>
            && (r == Fail(AmountLowerThanMinAllowed) <==> a.value < project.minPaymentAmount)
            && (r == Fail(AmountGreaterThanMaxAllowed) <==>
                  project.minPaymentAmount <= a.value && project.maxPaymentAmount < a.value)
            && (r == Pass <==> project.minPaymentAmount <= a.value <= project.maxPaymentAmount))
  {
    var a := AmountIn(convert, amount, oCurrency, project.limitsCurrency);
    if a.Failure? then Fail(a.error)
    else if a.value < project.minPaymentAmount then Fail(AmountLowerThanMinAllowed)
    else if a.value > project.maxPaymentAmount then Fail(AmountGreaterThanMaxAllowed)
    else Pass
  }

  /** The amount and currency handed to the payment method (pmOutcomeData). */
  datatype PmOutcome = PmOutcome(amount: real, currency: Currency)

  /** checkPaymentMethodLimits: the amount in the method's currency must lie in [min, max]. */
  function CheckPaymentMethodLimits(convert: (int, int, real) -> Conversion, amount: real, oCurrency: Option<Currency>, pm: PaymentMethod)
    : (r: Result<PmOutcome, OrderError>)
    ensures var a := AmountIn(convert, amount, oCurrency, pm.currency);
      && (a.Failure? ==> r == Failure(a.error))
      && (a.Success? ==>
            && (r == Failure(AmountLowerThanMinAllowedPaymentMethod) <==> a.value < pm.minPaymentAmount)
            && (r == Failure(AmountGreaterThanMaxAllowedPaymentMethod) <==>
                  pm.minPaymentAmount <= a.value && pm.maxPaymentAmount < a.value)
            && (r.Success? <==> pm.minPaymentAmount <= a.value <= pm.maxPaymentAmount)
            && (r.Success? ==> r.value == PmOutcome(a.value, pm.currency)))
  {
    var a := AmountIn(convert, amount, oCurrency, pm.currency);
    if a.Failure? then Failure(a.error)
    else if a.value < pm.minPaymentAmount then Failure(AmountLowerThanMinAllowedPaymentMethod)
    else if a.value > pm.maxPaymentAmount then Failure(AmountGreaterThanMaxAllowedPaymentMethod)
    else Success(PmOutcome(a.value, pm.currency))
  }
}
