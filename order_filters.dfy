/**
  ProcessFilters: the order-listing query filter built from URL query values.
  Each recognised parameter writes one key of the filter document; keys the
  request does not mention keep what the caller put there.
 */
module OrderFilters {

  import opened Wrappers
  import opened Text

  /** The query parameter names (declared in the model package). */
  const FieldId: string := "id"
  const FieldPaymentMethods: string := "payment_method"
  const FieldCountries: string := "country"
  const FieldStatuses: string := "status"
  const FieldAccount: string := "account"
  const FieldPMDateFrom: string := "pm_date_from"
  const FieldPMDateTo: string := "pm_date_to"
  const FieldProjectDateFrom: string := "project_date_from"
  const FieldProjectDateTo: string := "project_date_to"

  /** The filter document's keys. */
  const KeyId: string := "_id"
  const KeyPaymentMethod: string := "payment_method.id"
  const KeyCountry: string := "payer_data.country_code_a2"
  const KeyStatus: string := "status"
  const KeyOr: string := "$or"
  const KeyCloseDate: string := "pm_order_close_date"

  /** The fields the account text is searched in. */
  const AccountFields: set<string> := {"project_account", "pm_account", "payer_data.phone", "payer_data.email"}

  /** A case-insensitive regular expression `.*text.*`. */
  datatype Pattern = Contains(text: string)

  /** The values a filter key can hold; instants are Unix seconds. */
  datatype FilterValue =
    | ObjectId(hex: string)
    | InObjectIds(ids: seq<string>)
    | InStrings(values: seq<string>)
    | InInts(ints: seq<int>)
    | AnyOf(fields: map<string, Pattern>)
    | Range(gte: Option<int>, lte: Option<int>)
    | Opaque

  /** url.Values as parsed from a query string: every present key has at least one value. */
  ghost predicate WellFormedValues(values: map<string, seq<string>>)
  {
    forall k :: k in values ==> |values[k]| > 0
  }

  /** bson.ObjectIdHex panics on anything else than an ObjectId's hex form. */
  ghost predicate ObjectIdsWellFormed(values: map<string, seq<string>>)
  {
    && (FieldId in values && |values[FieldId]| > 0 ==> IsObjectIdHex(values[FieldId][0]))
    && (FieldPaymentMethods in values ==>
          forall i :: 0 <= i < |values[FieldPaymentMethods]| ==> IsObjectIdHex(values[FieldPaymentMethods][i]))
  }

  /** The statuses that parse as integers, in the order given. */
  function ParsedStatuses(ss: seq<string>): (r: seq<int>)
    ensures |r| <= |ss|
    ensures forall i :: 0 <= i < |ss| && Atoi(ss[i]).Some? ==> Atoi(ss[i]).value in r
    ensures forall j :: 0 <= j < |r| ==> exists i :: 0 <= i < |ss| && Atoi(ss[i]) == Some(r[j])
  {
    if ss == [] then []
    else
      var init := ParsedStatuses(ss[..|ss| - 1]);
      var last := Atoi(ss[|ss| - 1]);
      var r := if last.Some? then init + [last.value] else init;
      assert forall i :: 0 <= i < |ss| - 1 ==> ss[..|ss| - 1][i] == ss[i];
      r
  }

  /** No status parses exactly when every status is rejected by Atoi. */
  lemma {:induction false} NoStatusParses(ss: seq<string>)
    ensures ParsedStatuses(ss) == [] <==> forall i :: 0 <= i < |ss| ==> Atoi(ss[i]).None?
  {
    if ss != [] {
      var init := ss[..|ss| - 1];
      NoStatusParses(init);
      assert forall i :: 0 <= i < |init| ==> init[i] == ss[i];
    }
  }

  /** The first value of a parameter, parsed as a 64-bit Unix time, if present and well formed. */
  function Bound(values: map<string, seq<string>>, key: string): (r: Option<int>)
    requires key in values ==> |values[key]| > 0
    ensures r.Some? <==> key in values && ParseInt(values[key][0], 64).Some?
    ensures r.Some? ==> r == ParseInt(values[key][0], 64)
  {
    if key in values then ParseInt(values[key][0], 64) else None
  }

  /** The date range of a pair of from/to parameters. */
  function DateRange(values: map<string, seq<string>>, from: string, to: string): (r: FilterValue)
    requires from in values ==> |values[from]| > 0
    requires to in values ==> |values[to]| > 0
    ensures r == Range(Bound(values, from), Bound(values, to))
  {
    Range(Bound(values, from), Bound(values, to))
  }

  /**
    A date range whose parameters hold Unix times in decimal form reads those
    times back; a parameter that is absent leaves its bound unset.
   */
  lemma DateRangeOfUnixTimes(values: map<string, seq<string>>, from: string, to: string, t1: int, t2: int)
    requires from in values ==> |values[from]| > 0 && values[from][0] == Text.FormatInt(t1)
    requires to in values ==> |values[to]| > 0 && values[to][0] == Text.FormatInt(t2)
    requires -Text.Pow2(63) <= t1 < Text.Pow2(63) && -Text.Pow2(63) <= t2 < Text.Pow2(63)
    ensures DateRange(values, from, to)
      == Range(if from in values then Some(t1) else None, if to in values then Some(t2) else None)
  {
    Text.ParseIntFormatInt(t1, 64);
    Text.ParseIntFormatInt(t2, 64);
  }

  predicate NonEmptyRange(v: FilterValue)
  {
    v.Range? && (v.gte.Some? || v.lte.Some?)
  }

  /** The keys ProcessFilters may write. */
  const WrittenKeys: set<string> := {KeyId, KeyPaymentMethod, KeyCountry, KeyStatus, KeyOr, KeyCloseDate}

  /** The payment-method ids, appended one by one. */
  method CollectObjectIds(pms: seq<string>) returns (fPms: seq<string>)
    ensures fPms == pms
  {
    fPms := [];
    for i := 0 to |pms|
      invariant fPms == pms[..i]
    {
      fPms := fPms + [pms[i]];
    }
    assert pms[..|pms|] == pms;
  }

  /** The statuses that parse, appended one by one; the others are skipped. */
  method CollectStatuses(ss: seq<string>) returns (ssi: seq<int>)
    ensures ssi == ParsedStatuses(ss)
  {
    ssi := [];
    for i := 0 to |ss|
      invariant ssi == ParsedStatuses(ss[..i])
    {
      assert ss[..i + 1][..i] == ss[..i];
      var si := Atoi(ss[i]);
      if si.None? {
        continue;
      }
      ssi := ssi + [si.value];
    }
    assert ss[..|ss|] == ss;
  }

  /** The `$gte` and `$lte` bounds of a date range, each set when its value parses. */
  method CollectRange(values: map<string, seq<string>>, from: string, to: string) returns (v: FilterValue)
    requires from in values ==> |values[from]| > 0
    requires to in values ==> |values[to]| > 0
    ensures v == DateRange(values, from, to)
  {
    var gte: Option<int> := None;
    var lte: Option<int> := None;
    if from in values {
      var ts := ParseInt(values[from][0], 64);
      if ts.Some? {
        gte := ts;
      }
    }
    if to in values {
      var ts := ParseInt(values[to][0], 64);
      if ts.Some? {
        lte := ts;
      }
    }
    v := Range(gte, lte);
  }

  /** The same case-insensitive search in each account field. */
  function AccountFilter(text: string): (v: FilterValue)
    ensures v.AnyOf? && v.fields.Keys == AccountFields
    ensures forall f :: f in v.fields ==> v.fields[f] == Contains(text)
  {
    AnyOf(map f | f in AccountFields :: Contains(text))
  }

  /** `filter` with `key` set to `v` when `cond` holds. */
  function PutIf(filter: map<string, FilterValue>, cond: bool, key: string, v: FilterValue): (r: map<string, FilterValue>)
    ensures cond ==> key in r && r[key] == v
    ensures forall k :: k != key || !cond ==> (k in r <==> k in filter) && (k in r ==> r[k] == filter[k])
  {
    if cond then filter[key := v] else filter
  }

  /** The id, payment-method, country and status parameters. */
  function SelectionFilter(values: map<string, seq<string>>, filter: map<string, FilterValue>): map<string, FilterValue>
    requires WellFormedValues(values)
  {
    var r1 := PutIf(filter, FieldId in values, KeyId,
                    if FieldId in values then ObjectId(values[FieldId][0]) else Opaque);
    var r2 := PutIf(r1, FieldPaymentMethods in values, KeyPaymentMethod,
                    if FieldPaymentMethods in values then InObjectIds(values[FieldPaymentMethods]) else Opaque);
    var r3 := PutIf(r2, FieldCountries in values, KeyCountry,
                    if FieldCountries in values then InStrings(values[FieldCountries]) else Opaque);
    var statuses := if FieldStatuses in values then ParsedStatuses(values[FieldStatuses]) else [];
    PutIf(r3, statuses != [], KeyStatus, InInts(statuses))
  }

  /** The filter ProcessFilters builds, one parameter after the other. */
  function Filter(values: map<string, seq<string>>, filter: map<string, FilterValue>): map<string, FilterValue>
    requires WellFormedValues(values)
  {
    var r4 := SelectionFilter(values, filter);
    var r5 := PutIf(r4, FieldAccount in values, KeyOr,
                    if FieldAccount in values then AccountFilter(values[FieldAccount][0]) else Opaque);
    DateFilter(values, r5)
  }

  /** The two close-date ranges; the project range, when set, replaces the payment-method one. */
  function DateFilter(values: map<string, seq<string>>, filter: map<string, FilterValue>): map<string, FilterValue>
    requires WellFormedValues(values)
  {
    var pm := DateRange(values, FieldPMDateFrom, FieldPMDateTo);
    var r6 := PutIf(filter, NonEmptyRange(pm), KeyCloseDate, pm);
    var prj := DateRange(values, FieldProjectDateFrom, FieldProjectDateTo);
    PutIf(r6, NonEmptyRange(prj), KeyCloseDate, prj)
  }

  /** ProcessFilters: add the filters the query values ask for to `filter`. */
  method ProcessFilters(values: map<string, seq<string>>, filter: map<string, FilterValue>)
    returns (r: map<string, FilterValue>)
    requires WellFormedValues(values) && ObjectIdsWellFormed(values)
    ensures r == Filter(values, filter)
  {
    r := AddSelection(values, filter);
    ghost var r4 := r;
    if FieldAccount in values {
      r := r[KeyOr := AccountFilter(values[FieldAccount][0])];
    }
    assert r == PutIf(r4, FieldAccount in values, KeyOr,
                      if FieldAccount in values then AccountFilter(values[FieldAccount][0]) else Opaque);
    r := AddDateRanges(values, r);
  }

  /** The second half of ProcessFilters: the payment-method and project close-date ranges. */
  method AddDateRanges(values: map<string, seq<string>>, filter: map<string, FilterValue>)
    returns (r: map<string, FilterValue>)
    requires WellFormedValues(values)
    ensures r == DateFilter(values, filter)
  {
    r := filter;
    var pmDates := CollectRange(values, FieldPMDateFrom, FieldPMDateTo);
    if NonEmptyRange(pmDates) {
      r := r[KeyCloseDate := pmDates];
    }
    var prjDates := CollectRange(values, FieldProjectDateFrom, FieldProjectDateTo);
    if NonEmptyRange(prjDates) {
      r := r[KeyCloseDate := prjDates];
    }
  }

  /** The first half of ProcessFilters: the id, payment-method, country and status filters. */
  method AddSelection(values: map<string, seq<string>>, filter: map<string, FilterValue>)
    returns (r: map<string, FilterValue>)
    requires WellFormedValues(values) && ObjectIdsWellFormed(values)
    ensures r == SelectionFilter(values, filter)
  {
    r := filter;
    if FieldId in values {
      r := r[KeyId := ObjectId(values[FieldId][0])];
    }
    ghost var r1 := r;
    if FieldPaymentMethods in values {
      var fPms := CollectObjectIds(values[FieldPaymentMethods]);
      r := r[KeyPaymentMethod := InObjectIds(fPms)];
    }
    assert r == PutIf(r1, FieldPaymentMethods in values, KeyPaymentMethod,
                      if FieldPaymentMethods in values then InObjectIds(values[FieldPaymentMethods]) else Opaque);
    ghost var r2 := r;
    if FieldCountries in values {
      r := r[KeyCountry := InStrings(values[FieldCountries])];
    }
    assert r == PutIf(r2, FieldCountries in values, KeyCountry,
                      if FieldCountries in values then InStrings(values[FieldCountries]) else Opaque);
    if FieldStatuses in values {
      var ssi := CollectStatuses(values[FieldStatuses]);
      if |ssi| > 0 {
        r := r[KeyStatus := InInts(ssi)];
      }
    }
  }

  /** Keys no parameter writes keep the caller's value. */
  lemma FilterKeepsOtherKeys(values: map<string, seq<string>>, filter: map<string, FilterValue>, k: string)
    requires WellFormedValues(values) && k !in WrittenKeys
    ensures (k in Filter(values, filter) <==> k in filter)
    ensures k in filter ==> Filter(values, filter)[k] == filter[k]
  {
  }

  /** Written keys the request does not ask for keep the caller's value too. */
  lemma FilterKeepsUntouchedKeys(values: map<string, seq<string>>, filter: map<string, FilterValue>, k: string)
    requires WellFormedValues(values) && k !in Touched(values)
    ensures (k in Filter(values, filter) <==> k in filter)
    ensures k in filter ==> Filter(values, filter)[k] == filter[k]
  {
  }

  /** The status filter holds exactly the statuses that parse, and only when one does. */
  lemma FilterStatus(values: map<string, seq<string>>, filter: map<string, FilterValue>)
    requires WellFormedValues(values) && FieldStatuses in values
    ensures ParsedStatuses(values[FieldStatuses]) != [] ==>
      KeyStatus in Filter(values, filter)
      && Filter(values, filter)[KeyStatus] == InInts(ParsedStatuses(values[FieldStatuses]))
    ensures (forall i :: 0 <= i < |values[FieldStatuses]| ==> Atoi(values[FieldStatuses][i]).None?) ==>
      (KeyStatus in Filter(values, filter) <==> KeyStatus in filter)
  {
    NoStatusParses(values[FieldStatuses]);
  }

  /** The id, payment-method, country and account parameters each set their key. */
  lemma FilterPlainKeys(values: map<string, seq<string>>, filter: map<string, FilterValue>)
    requires WellFormedValues(values)
    ensures FieldId in values ==>
      KeyId in Filter(values, filter) && Filter(values, filter)[KeyId] == ObjectId(values[FieldId][0])
    ensures FieldPaymentMethods in values ==>
      KeyPaymentMethod in Filter(values, filter)
      && Filter(values, filter)[KeyPaymentMethod] == InObjectIds(values[FieldPaymentMethods])
    ensures FieldCountries in values ==>
      KeyCountry in Filter(values, filter) && Filter(values, filter)[KeyCountry] == InStrings(values[FieldCountries])
    ensures FieldAccount in values ==>
      KeyOr in Filter(values, filter)
      && Filter(values, filter)[KeyOr] == AccountFilter(values[FieldAccount][0])
  {
  }

  /**
    Both date ranges are written under the same key: with a project date range in
    the request, the payment-system date range does not reach the filter.
   */
  lemma FilterCloseDate(values: map<string, seq<string>>, filter: map<string, FilterValue>)
    requires WellFormedValues(values)
    ensures var pm := DateRange(values, FieldPMDateFrom, FieldPMDateTo);
      var prj := DateRange(values, FieldProjectDateFrom, FieldProjectDateTo);
      && (NonEmptyRange(prj) ==> KeyCloseDate in Filter(values, filter) && Filter(values, filter)[KeyCloseDate] == prj)
      && (!NonEmptyRange(prj) && NonEmptyRange(pm) ==>
            KeyCloseDate in Filter(values, filter) && Filter(values, filter)[KeyCloseDate] == pm)
  {
  }

  /** The filter keys the query values lead ProcessFilters to write. */
  ghost function Touched(values: map<string, seq<string>>): (keys: set<string>)
    requires WellFormedValues(values)
    ensures keys <= WrittenKeys
  {
    (if FieldId in values then {KeyId} else {})
    + (if FieldPaymentMethods in values then {KeyPaymentMethod} else {})
    + (if FieldCountries in values then {KeyCountry} else {})
    + (if FieldStatuses in values && ParsedStatuses(values[FieldStatuses]) != [] then {KeyStatus} else {})
    + (if FieldAccount in values then {KeyOr} else {})
    + (if NonEmptyRange(DateRange(values, FieldPMDateFrom, FieldPMDateTo))
          || NonEmptyRange(DateRange(values, FieldProjectDateFrom, FieldProjectDateTo))
       then {KeyCloseDate} else {})
  }

}
