/**
  GetRevenueDynamic: revenue points of a period joined with the refunds of the
  same period key, plus the revenue and refund summaries.
 */
module OrderRevenue {

  import opened Wrappers

  /** The period components of a point's identifier (declared in the model package). */
  const PeriodYear: string := "year"
  const PeriodMonth: string := "month"
  const PeriodWeek: string := "week"
  const PeriodDay: string := "day"
  const PeriodHour: string := "hour"

  /** RevenueDynamicPointDate: absent components are zero. */
  datatype PointDate = PointDate(year: int, month: int, week: int, day: int, hour: int)

  /** One aggregation bucket: its period identifier and its total. */
  datatype Bucket = Bucket(id: map<string, int>, total: real)

  /** count, total and average of a facet. */
  datatype Summary = Summary(count: int, total: real, avg: real)

  /** The facets of the aggregation query, as the repository returns them. */
  datatype Facets = Facets(refundPoints: seq<Bucket>, revenuePoints: seq<Bucket>, revenue: Summary, refund: Summary)

  datatype Point = Point(date: PointDate, amount: real)

  datatype RevenueDynamic = RevenueDynamic(points: seq<Point>, revenue: Summary, refund: Summary)

  /** The year is read without a presence check: every bucket carries one. */
  ghost predicate HasYears(buckets: seq<Bucket>)
  {
    forall i :: 0 <= i < |buckets| ==> PeriodYear in buckets[i].id
  }

  function Component(id: map<string, int>, name: string): int
  {
    if name in id then id[name] else 0
  }

  /** getRevenueDynamicPointsKey. */
  function PointsKey(id: map<string, int>): (d: PointDate)
    requires PeriodYear in id
    ensures d.year == id[PeriodYear]
    ensures d.month == Component(id, PeriodMonth) && d.week == Component(id, PeriodWeek)
    ensures d.day == Component(id, PeriodDay) && d.hour == Component(id, PeriodHour)
  {
    var d := PointDate(id[PeriodYear], 0, 0, 0, 0);
    var d := if PeriodMonth in id then d.(month := id[PeriodMonth]) else d;
    var d := if PeriodWeek in id then d.(week := id[PeriodWeek]) else d;
    var d := if PeriodDay in id then d.(day := id[PeriodDay]) else d;
    if PeriodHour in id then d.(hour := id[PeriodHour]) else d
  }

  /** Identifiers that agree on the five components have the same key. */
  lemma PointsKeyOnlyReadsPeriods(a: map<string, int>, b: map<string, int>)
    requires PeriodYear in a && PeriodYear in b && a[PeriodYear] == b[PeriodYear]
    requires forall n :: n in {PeriodMonth, PeriodWeek, PeriodDay, PeriodHour} ==> Component(a, n) == Component(b, n)
    ensures PointsKey(a) == PointsKey(b)
  {
    assert Component(a, PeriodMonth) == Component(b, PeriodMonth);
    assert Component(a, PeriodWeek) == Component(b, PeriodWeek);
    assert Component(a, PeriodDay) == Component(b, PeriodDay);
    assert Component(a, PeriodHour) == Component(b, PeriodHour);
  }

  /**
    The refund totals by the text of their period key (RevenueDynamicPointDate's
    String, a parameter here); a later bucket with the same key wins.
   */
  function RefundTotals(refunds: seq<Bucket>, keyText: PointDate -> string, fmt: real -> real)
    : (m: map<string, real>)
    requires HasYears(refunds)
    ensures forall i :: 0 <= i < |refunds| ==> keyText(PointsKey(refunds[i].id)) in m
    ensures forall k :: k in m ==> exists i :: 0 <= i < |refunds| && keyText(PointsKey(refunds[i].id)) == k
  {
    if refunds == [] then map[]
    else
      var init := refunds[..|refunds| - 1];
      var last := refunds[|refunds| - 1];
      assert forall i :: 0 <= i < |init| ==> init[i] == refunds[i];
      RefundTotals(init, keyText, fmt)[keyText(PointsKey(last.id)) := fmt(last.total)]
  }

  /** The refund total of a key is that of the last refund bucket with that key. */
  lemma {:induction false} RefundTotalsLastWins(refunds: seq<Bucket>, keyText: PointDate -> string,
                                                fmt: real -> real, i: int)
    requires HasYears(refunds) && 0 <= i < |refunds|
    requires forall j :: i < j < |refunds| ==>
      keyText(PointsKey(refunds[j].id)) != keyText(PointsKey(refunds[i].id))
    ensures RefundTotals(refunds, keyText, fmt)[keyText(PointsKey(refunds[i].id))] == fmt(refunds[i].total)
  {
    var n := |refunds|;
    if i < n - 1 {
      var init := refunds[..n - 1];
      assert forall j :: 0 <= j < |init| ==> init[j] == refunds[j];
      RefundTotalsLastWins(init, keyText, fmt, i);
    }
  }

  /** A revenue point: the total less the refund with the same key, if there is one. */
  function PointOf(b: Bucket, refunds: map<string, real>, keyText: PointDate -> string, fmt: real -> real): (p: Point)
    requires PeriodYear in b.id
    ensures p.date == PointsKey(b.id)
    ensures keyText(p.date) in refunds ==> p.amount == fmt(b.total - refunds[keyText(p.date)])
    ensures keyText(p.date) !in refunds ==> p.amount == fmt(b.total)
  {
    var date := PointsKey(b.id);
    if keyText(date) in refunds then Point(date, fmt(b.total - refunds[keyText(date)]))
    else Point(date, fmt(b.total))
  }

  function FormatSummary(s: Summary, fmt: real -> real): Summary
  {
    Summary(s.count, fmt(s.total), fmt(s.avg))
  }

  /** The refund totals, stored bucket by bucket. */
  method CollectRefunds(refunds: seq<Bucket>, keyText: PointDate -> string, fmt: real -> real)
    returns (refPoints: map<string, real>)
    requires HasYears(refunds)
    ensures refPoints == RefundTotals(refunds, keyText, fmt)
  {
    refPoints := map[];
    for i := 0 to |refunds|
      invariant refPoints == RefundTotals(refunds[..i], keyText, fmt)
    {
      var v := refunds[i];
      assert refunds[..i + 1][..i] == refunds[..i];
      refPoints := refPoints[keyText(PointsKey(v.id)) := fmt(v.total)];
    }
    assert refunds[..|refunds|] == refunds;
  }

  /** One point per revenue bucket, appended in order. */
  method CollectPoints(revenue: seq<Bucket>, refPoints: map<string, real>, keyText: PointDate -> string,
                       fmt: real -> real)
    returns (revPoints: seq<Point>)
    requires HasYears(revenue)
    ensures |revPoints| == |revenue|
    ensures forall j :: 0 <= j < |revenue| ==> revPoints[j] == PointOf(revenue[j], refPoints, keyText, fmt)
  {
    revPoints := [];
    for i := 0 to |revenue|
      invariant |revPoints| == i
      invariant forall j :: 0 <= j < i ==> revPoints[j] == PointOf(revenue[j], refPoints, keyText, fmt)
    {
      var v := revenue[i];
      var revPointDate := PointsKey(v.id);
      var revPoint := Point(revPointDate, 0.0);
      if keyText(revPointDate) in refPoints {
        revPoint := revPoint.(amount := fmt(v.total - refPoints[keyText(revPointDate)]));
      } else {
        revPoint := revPoint.(amount := fmt(v.total));
      }
      revPoints := revPoints + [revPoint];
    }
  }

  /**
    GetRevenueDynamic. `res` is the repository's aggregation result, `keyText`
    RevenueDynamicPointDate's String and `fmt` FormatAmount.
   */
  method GetRevenueDynamic(res: Result<Facets, string>, keyText: PointDate -> string, fmt: real -> real)
    returns (r: Result<RevenueDynamic, string>)
    requires res.Success? ==> HasYears(res.value.refundPoints) && HasYears(res.value.revenuePoints)
    ensures res.Failure? ==> r == Failure(res.error)
    ensures res.Success? ==>
      var f := res.value;
      var refunds := RefundTotals(f.refundPoints, keyText, fmt);
      && r.Success?
      && |r.value.points| == |f.revenuePoints|
      && (forall i :: 0 <= i < |f.revenuePoints| ==>
            r.value.points[i] == PointOf(f.revenuePoints[i], refunds, keyText, fmt))
      && r.value.revenue == FormatSummary(f.revenue, fmt)
      && r.value.refund == FormatSummary(f.refund, fmt)
  {
    if res.Failure? {
      return Failure(res.error);
    }
    var f := res.value;

    var refPoints := CollectRefunds(f.refundPoints, keyText, fmt);
    var revPoints := CollectPoints(f.revenuePoints, refPoints, keyText, fmt);
    return Success(RevenueDynamic(revPoints, FormatSummary(f.revenue, fmt), FormatSummary(f.refund, fmt)));
  }
}
