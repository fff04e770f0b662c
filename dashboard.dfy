/**
 * The dashboard's chart-data transforms (public/script.js). They turn the raw
 * guild sessions the API returns into the series the charts draw. This module holds
 * `formatTimeSince`, the series types, `extendSeriesTo` and the total-members brush
 * line; the channel list, the overview, the user list and the per-user timeline have
 * modules of their own. The clock (`new Date().getTime()`) and the
 * page's globals (`rawApiData`, `allChannels`) are parameters here.
 */
module Dashboard {
  import opened Wrappers
  import opened Ordering
  import opened GuildVoice
  import JsCollections

  // ---------------------------------------------------------------------------
  // formatTimeSince
  // ---------------------------------------------------------------------------

  const MS_PER_DAY: int := 86400000
  const MS_PER_HOUR: int := 3600000
  const MS_PER_MINUTE: int := 60000

  /** The unit `formatTimeSince` reports and how many of it. */
  datatype Elapsed = DaysAgo(days: nat) | HoursAgo(hours: nat) | MinutesAgo(minutes: nat) | JustNow

  /**
   * Days if at least one whole day has passed, else hours if at least one whole
   * hour, else minutes if at least one whole minute, else "just now" (also for
   * a timestamp in the future). Each amount is the floor of the elapsed time.
   */
  function Elapse(now: int, timestamp: int): (r: Elapsed)
    ensures r.DaysAgo? <==> now - timestamp >= MS_PER_DAY
    ensures r.DaysAgo? ==> r.days * MS_PER_DAY <= now - timestamp < (r.days + 1) * MS_PER_DAY
    ensures r.HoursAgo? <==> MS_PER_HOUR <= now - timestamp < MS_PER_DAY
    ensures r.HoursAgo? ==>
              1 <= r.hours < 24 && r.hours * MS_PER_HOUR <= now - timestamp < (r.hours + 1) * MS_PER_HOUR
    ensures r.MinutesAgo? <==> MS_PER_MINUTE <= now - timestamp < MS_PER_HOUR
    ensures r.MinutesAgo? ==>
              1 <= r.minutes < 60 && r.minutes * MS_PER_MINUTE <= now - timestamp < (r.minutes + 1) * MS_PER_MINUTE
    ensures r.JustNow? <==> now - timestamp < MS_PER_MINUTE
  {
    // Math.floor of a quotient by a positive divisor is Dafny's `/`.
    var diff := now - timestamp;
    if diff / MS_PER_DAY > 0 then DaysAgo(diff / MS_PER_DAY)
    else if diff / MS_PER_HOUR > 0 then HoursAgo(diff / MS_PER_HOUR)
    else if diff / MS_PER_MINUTE > 0 then MinutesAgo(diff / MS_PER_MINUTE)
    else JustNow
  }

  /** The decimal digits of n, most significant first, as a template literal prints it. */
  function Decimal(n: nat): (r: string)
    ensures |r| > 0
    ensures forall i :: 0 <= i < |r| ==> '0' <= r[i] <= '9'
    ensures r[0] == '0' ==> n == 0
    decreases n
  {
    if n < 10 then [('0' as int + n) as char]
    else Decimal(n / 10) + [('0' as int + n % 10) as char]
  }

  /** The number a string of decimal digits denotes. */
  function DigitsValue(s: string): nat
    requires forall i :: 0 <= i < |s| ==> '0' <= s[i] <= '9'
  {
    if s == [] then 0 else DigitsValue(s[..|s| - 1]) * 10 + (s[|s| - 1] as int - '0' as int)
  }

  /** Reading the printed number back gives the number. */
  lemma {:induction false} DecimalRoundTrip(n: nat)
    ensures DigitsValue(Decimal(n)) == n
    decreases n
  {
    if n >= 10 {
      DecimalRoundTrip(n / 10);
      var d := Decimal(n / 10);
      assert (d + [('0' as int + n % 10) as char])[..|d|] == d;
    }
  }

  /** The text the user list shows: "-5min", "-2h", "-1j" or "à l'instant". */
  function FormatTimeSince(now: int, timestamp: int): (r: string)
    ensures r == "à l'instant" <==> now - timestamp < MS_PER_MINUTE
    ensures now - timestamp >= MS_PER_DAY ==> r == "-" + Decimal((now - timestamp) / MS_PER_DAY) + "j"
    ensures MS_PER_HOUR <= now - timestamp < MS_PER_DAY ==> r == "-" + Decimal((now - timestamp) / MS_PER_HOUR) + "h"
    ensures MS_PER_MINUTE <= now - timestamp < MS_PER_HOUR ==> r == "-" + Decimal((now - timestamp) / MS_PER_MINUTE) + "min"
  {
    var e := Elapse(now, timestamp);
    if e.JustNow? then "à l'instant"
    else
      var amount := match e
        case DaysAgo(d) => "-" + Decimal(d) + "j"
        case HoursAgo(h) => "-" + Decimal(h) + "h"
        case MinutesAgo(m) => "-" + Decimal(m) + "min";
      assert amount[0] == '-';
      amount
  }

  // ---------------------------------------------------------------------------
  // Chart series
  // ---------------------------------------------------------------------------

  /** An ApexCharts `[x, y]` point; the overview uses `null` (None) to break its line. */
  datatype Point = Point(time: int, value: Option<int>)

  /** A chart series: the overview's carry the channel id, the brush line has none. */
  datatype ChartSeries = ChartSeries(id: Option<string>, name: string, data: seq<Point>)

  /**
   * The series array the charts hold. `extendSeriesTo` pushes onto each series'
   * `data` in place and hands back the same array.
   */
  class SeriesList {
    var series: seq<ChartSeries>

    constructor (s: seq<ChartSeries>)
      ensures series == s
    {
      series := s;
    }

    /**
     * `extendSeriesTo`: every series with at least one point gets exactly one
     * more, at `extendUntil`, repeating its last value (the stepline runs flat
     * to the end); an empty series is left as it is.
     */
    method ExtendTo(extendUntil: int)
      modifies this
      ensures |series| == |old(series)|
      ensures forall i :: 0 <= i < |series| && old(series)[i].data == [] ==> series[i] == old(series)[i]
      ensures forall i :: 0 <= i < |series| && old(series)[i].data != [] ==>
                series[i] == old(series)[i].(data := old(series)[i].data
                  + [Point(extendUntil, old(series)[i].data[|old(series)[i].data| - 1].value)])
    {
      var s := series;
      var i := 0;
      while i < |s|
        invariant 0 <= i <= |s| && |s| == |old(series)|
        invariant forall k :: i <= k < |s| ==> s[k] == old(series)[k]
        invariant forall k :: 0 <= k < i && old(series)[k].data == [] ==> s[k] == old(series)[k]
        invariant forall k :: 0 <= k < i && old(series)[k].data != [] ==>
                    s[k] == old(series)[k].(data := old(series)[k].data
                      + [Point(extendUntil, old(series)[k].data[|old(series)[k].data| - 1].value)])
      {
        if |s[i].data| > 0 {
          var lastPoint := s[i].data[|s[i].data| - 1];
          s := s[i := s[i].(data := s[i].data + [Point(extendUntil, lastPoint.value)])];
        }
        i := i + 1;
      }
      series := s;
    }
  }

  // ---------------------------------------------------------------------------
  // processTotalMembersData: the brush line
  // ---------------------------------------------------------------------------

  /** `record.channels.reduce((sum, channel) => sum + channel.members.length, 0)`. */
  function TotalMembers(cs: seq<Channel>): nat
  {
    if cs == [] then 0 else TotalMembers(cs[..|cs| - 1]) + |cs[|cs| - 1].members|
  }

  /** The last value of a line, if it has a point. */
  function LastValue(pts: seq<Point>): Option<int>
  {
    if pts == [] then None else pts[|pts| - 1].value
  }

  /** Record i closed and the next one (if any) starts strictly later: the line drops to 0. */
  predicate GapAfter(data: seq<Session>, i: nat)
    requires i < |data|
  {
    data[i].sessionEnd.Some? && (i + 1 == |data| || data[i].sessionEnd.value < data[i + 1].sessionStart)
  }

  /** One turn of the `for` loop: the record's total if it changed, then 0 at a gap if not already 0. */
  function TotalStep(pts: seq<Point>, data: seq<Session>, i: nat): seq<Point>
    requires i < |data|
  {
    var total := TotalMembers(data[i].channels);
    var withTotal := if pts == [] || LastValue(pts) != Some(total)
                     then pts + [Point(data[i].sessionStart, Some(total))] else pts;
    if GapAfter(data, i) && withTotal != [] && LastValue(withTotal) != Some(0)
    then withTotal + [Point(data[i].sessionEnd.value, Some(0))]
    else withTotal
  }

  /** The brush line after the first n records. */
  function TotalPoints(data: seq<Session>, n: nat): seq<Point>
    requires n <= |data|
  {
    if n == 0 then [] else TotalStep(TotalPoints(data, n - 1), data, n - 1)
  }

  /** No two consecutive points of a line carry the same value. */
  predicate NoRepeat(pts: seq<Point>)
  {
    forall k :: 0 < k < |pts| ==> pts[k - 1].value != pts[k].value
  }

  /** What one record does to the line: it keeps the line's shape and grows it by at most two points. */
  lemma TotalStepShape(pts: seq<Point>, data: seq<Session>, i: nat)
    requires i < |data|
    ensures NoRepeat(pts) ==> NoRepeat(TotalStep(pts, data, i))
    ensures |TotalStep(pts, data, i)| <= |pts| + 2
    ensures (forall k :: 0 <= k < |pts| ==> pts[k].value.Some?) ==>
              forall k :: 0 <= k < |TotalStep(pts, data, i)| ==> TotalStep(pts, data, i)[k].value.Some?
    ensures TotalStep(pts, data, i) != []
    ensures TotalStep(pts, data, i)[..|pts|] == pts
    ensures LastValue(TotalStep(pts, data, i)) == Some(TotalMembers(data[i].channels))
            || (LastValue(TotalStep(pts, data, i)) == Some(0) && GapAfter(data, i))
  {
  }

  /**
   * The brush line never repeats a value, has at most two points per record, and
   * ends on the latest record's total, or on 0 when that record closed before a gap.
   */
  lemma {:induction false} TotalPointsShape(data: seq<Session>, n: nat)
    requires n <= |data|
    ensures NoRepeat(TotalPoints(data, n))
    ensures |TotalPoints(data, n)| <= 2 * n
    ensures forall k :: 0 <= k < |TotalPoints(data, n)| ==> TotalPoints(data, n)[k].value.Some?
    ensures n > 0 ==> TotalPoints(data, n) != []
    ensures n > 0 ==>
              || LastValue(TotalPoints(data, n)) == Some(TotalMembers(data[n - 1].channels))
              || (LastValue(TotalPoints(data, n)) == Some(0) && GapAfter(data, n - 1))
  {
    if n > 0 {
      TotalPointsShape(data, n - 1);
      TotalStepShape(TotalPoints(data, n - 1), data, n - 1);
    }
  }

  /** The line starts at the first record's start with its total. */
  lemma TotalPointsFirst(data: seq<Session>, n: nat)
    requires 0 < n <= |data|
    ensures TotalPoints(data, n)[0] == Point(data[0].sessionStart, Some(TotalMembers(data[0].channels)))
  {
    if n > 1 {
      TotalPointsFirst(data, n - 1);
      TotalPointsShape(data, n - 1);
      TotalStepShape(TotalPoints(data, n - 1), data, n - 1);
    }
  }

  /** `processTotalMembersData`: the one-series array of the brush chart. */
  function TotalMembersSeries(data: seq<Session>): seq<ChartSeries>
  {
    [ChartSeries(None, "Total des membres", TotalPoints(data, |data|))]
  }

  method ProcessTotalMembersData(data: seq<Session>) returns (r: seq<ChartSeries>)
    ensures r == TotalMembersSeries(data)
  {
    var totalMembersData: seq<Point> := [];
    var i := 0;
    while i < |data|
      invariant 0 <= i <= |data|
      invariant totalMembersData == TotalPoints(data, i)
    {
      totalMembersData := AddRecordPoints(totalMembersData, data, i);
      i := i + 1;
    }
    r := [ChartSeries(None, "Total des membres", totalMembersData)];
  }

  /** One turn of the loop in `processTotalMembersData`. */
  method AddRecordPoints(pts: seq<Point>, data: seq<Session>, i: nat) returns (totalMembersData: seq<Point>)
    requires i < |data|
    ensures totalMembersData == TotalStep(pts, data, i)
  {
      totalMembersData := pts;
      var record := data[i];
      var totalMembers := TotalMembers(record.channels);
      if totalMembersData == [] || totalMembersData[|totalMembersData| - 1].value != Some(totalMembers) {
        totalMembersData := totalMembersData + [Point(record.sessionStart, Some(totalMembers))];
      }
      if record.sessionEnd.Some? {
        var end := record.sessionEnd.value;
        if i + 1 == |data| || end < data[i + 1].sessionStart {
          if |totalMembersData| > 0 && totalMembersData[|totalMembersData| - 1].value != Some(0) {
            totalMembersData := totalMembersData + [Point(end, Some(0))];
          }
        }
      }
  }

}
