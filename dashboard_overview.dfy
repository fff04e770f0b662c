/**
 * The dashboard's per-channel overview stepline (public/script.js, `processOverviewData`).
 */
module DashboardOverview {
  import opened Wrappers
  import opened Ordering
  import opened GuildVoice
  import opened JsCollections
  import opened Dashboard
  import opened DashboardChannels

  // ---------------------------------------------------------------------------
  // processOverviewData: the per-channel stepline
  // ---------------------------------------------------------------------------

  /** `channelsInRecord.get(id) || 0`: the member count of the last entry with the id (the `Map` keeps the last one set). */
  function MemberCount(cs: seq<Channel>, id: string): nat
  {
    if cs == [] then 0
    else if cs[|cs| - 1].channelId == id then |cs[|cs| - 1].members|
    else MemberCount(cs[..|cs| - 1], id)
  }

  /** The value the overview plots for a channel at a record: its member count, or `null` when it is empty. */
  function Occupancy(rec: Session, id: string): (r: Option<int>)
    ensures r.Some? ==> r.value > 0
  {
    var n := MemberCount(rec.channels, id);
    if n > 0 then Some(n) else None
  }

  /**
   * What one record adds to a channel's line: nothing if the value did not
   * change; otherwise, when time has moved on, a point holding the old value (and
   * a 0 before a `null`, or a 0 before a line comes back), then the new value.
   */
  function Emit(pts: seq<Point>, t: int, v: Option<int>): seq<Point>
  {
    var lastValue := LastValue(pts);
    if lastValue == v then pts
    else
      var bridge :=
        if pts != [] && pts[|pts| - 1].time < t then
          if lastValue.Some? then [Point(t, lastValue)] + (if v.None? then [Point(t, Some(0))] else [])
          else if v.Some? then [Point(t, Some(0))] else []
        else [];
      pts + bridge + [Point(t, v)]
  }

  /** A channel's line after the first n records. */
  function OverviewPoints(data: seq<Session>, id: string, n: nat): seq<Point>
    requires n <= |data|
  {
    if n == 0 then [] else Emit(OverviewPoints(data, id, n - 1), data[n - 1].sessionStart, Occupancy(data[n - 1], id))
  }

  /** The overview's series before sorting: one per seen channel, with its line after the first n records. */
  function Lines(seen: seq<ChannelInfo>, data: seq<Session>, n: nat): (r: seq<ChartSeries>)
    requires n <= |data|
    ensures |r| == |seen|
    ensures forall k :: 0 <= k < |seen| ==>
              r[k] == ChartSeries(Some(seen[k].id), seen[k].name, OverviewPoints(data, seen[k].id, n))
  {
    if seen == [] then []
    else [ChartSeries(Some(seen[0].id), seen[0].name, OverviewPoints(data, seen[0].id, n))] + Lines(seen[1..], data, n)
  }

  /** `xs.indexOf(x)`. */
  function IndexOf(xs: seq<string>, x: string): (r: int)
    ensures -1 <= r < |xs|
    ensures r == -1 <==> x !in xs
    ensures 0 <= r ==> xs[r] == x
  {
    if xs == [] then -1
    else if xs[0] == x then 0
    else
      var k := IndexOf(xs[1..], x);
      if k == -1 then -1 else k + 1
  }

  /** A series' place in the channel order, -1 if it has none. */
  function OrderIndex(order: seq<string>, s: ChartSeries): int
  {
    if s.id.Some? then IndexOf(order, s.id.value) else -1
  }

  /** The overview's comparator: ordered channels by position and before the rest, which go by name. */
  predicate Before(order: seq<string>, a: ChartSeries, b: ChartSeries)
  {
    var oa := OrderIndex(order, a);
    var ob := OrderIndex(order, b);
    if oa != -1 && ob != -1 then oa < ob
    else if oa != -1 then true
    else if ob != -1 then false
    else StrLt(a.name, b.name)
  }

  function OverviewBefore(order: seq<string>): (ChartSeries, ChartSeries) -> bool
  {
    (a: ChartSeries, b: ChartSeries) => Before(order, a, b)
  }

  lemma OverviewBeforeIsStrictWeakOrder(order: seq<string>)
    ensures StrictWeakOrder(OverviewBefore(order))
  {
    var lt := OverviewBefore(order);
    forall x, y ensures lt(x, y) ==> !lt(y, x) {
      StrLtAsymmetric(x.name, y.name);
    }
    forall x, y, z ensures lt(x, z) ==> lt(x, y) || lt(y, z) {
      StrLtNegTransitive(x.name, y.name, z.name);
    }
  }

  /** `series.data.some(point => point[1] !== null)`. */
  predicate Drawn(s: ChartSeries)
  {
    exists k :: 0 <= k < |s.data| && s.data[k].value.Some?
  }

  /** `processOverviewData`: the seen channels' lines, sorted, without the ones that never had a member. */
  function OverviewSeries(data: seq<Session>, names: map<string, string>, order: seq<string>): seq<ChartSeries>
  {
    Filter(Sort(Lines(SeenChannels(data, names), data, |data|), OverviewBefore(order)), Drawn)
  }

  method ProcessOverviewData(data: seq<Session>, names: map<string, string>) returns (r: seq<ChartSeries>)
    ensures r == OverviewSeries(data, names, CHANNEL_ORDER)
  {
    var seen := CollectChannels(data, names);
    var series := Lines(seen, data, 0);
    var i := 0;
    while i < |data|
      invariant 0 <= i <= |data|
      invariant series == Lines(seen, data, i)
    {
      series := EmitRecord(seen, data, i, series);
      i := i + 1;
    }
    var sortedSeries := Sort(series, OverviewBefore(CHANNEL_ORDER));
    r := Filter(sortedSeries, Drawn);
  }

  /** Step 2 for one record: every series gets that record's points. */
  method EmitRecord(seen: seq<ChannelInfo>, data: seq<Session>, i: nat, series: seq<ChartSeries>) returns (next: seq<ChartSeries>)
    requires i < |data| && series == Lines(seen, data, i)
    ensures next == Lines(seen, data, i + 1)
  {
    var timestamp := data[i].sessionStart;
    next := series;
    var j := 0;
    while j < |next|
      invariant 0 <= j <= |next| && |next| == |seen|
      invariant forall k :: 0 <= k < j ==> next[k] == Lines(seen, data, i + 1)[k]
      invariant forall k :: j <= k < |next| ==> next[k] == series[k]
    {
      var points := StepLine(next[j].data, timestamp, Occupancy(data[i], seen[j].id));
      next := next[j := next[j].(data := points)];
      j := j + 1;
    }
    assert next == Lines(seen, data, i + 1);
  }

  /** The body of `seriesMap.forEach` for one series. */
  method StepLine(pts: seq<Point>, timestamp: int, value: Option<int>) returns (data: seq<Point>)
    ensures data == Emit(pts, timestamp, value)
  {
    data := pts;
    var lastValue := if |data| > 0 then data[|data| - 1].value else None;
    if lastValue != value {
      if |data| > 0 && data[|data| - 1].time < timestamp {
        if lastValue.Some? {
          data := data + [Point(timestamp, lastValue)];
          if value.None? {
            data := data + [Point(timestamp, Some(0))];
          }
        } else if value.Some? {
          data := data + [Point(timestamp, Some(0))];
        }
      }
      data := data + [Point(timestamp, value)];
    }
  }

  /** One record never rewrites a line; it ends it on the record's value and stamps what it adds with the record's start. */
  lemma EmitShape(pts: seq<Point>, t: int, v: Option<int>)
    ensures Emit(pts, t, v)[..|pts|] == pts
    ensures LastValue(Emit(pts, t, v)) == v
    ensures Emit(pts, t, v) == [] <==> pts == [] && v.None?
    ensures forall k :: |pts| <= k < |Emit(pts, t, v)| ==> Emit(pts, t, v)[k].time == t
  {
  }

  /**
   * A channel's line is empty until the channel first has a member, then starts
   * with a non-null point, and always ends on the latest record's value.
   */
  lemma {:induction false} OverviewPointsShape(data: seq<Session>, id: string, n: nat)
    requires n <= |data|
    ensures LastValue(OverviewPoints(data, id, n)) == if n == 0 then None else Occupancy(data[n - 1], id)
    ensures OverviewPoints(data, id, n) != [] <==> exists i :: 0 <= i < n && Occupancy(data[i], id).Some?
    ensures OverviewPoints(data, id, n) != [] ==> OverviewPoints(data, id, n)[0].value.Some?
  {
    if n > 0 {
      var prev := OverviewPoints(data, id, n - 1);
      OverviewPointsShape(data, id, n - 1);
      EmitShape(prev, data[n - 1].sessionStart, Occupancy(data[n - 1], id));
      if prev != [] {
        assert OverviewPoints(data, id, n)[0] == OverviewPoints(data, id, n)[..|prev|][0];
      }
    }
  }

  /** The records come in order of start time, as the API returns them. */
  predicate StartsOrdered(data: seq<Session>)
  {
    forall i, j :: 0 <= i < j < |data| ==> data[i].sessionStart <= data[j].sessionStart
  }

  /** Over records ordered by start, a line's points go forward in time and none is later than the latest start. */
  lemma {:induction false} OverviewPointsTimes(data: seq<Session>, id: string, n: nat)
    requires n <= |data| && StartsOrdered(data)
    ensures forall k :: 0 <= k < |OverviewPoints(data, id, n)| ==> OverviewPoints(data, id, n)[k].time <= data[n - 1].sessionStart
    ensures forall k, m :: 0 <= k < m < |OverviewPoints(data, id, n)| ==>
              OverviewPoints(data, id, n)[k].time <= OverviewPoints(data, id, n)[m].time
  {
    if n > 0 {
      var prev := OverviewPoints(data, id, n - 1);
      var t := data[n - 1].sessionStart;
      var next := OverviewPoints(data, id, n);
      OverviewPointsTimes(data, id, n - 1);
      EmitShape(prev, t, Occupancy(data[n - 1], id));
      if n > 1 {
        assert data[n - 2].sessionStart <= t;
      } else {
        assert prev == [];
      }
      forall k | 0 <= k < |next| ensures next[k].time <= t {
        if k < |prev| {
          assert next[k] == next[..|prev|][k];
        }
      }
      forall k, m | 0 <= k < m < |next| ensures next[k].time <= next[m].time {
        if m < |prev| {
          assert next[k] == next[..|prev|][k] && next[m] == next[..|prev|][m];
        } else if k < |prev| {
          assert next[k] == next[..|prev|][k];
        }
      }
    }
  }

  lemma {:induction false} MemberCountSeen(cs: seq<Channel>, id: string)
    ensures MemberCount(cs, id) > 0 ==> id in ChannelIds(cs)
  {
    if cs != [] {
      var init := cs[..|cs| - 1];
      MemberCountSeen(init, id);
      ChannelIdsConcat(init, [cs[|cs| - 1]]);
      assert init + [cs[|cs| - 1]] == cs;
    }
  }

  lemma {:induction false} RecordChannelsSeen(data: seq<Session>, i: nat, id: string)
    requires i < |data|
    requires id in ChannelIds(data[i].channels)
    ensures id in ChannelIds(AllChannels(data))
  {
    ChannelIdsConcat(data[0].channels, AllChannels(data[1..]));
    if i > 0 {
      assert data[1..][i - 1] == data[i];
      RecordChannelsSeen(data[1..], i - 1, id);
    }
  }

  /** A line is drawn exactly when its channel had a member in some record. */
  lemma LineDrawn(data: seq<Session>, id: string, name: string)
    ensures Drawn(ChartSeries(Some(id), name, OverviewPoints(data, id, |data|)))
            <==> exists i :: 0 <= i < |data| && Occupancy(data[i], id).Some?
  {
    OverviewPointsShape(data, id, |data|);
  }

  lemma SortedLinesSame(data: seq<Session>, names: map<string, string>, order: seq<string>)
    ensures forall s :: s in Sort(Lines(SeenChannels(data, names), data, |data|), OverviewBefore(order))
                        <==> s in Lines(SeenChannels(data, names), data, |data|)
  {
    var lines := Lines(SeenChannels(data, names), data, |data|);
    var sorted := Sort(lines, OverviewBefore(order));
    forall s ensures s in sorted <==> s in lines {
      assert s in sorted <==> s in multiset(sorted);
      assert s in lines <==> s in multiset(lines);
    }
  }

  /** The overview holds exactly the drawn lines of the seen channels. */
  lemma OverviewMembers(data: seq<Session>, names: map<string, string>, order: seq<string>)
    ensures forall s :: s in OverviewSeries(data, names, order)
                        <==> s in Lines(SeenChannels(data, names), data, |data|) && Drawn(s)
  {
    SortedLinesSame(data, names, order);
  }

  /** Every series of the overview is a seen channel under its first name, with the line built from all records. */
  lemma OverviewFromSeen(data: seq<Session>, names: map<string, string>, order: seq<string>, s: ChartSeries)
    requires s in OverviewSeries(data, names, order)
    ensures exists k :: 0 <= k < |SeenChannels(data, names)|
                     && s == ChartSeries(Some(SeenChannels(data, names)[k].id), SeenChannels(data, names)[k].name,
                                         OverviewPoints(data, SeenChannels(data, names)[k].id, |data|))
  {
    var lines := Lines(SeenChannels(data, names), data, |data|);
    OverviewMembers(data, names, order);
    var k :| 0 <= k < |lines| && lines[k] == s;
  }

  /** The overview shows a channel exactly when it had a member in some record. */
  lemma OverviewChannels(data: seq<Session>, names: map<string, string>, order: seq<string>, id: string)
    ensures (exists k :: 0 <= k < |OverviewSeries(data, names, order)| && OverviewSeries(data, names, order)[k].id == Some(id))
            <==> exists i :: 0 <= i < |data| && Occupancy(data[i], id).Some?
  {
    if exists k :: 0 <= k < |OverviewSeries(data, names, order)| && OverviewSeries(data, names, order)[k].id == Some(id) {
      OverviewShown(data, names, order, id);
    }
    if exists i :: 0 <= i < |data| && Occupancy(data[i], id).Some? {
      var i :| 0 <= i < |data| && Occupancy(data[i], id).Some?;
      OverviewOccupied(data, names, order, id, i);
    }
  }

  lemma OverviewShown(data: seq<Session>, names: map<string, string>, order: seq<string>, id: string)
    requires exists k :: 0 <= k < |OverviewSeries(data, names, order)| && OverviewSeries(data, names, order)[k].id == Some(id)
    ensures exists i :: 0 <= i < |data| && Occupancy(data[i], id).Some?
  {
    var r := OverviewSeries(data, names, order);
    var seen := SeenChannels(data, names);
    var k :| 0 <= k < |r| && r[k].id == Some(id);
    OverviewFromSeen(data, names, order, r[k]);
    OverviewMembers(data, names, order);
    var m :| 0 <= m < |seen| && r[k] == ChartSeries(Some(seen[m].id), seen[m].name, OverviewPoints(data, seen[m].id, |data|));
    LineDrawn(data, id, seen[m].name);
  }

  lemma OverviewOccupied(data: seq<Session>, names: map<string, string>, order: seq<string>, id: string, i: nat)
    requires i < |data| && Occupancy(data[i], id).Some?
    ensures exists k :: 0 <= k < |OverviewSeries(data, names, order)| && OverviewSeries(data, names, order)[k].id == Some(id)
  {
    var seen := SeenChannels(data, names);
    var lines := Lines(seen, data, |data|);
    var r := OverviewSeries(data, names, order);
    MemberCountSeen(data[i].channels, id);
    RecordChannelsSeen(data, i, id);
    SeenChannelsDistinct(data, names);
    var m :| 0 <= m < |seen| && InfoIds(seen)[m] == id;
    LineDrawn(data, id, seen[m].name);
    OverviewMembers(data, names, order);
    assert lines[m] in r;
    var k :| 0 <= k < |r| && r[k] == lines[m];
  }

  /**
   * The overview lists the ordered channels first, by their place in the order,
   * then the other channels by name.
   */
  lemma OverviewOrdered(data: seq<Session>, names: map<string, string>, order: seq<string>)
    ensures forall i, j :: 0 <= i < j < |OverviewSeries(data, names, order)| && OrderIndex(order, OverviewSeries(data, names, order)[j]) != -1 ==>
              0 <= OrderIndex(order, OverviewSeries(data, names, order)[i]) <= OrderIndex(order, OverviewSeries(data, names, order)[j])
    ensures forall i, j :: 0 <= i < j < |OverviewSeries(data, names, order)| && OrderIndex(order, OverviewSeries(data, names, order)[i]) == -1 ==>
              OrderIndex(order, OverviewSeries(data, names, order)[j]) == -1
              && !StrLt(OverviewSeries(data, names, order)[j].name, OverviewSeries(data, names, order)[i].name)
  {
    var lt := OverviewBefore(order);
    var lines := Lines(SeenChannels(data, names), data, |data|);
    OverviewBeforeIsStrictWeakOrder(order);
    SortSorted(lines, lt);
    FilterSorted(Sort(lines, lt), Drawn, lt);
    var r := OverviewSeries(data, names, order);
    assert forall i, j :: 0 <= i < j < |r| ==> !Before(order, r[j], r[i]);
  }
}
