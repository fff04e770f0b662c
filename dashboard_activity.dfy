/**
 * The dashboard's per-user timeline (public/script.js, `processUserActivity`): each
 * selected user's presence merged into sessions, drawn as bars per channel.
 */
module DashboardActivity {
  import opened Wrappers
  import opened Ordering
  import opened GuildVoice
  import opened JsCollections
  import opened DashboardChannels

  // ---------------------------------------------------------------------------
  // processUserActivity: the per-user timeline
  // ---------------------------------------------------------------------------

  /** A merged session: one channel, from a record's start to the end of the last record it was extended through. */
  datatype Span = Span(channelId: string, startTime: int, endTime: int)

  /** A selected user's state while the records are walked: the open session and the closed ones. */
  datatype Tracking = Tracking(current: Option<Span>, merged: seq<Span>)

  const NOT_TRACKED := Tracking(None, [])

  /** `userChannelMap.get(userId)`: a later channel listing the user overwrites an earlier one. */
  function Placement(cs: seq<Channel>, u: string): Option<string>
  {
    if cs == [] then None
    else if u in MemberIds(cs[|cs| - 1].members) then Some(cs[|cs| - 1].channelId)
    else Placement(cs[..|cs| - 1], u)
  }

  /** `if (channelIdForUser)`: an absent or empty channel id means "in no channel". */
  function Present(place: Option<string>): Option<string>
  {
    if place.Some? && place.value != "" then place else None
  }

  /** Where a record puts the user, if anywhere. */
  function Placed(rec: Session, u: string): Option<string>
  {
    Present(Placement(rec.channels, u))
  }

  /** An open record lasts until now. */
  function RecordEnd(rec: Session, now: int): int
  {
    if rec.sessionEnd.Some? then rec.sessionEnd.value else now
  }

  /**
   * One record for one user: in the same channel as the open session, and
   * starting exactly where it ends, the session is extended; in another channel
   * or after a gap, the open session is closed and a new one opened; in no
   * channel, the open session is closed.
   */
  function Track(st: Tracking, place: Option<string>, start: int, end: int): Tracking
  {
    match place
    case Some(c) =>
      if st.current.Some? && st.current.value.channelId == c && st.current.value.endTime == start
      then Tracking(Some(st.current.value.(endTime := end)), st.merged)
      else Tracking(Some(Span(c, start, end)), st.merged + if st.current.Some? then [st.current.value] else [])
    case None =>
      if st.current.Some? then Tracking(None, st.merged + [st.current.value]) else st
  }

  /** A user's state after the first n records. */
  function Tracked(data: seq<Session>, u: string, now: int, n: nat): Tracking
    requires n <= |data|
  {
    if n == 0 then NOT_TRACKED
    else Track(Tracked(data, u, now, n - 1), Placed(data[n - 1], u), data[n - 1].sessionStart, RecordEnd(data[n - 1], now))
  }

  /** The closing `forEach`: a session still open is added at the end. */
  function Flush(st: Tracking): seq<Span>
  {
    st.merged + if st.current.Some? then [st.current.value] else []
  }

  /** A user's merged sessions over all records. */
  function SessionsOf(data: seq<Session>, u: string, now: int): seq<Span>
  {
    Flush(Tracked(data, u, now, |data|))
  }

  /** Record i carries on the session of record i - 1: same channel, and it starts where that one ended. */
  predicate Continues(data: seq<Session>, u: string, now: int, i: nat)
    requires i < |data|
  {
    && i > 0
    && Placed(data[i], u).Some?
    && Placed(data[i - 1], u) == Placed(data[i], u)
    && RecordEnd(data[i - 1], now) == data[i].sessionStart
  }

  /** Record i opens a new session for the user. */
  predicate Opens(data: seq<Session>, u: string, now: int, i: nat)
    requires i < |data|
  {
    Placed(data[i], u).Some? && !Continues(data, u, now, i)
  }

  /** How many of the first n records open a session. */
  function Openings(data: seq<Session>, u: string, now: int, n: nat): nat
    requires n <= |data|
  {
    if n == 0 then 0 else Openings(data, u, now, n - 1) + if Opens(data, u, now, n - 1) then 1 else 0
  }

  /** The time the user spent in the first n records: each record's length where the user was in a channel. */
  function PresentTime(data: seq<Session>, u: string, now: int, n: nat): int
    requires n <= |data|
  {
    if n == 0 then 0
    else PresentTime(data, u, now, n - 1)
         + if Placed(data[n - 1], u).Some? then RecordEnd(data[n - 1], now) - data[n - 1].sessionStart else 0
  }

  /** The total length of a list of sessions. */
  function SpanTime(spans: seq<Span>): int
  {
    if spans == [] then 0 else SpanTime(spans[..|spans| - 1]) + (spans[|spans| - 1].endTime - spans[|spans| - 1].startTime)
  }

  lemma SpanTimeSnoc(spans: seq<Span>, x: Span)
    ensures SpanTime(spans + [x]) == SpanTime(spans) + (x.endTime - x.startTime)
  {
    assert (spans + [x])[..|spans|] == spans;
  }

  /** The open session is the one of the previous record, if the user was in a channel there. */
  lemma {:induction false} TrackedCurrent(data: seq<Session>, u: string, now: int, n: nat)
    requires n <= |data|
    ensures Tracked(data, u, now, n).current.Some? <==> n > 0 && Placed(data[n - 1], u).Some?
    ensures Tracked(data, u, now, n).current.Some? ==>
              && Tracked(data, u, now, n).current.value.channelId == Placed(data[n - 1], u).value
              && Tracked(data, u, now, n).current.value.endTime == RecordEnd(data[n - 1], now)
  {
    if n > 0 {
      TrackedCurrent(data, u, now, n - 1);
    }
  }

  /** A user has exactly one merged session per record that opens one: the merging rule, both ways. */
  lemma {:induction false} SessionCount(data: seq<Session>, u: string, now: int, n: nat)
    requires n <= |data|
    ensures |Flush(Tracked(data, u, now, n))| == Openings(data, u, now, n)
  {
    if n > 0 {
      SessionCount(data, u, now, n - 1);
      TrackedCurrent(data, u, now, n - 1);
    }
  }

  /** One step of the merging rule adds the record's length to the sessions exactly when the user is in a channel. */
  lemma TrackTime(st: Tracking, place: Option<string>, start: int, end: int)
    ensures SpanTime(Flush(Track(st, place, start, end))) == SpanTime(Flush(st)) + if place.Some? then end - start else 0
  {
    if st.current.Some? {
      SpanTimeSnoc(st.merged, st.current.value);
    }
    if place.Some? {
      if st.current.Some? && st.current.value.channelId == place.value && st.current.value.endTime == start {
        SpanTimeSnoc(st.merged, st.current.value.(endTime := end));
      } else {
        var closed := st.merged + if st.current.Some? then [st.current.value] else [];
        SpanTimeSnoc(closed, Span(place.value, start, end));
      }
    } else if st.current.Some? {
      var t := Track(st, place, start, end);
      assert t == Tracking(None, st.merged + [st.current.value]);
      assert Flush(t) == st.merged + [st.current.value];
      assert Flush(st) == st.merged + [st.current.value];
    }
  }

  /** Merging loses no time: the sessions add up to the time spent in channels, an open record counting until now. */
  lemma {:induction false} SessionTime(data: seq<Session>, u: string, now: int, n: nat)
    requires n <= |data|
    ensures SpanTime(Flush(Tracked(data, u, now, n))) == PresentTime(data, u, now, n)
  {
    if n > 0 {
      SessionTime(data, u, now, n - 1);
      TrackTime(Tracked(data, u, now, n - 1), Placed(data[n - 1], u), data[n - 1].sessionStart, RecordEnd(data[n - 1], now));
    }
  }

  /** The merged sessions of the whole walk. */
  lemma SessionsOfSpec(data: seq<Session>, u: string, now: int)
    ensures |SessionsOf(data, u, now)| == Openings(data, u, now, |data|)
    ensures SpanTime(SessionsOf(data, u, now)) == PresentTime(data, u, now, |data|)
  {
    SessionCount(data, u, now, |data|);
    SessionTime(data, u, now, |data|);
  }

  /** A bar of the timeline: the user's label, the session's bounds, and the user it belongs to. */
  datatype Bar = Bar(userLabel: string, startTime: int, endTime: int, userId: string)

  /** One channel's row of bars, under the channel's display name. */
  datatype ActivitySeries = ActivitySeries(id: string, name: string, bars: seq<Bar>)

  /** `userId.slice(-4)`: the last four characters, or the whole id when it is shorter. */
  function LastFour(u: string): (r: string)
    ensures |r| == if |u| < 4 then |u| else 4
    ensures u == u[..|u| - |r|] + r
  {
    if |u| < 4 then u else u[|u| - 4..]
  }

  /** `selectedUsersMap.get(userId) || `Utilisateur ${userId.slice(-4)}``. */
  function UserLabel(names: map<string, string>, u: string): string
  {
    OrElse(Lookup(names, u), "Utilisateur " + LastFour(u))
  }

  /** The keys of `seriesDataMap`, in insertion order. */
  function SeriesIds(series: seq<ActivitySeries>): (r: seq<string>)
    ensures |r| == |series|
    ensures forall k :: 0 <= k < |series| ==> r[k] == series[k].id
  {
    if series == [] then [] else [series[0].id] + SeriesIds(series[1..])
  }

  /** Where `seriesDataMap.get(id)` lives, if the key is present. */
  function SeriesIndex(series: seq<ActivitySeries>, id: string): (r: Option<nat>)
    ensures r.Some? ==> r.value < |series| && series[r.value].id == id
    ensures r.None? <==> id !in SeriesIds(series)
  {
    if series == [] then None
    else if series[0].id == id then Some(0)
    else match SeriesIndex(series[1..], id)
      case Some(k) => Some(k + 1)
      case None => None
  }

  /** `seriesDataMap.get(channelInfo.id).data.push(bar)`, creating the row under the channel's name first if needed. */
  function AddBar(series: seq<ActivitySeries>, ci: ChannelInfo, b: Bar): seq<ActivitySeries>
  {
    match SeriesIndex(series, ci.id)
    case Some(k) => series[k := series[k].(bars := series[k].bars + [b])]
    case None => series + [ActivitySeries(ci.id, ci.name, [b])]
  }

  /** One session: a bar in its channel's row, unless the channel is missing from the channel list. */
  function AddSession(series: seq<ActivitySeries>, channels: seq<ChannelInfo>, userLabel: string, u: string, sp: Span): seq<ActivitySeries>
  {
    match FindInfo(channels, sp.channelId)
    case Some(ci) => AddBar(series, ci, Bar(userLabel, sp.startTime, sp.endTime, u))
    case None => series
  }

  /** One user's sessions, in order. */
  function AddSessions(series: seq<ActivitySeries>, channels: seq<ChannelInfo>, userLabel: string, u: string, spans: seq<Span>): seq<ActivitySeries>
    decreases spans
  {
    if spans == [] then series
    else AddSessions(AddSession(series, channels, userLabel, u, spans[0]), channels, userLabel, u, spans[1..])
  }

  /** The users, in order, each with the sessions merged over all records. */
  function AddUsers(series: seq<ActivitySeries>, channels: seq<ChannelInfo>, names: map<string, string>,
                    data: seq<Session>, now: int, users: seq<string>): seq<ActivitySeries>
    decreases users
  {
    if users == [] then series
    else AddUsers(AddSessions(series, channels, UserLabel(names, users[0]), users[0], SessionsOf(data, users[0], now)),
                  channels, names, data, now, users[1..])
  }

  /** The rows `processUserActivity` returns; a user listed twice is tracked once, at its first position. */
  function UserActivity(data: seq<Session>, channels: seq<ChannelInfo>, userIds: seq<string>,
                        names: map<string, string>, now: int): seq<ActivitySeries>
  {
    AddUsers([], channels, names, data, now, JsCollections.Dedup(userIds))
  }

  /** Every row is a channel of the list, under the name the list gives it, and has at least one bar. */
  predicate Listed(channels: seq<ChannelInfo>, series: seq<ActivitySeries>)
  {
    forall k :: 0 <= k < |series| ==>
      && FindInfo(channels, series[k].id) == Some(ChannelInfo(series[k].id, series[k].name))
      && series[k].bars != []
  }

  /** Rows are keyed once per channel of the list. */
  predicate Rows(channels: seq<ChannelInfo>, series: seq<ActivitySeries>)
  {
    Distinct(SeriesIds(series)) && Listed(channels, series)
  }

  /** Every bar is a merged session of a selected user, in the bar's own channel, under that user's label. */
  predicate BarsFrom(series: seq<ActivitySeries>, data: seq<Session>, names: map<string, string>, now: int, selected: seq<string>)
  {
    forall k, j :: 0 <= k < |series| && 0 <= j < |series[k].bars| ==>
      && series[k].bars[j].userId in selected
      && series[k].bars[j].userLabel == UserLabel(names, series[k].bars[j].userId)
      && Span(series[k].id, series[k].bars[j].startTime, series[k].bars[j].endTime) in SessionsOf(data, series[k].bars[j].userId, now)
  }

  /** The number of bars over all rows. */
  function TotalBars(series: seq<ActivitySeries>): nat
  {
    if series == [] then 0 else TotalBars(series[..|series| - 1]) + |series[|series| - 1].bars|
  }

  /** The sessions whose channel is in the channel list. */
  function KnownCount(channels: seq<ChannelInfo>, spans: seq<Span>): nat
  {
    if spans == [] then 0 else (if FindInfo(channels, spans[0].channelId).Some? then 1 else 0) + KnownCount(channels, spans[1..])
  }

  /** The sessions in known channels, over the users. */
  function UsersBars(channels: seq<ChannelInfo>, data: seq<Session>, now: int, users: seq<string>): nat
  {
    if users == [] then 0 else KnownCount(channels, SessionsOf(data, users[0], now)) + UsersBars(channels, data, now, users[1..])
  }

  lemma {:induction false} TotalBarsUpdate(series: seq<ActivitySeries>, k: nat, x: ActivitySeries)
    requires k < |series|
    ensures TotalBars(series[k := x]) == TotalBars(series) - |series[k].bars| + |x.bars|
  {
    var n := |series|;
    var t := series[k := x];
    if k < n - 1 {
      assert t[..n - 1] == series[..n - 1][k := x];
      TotalBarsUpdate(series[..n - 1], k, x);
    } else {
      assert t[..n - 1] == series[..n - 1];
    }
  }

  /** Adding a bar keeps every key, and adds the channel's key when it is new. */
  lemma AddBarIds(series: seq<ActivitySeries>, ci: ChannelInfo, b: Bar)
    ensures SeriesIds(AddBar(series, ci, b)) == if ci.id in SeriesIds(series) then SeriesIds(series) else SeriesIds(series) + [ci.id]
  {
    var r := AddBar(series, ci, b);
    match SeriesIndex(series, ci.id)
    case Some(k) =>
      assert forall i :: 0 <= i < |r| ==> r[i].id == series[i].id;
      assert SeriesIds(r) == SeriesIds(series);
    case None =>
      assert SeriesIds(r) == SeriesIds(series) + [ci.id];
  }

  /** Adding a bar adds exactly one bar. */
  lemma AddBarTotal(series: seq<ActivitySeries>, ci: ChannelInfo, b: Bar)
    ensures TotalBars(AddBar(series, ci, b)) == TotalBars(series) + 1
  {
    match SeriesIndex(series, ci.id)
    case Some(k) =>
      TotalBarsUpdate(series, k, series[k].(bars := series[k].bars + [b]));
    case None =>
      assert AddBar(series, ci, b)[..|series|] == series;
  }

  /** Adding a bar never keys a channel twice. */
  lemma AddBarDistinct(series: seq<ActivitySeries>, ci: ChannelInfo, b: Bar)
    requires Distinct(SeriesIds(series))
    ensures Distinct(SeriesIds(AddBar(series, ci, b)))
  {
    AddBarIds(series, ci, b);
    if ci.id !in SeriesIds(series) {
      DistinctParts(SeriesIds(series), [ci.id]);
    }
  }

  /** Adding a bar for a listed channel keeps every row listed. */
  lemma AddBarListed(channels: seq<ChannelInfo>, series: seq<ActivitySeries>, ci: ChannelInfo, b: Bar)
    requires Listed(channels, series)
    requires FindInfo(channels, ci.id) == Some(ci)
    ensures Listed(channels, AddBar(series, ci, b))
  {
    var r := AddBar(series, ci, b);
    match SeriesIndex(series, ci.id)
    case Some(k) =>
      forall i | 0 <= i < |r|
        ensures FindInfo(channels, r[i].id) == Some(ChannelInfo(r[i].id, r[i].name)) && r[i].bars != []
      {
        if i != k {
          assert r[i] == series[i];
        }
      }
    case None =>
      forall i | 0 <= i < |r|
        ensures FindInfo(channels, r[i].id) == Some(ChannelInfo(r[i].id, r[i].name)) && r[i].bars != []
      {
        if i < |series| {
          assert r[i] == series[i];
        }
      }
  }

  /** Adding a bar for a listed channel keeps the rows well-formed. */
  lemma AddBarRows(channels: seq<ChannelInfo>, series: seq<ActivitySeries>, ci: ChannelInfo, b: Bar)
    requires Rows(channels, series)
    requires FindInfo(channels, ci.id) == Some(ci)
    ensures Rows(channels, AddBar(series, ci, b))
  {
    AddBarDistinct(series, ci, b);
    AddBarListed(channels, series, ci, b);
  }

  /** Adding a bar that is one of a selected user's sessions keeps every bar accounted for. */
  lemma AddBarFrom(series: seq<ActivitySeries>, data: seq<Session>, names: map<string, string>, now: int,
                   selected: seq<string>, ci: ChannelInfo, b: Bar)
    requires BarsFrom(series, data, names, now, selected)
    requires b.userId in selected && b.userLabel == UserLabel(names, b.userId)
    requires Span(ci.id, b.startTime, b.endTime) in SessionsOf(data, b.userId, now)
    ensures BarsFrom(AddBar(series, ci, b), data, names, now, selected)
  {
    var r := AddBar(series, ci, b);
    match SeriesIndex(series, ci.id)
    case Some(k) =>
      forall k', j | 0 <= k' < |r| && 0 <= j < |r[k'].bars|
        ensures r[k'].bars[j].userId in selected
        ensures r[k'].bars[j].userLabel == UserLabel(names, r[k'].bars[j].userId)
        ensures Span(r[k'].id, r[k'].bars[j].startTime, r[k'].bars[j].endTime) in SessionsOf(data, r[k'].bars[j].userId, now)
      {
        if k' == k && j == |series[k].bars| {
          assert r[k'].bars[j] == b;
        } else {
          assert r[k'].bars[j] == series[k'].bars[j];
        }
      }
    case None =>
      forall k', j | 0 <= k' < |r| && 0 <= j < |r[k'].bars|
        ensures r[k'].bars[j].userId in selected
        ensures r[k'].bars[j].userLabel == UserLabel(names, r[k'].bars[j].userId)
        ensures Span(r[k'].id, r[k'].bars[j].startTime, r[k'].bars[j].endTime) in SessionsOf(data, r[k'].bars[j].userId, now)
      {
        if k' < |series| {
          assert r[k'] == series[k'];
        }
      }
  }

  lemma {:induction false} AddSessionsRows(channels: seq<ChannelInfo>, series: seq<ActivitySeries>, userLabel: string, u: string, spans: seq<Span>)
    requires Rows(channels, series)
    ensures Rows(channels, AddSessions(series, channels, userLabel, u, spans))
    decreases spans
  {
    if spans != [] {
      var sp := spans[0];
      if FindInfo(channels, sp.channelId).Some? {
        AddBarRows(channels, series, FindInfo(channels, sp.channelId).value, Bar(userLabel, sp.startTime, sp.endTime, u));
      }
      AddSessionsRows(channels, AddSession(series, channels, userLabel, u, sp), userLabel, u, spans[1..]);
    }
  }

  lemma {:induction false} AddSessionsTotal(channels: seq<ChannelInfo>, series: seq<ActivitySeries>, userLabel: string, u: string, spans: seq<Span>)
    ensures TotalBars(AddSessions(series, channels, userLabel, u, spans)) == TotalBars(series) + KnownCount(channels, spans)
    decreases spans
  {
    if spans != [] {
      var sp := spans[0];
      if FindInfo(channels, sp.channelId).Some? {
        AddBarTotal(series, FindInfo(channels, sp.channelId).value, Bar(userLabel, sp.startTime, sp.endTime, u));
      }
      AddSessionsTotal(channels, AddSession(series, channels, userLabel, u, sp), userLabel, u, spans[1..]);
    }
  }

  lemma {:induction false} AddSessionsKeys(channels: seq<ChannelInfo>, series: seq<ActivitySeries>, userLabel: string, u: string, spans: seq<Span>)
    ensures forall x :: x in SeriesIds(series) ==> x in SeriesIds(AddSessions(series, channels, userLabel, u, spans))
    ensures forall x :: x in spans && FindInfo(channels, x.channelId).Some? ==>
              x.channelId in SeriesIds(AddSessions(series, channels, userLabel, u, spans))
    decreases spans
  {
    if spans != [] {
      var sp := spans[0];
      var next := AddSession(series, channels, userLabel, u, sp);
      if FindInfo(channels, sp.channelId).Some? {
        AddBarIds(series, FindInfo(channels, sp.channelId).value, Bar(userLabel, sp.startTime, sp.endTime, u));
      }
      AddSessionsKeys(channels, next, userLabel, u, spans[1..]);
      assert forall x :: x in spans ==> x == sp || x in spans[1..];
    }
  }

  lemma {:induction false} AddSessionsFrom(channels: seq<ChannelInfo>, series: seq<ActivitySeries>, data: seq<Session>,
                                           names: map<string, string>, now: int, selected: seq<string>, u: string, spans: seq<Span>)
    requires BarsFrom(series, data, names, now, selected)
    requires u in selected
    requires forall x :: x in spans ==> x in SessionsOf(data, u, now)
    ensures BarsFrom(AddSessions(series, channels, UserLabel(names, u), u, spans), data, names, now, selected)
    decreases spans
  {
    if spans != [] {
      var sp := spans[0];
      if FindInfo(channels, sp.channelId).Some? {
        var ci := FindInfo(channels, sp.channelId).value;
        AddBarFrom(series, data, names, now, selected, ci, Bar(UserLabel(names, u), sp.startTime, sp.endTime, u));
      }
      assert forall x :: x in spans[1..] ==> x in spans;
      AddSessionsFrom(channels, AddSession(series, channels, UserLabel(names, u), u, sp), data, names, now, selected, u, spans[1..]);
    }
  }

  /** The next step of the fold over the users. */
  function NextUser(series: seq<ActivitySeries>, channels: seq<ChannelInfo>, names: map<string, string>,
                    data: seq<Session>, now: int, u: string): seq<ActivitySeries>
  {
    AddSessions(series, channels, UserLabel(names, u), u, SessionsOf(data, u, now))
  }

  lemma {:induction false} AddUsersRows(channels: seq<ChannelInfo>, series: seq<ActivitySeries>, names: map<string, string>,
                                        data: seq<Session>, now: int, users: seq<string>)
    requires Rows(channels, series)
    ensures Rows(channels, AddUsers(series, channels, names, data, now, users))
    decreases users
  {
    if users != [] {
      AddSessionsRows(channels, series, UserLabel(names, users[0]), users[0], SessionsOf(data, users[0], now));
      AddUsersRows(channels, NextUser(series, channels, names, data, now, users[0]), names, data, now, users[1..]);
    }
  }

  lemma {:induction false} AddUsersTotal(channels: seq<ChannelInfo>, series: seq<ActivitySeries>, names: map<string, string>,
                                         data: seq<Session>, now: int, users: seq<string>)
    ensures TotalBars(AddUsers(series, channels, names, data, now, users)) == TotalBars(series) + UsersBars(channels, data, now, users)
    decreases users
  {
    if users != [] {
      AddSessionsTotal(channels, series, UserLabel(names, users[0]), users[0], SessionsOf(data, users[0], now));
      AddUsersTotal(channels, NextUser(series, channels, names, data, now, users[0]), names, data, now, users[1..]);
    }
  }

  lemma {:induction false} AddUsersKeys(channels: seq<ChannelInfo>, series: seq<ActivitySeries>, names: map<string, string>,
                                        data: seq<Session>, now: int, users: seq<string>)
    ensures forall u, x :: u in users && x in SessionsOf(data, u, now) && FindInfo(channels, x.channelId).Some? ==>
              x.channelId in SeriesIds(AddUsers(series, channels, names, data, now, users))
    ensures forall x :: x in SeriesIds(series) ==> x in SeriesIds(AddUsers(series, channels, names, data, now, users))
    decreases users
  {
    if users != [] {
      var u := users[0];
      AddSessionsKeys(channels, series, UserLabel(names, u), u, SessionsOf(data, u, now));
      AddUsersKeys(channels, NextUser(series, channels, names, data, now, u), names, data, now, users[1..]);
      assert forall v :: v in users ==> v == u || v in users[1..];
    }
  }

  lemma {:induction false} AddUsersFrom(channels: seq<ChannelInfo>, series: seq<ActivitySeries>, data: seq<Session>,
                                        names: map<string, string>, now: int, selected: seq<string>, users: seq<string>)
    requires BarsFrom(series, data, names, now, selected)
    requires forall u :: u in users ==> u in selected
    ensures BarsFrom(AddUsers(series, channels, names, data, now, users), data, names, now, selected)
    decreases users
  {
    if users != [] {
      var u := users[0];
      AddSessionsFrom(channels, series, data, names, now, selected, u, SessionsOf(data, u, now));
      assert forall v :: v in users[1..] ==> v in users;
      AddUsersFrom(channels, NextUser(series, channels, names, data, now, u), data, names, now, selected, users[1..]);
    }
  }

  /**
   * The timeline: one row per channel of the list that a selected user was in,
   * under that channel's name; every bar is a merged session of a selected user
   * under that user's label; and there are exactly as many bars as the selected
   * users have merged sessions in listed channels.
   */
  lemma UserActivitySpec(data: seq<Session>, channels: seq<ChannelInfo>, userIds: seq<string>, names: map<string, string>, now: int)
    ensures Rows(channels, UserActivity(data, channels, userIds, names, now))
    ensures BarsFrom(UserActivity(data, channels, userIds, names, now), data, names, now, userIds)
    ensures TotalBars(UserActivity(data, channels, userIds, names, now)) == UsersBars(channels, data, now, JsCollections.Dedup(userIds))
    ensures forall u, x :: u in userIds && x in SessionsOf(data, u, now) && FindInfo(channels, x.channelId).Some? ==>
              x.channelId in SeriesIds(UserActivity(data, channels, userIds, names, now))
  {
    var users := JsCollections.Dedup(userIds);
    assert SeriesIds([]) == [];
    AddUsersRows(channels, [], names, data, now, users);
    AddUsersFrom(channels, [], data, names, now, userIds, users);
    AddUsersTotal(channels, [], names, data, now, users);
    AddUsersKeys(channels, [], names, data, now, users);
  }

  lemma MemberIdsPrefix(ms: seq<Member>, k: nat)
    requires k < |ms|
    ensures forall u :: u in MemberIds(ms[..k + 1]) <==> u in MemberIds(ms[..k]) || u == ms[k].userId
  {
    assert MemberIds(ms[..k + 1]) == MemberIds(ms[..k]) + [ms[k].userId];
  }

  lemma PlacementSnoc(cs: seq<Channel>, c: nat, u: string)
    requires c < |cs|
    ensures Placement(cs[..c + 1], u) == if u in MemberIds(cs[c].members) then Some(cs[c].channelId) else Placement(cs[..c], u)
  {
    assert cs[..c + 1][..c] == cs[..c];
  }

  /** One channel's members: each selected member is set to this channel. */
  method PlaceMembers(m0: map<string, string>, channel: Channel, selected: set<string>) returns (m: map<string, string>)
    ensures forall u :: u in selected ==> Lookup(m, u) == if u in MemberIds(channel.members) then Some(channel.channelId) else Lookup(m0, u)
  {
    m := m0;
    var ms := channel.members;
    var k := 0;
    while k < |ms|
      invariant 0 <= k <= |ms|
      invariant forall u :: u in selected ==> Lookup(m, u) == if u in MemberIds(ms[..k]) then Some(channel.channelId) else Lookup(m0, u)
    {
      MemberIdsPrefix(ms, k);
      if ms[k].userId in selected {
        m := m[ms[k].userId := channel.channelId];
      }
      k := k + 1;
    }
    assert ms[..k] == ms;
  }

  /** `userChannelMap` for one record: for each selected user, the last channel listing it. */
  method PlaceUsers(cs: seq<Channel>, selected: set<string>) returns (userChannelMap: map<string, string>)
    ensures forall u :: u in selected ==> Lookup(userChannelMap, u) == Placement(cs, u)
  {
    userChannelMap := map[];
    var c := 0;
    while c < |cs|
      invariant 0 <= c <= |cs|
      invariant forall u :: u in selected ==> Lookup(userChannelMap, u) == Placement(cs[..c], u)
    {
      var next := PlaceMembers(userChannelMap, cs[c], selected);
      forall u | u in selected
        ensures Lookup(next, u) == Placement(cs[..c + 1], u)
      {
        PlacementSnoc(cs, c, u);
      }
      userChannelMap := next;
      c := c + 1;
    }
    assert cs[..c] == cs;
  }

  /** One selected user's update for one record, as the source writes it. */
  method StepUser(state: Tracking, channelIdForUser: Option<string>, startTime: int, endTime: int) returns (next: Tracking)
    ensures next == Track(state, Present(channelIdForUser), startTime, endTime)
  {
    if channelIdForUser.Some? && channelIdForUser.value != "" {
      if state.current.Some? && state.current.value.channelId == channelIdForUser.value && state.current.value.endTime == startTime {
        next := Tracking(Some(state.current.value.(endTime := endTime)), state.merged);
      } else {
        var merged := state.merged;
        if state.current.Some? {
          merged := merged + [state.current.value];
        }
        next := Tracking(Some(Span(channelIdForUser.value, startTime, endTime)), merged);
      }
    } else {
      next := state;
      if state.current.Some? {
        next := Tracking(None, state.merged + [state.current.value]);
      }
    }
  }

  /** Takes one record into account for every selected user. */
  method StepUsers(states: seq<Tracking>, users: seq<string>, userChannelMap: map<string, string>, startTime: int, endTime: int)
    returns (next: seq<Tracking>)
    requires |states| == |users|
    ensures |next| == |users|
    ensures forall k :: 0 <= k < |users| ==> next[k] == Track(states[k], Present(Lookup(userChannelMap, users[k])), startTime, endTime)
  {
    next := states;
    var k := 0;
    while k < |users|
      invariant 0 <= k <= |users| && |next| == |users|
      invariant forall i :: 0 <= i < k ==> next[i] == Track(states[i], Present(Lookup(userChannelMap, users[i])), startTime, endTime)
      invariant forall i :: k <= i < |users| ==> next[i] == states[i]
    {
      var st := StepUser(next[k], Lookup(userChannelMap, users[k]), startTime, endTime);
      next := next[k := st];
      k := k + 1;
    }
  }

  /** One record of `rawApiData.forEach`: where each selected user is, then each user's update. */
  method TrackRecord(states: seq<Tracking>, users: seq<string>, data: seq<Session>, i: nat, now: int) returns (next: seq<Tracking>)
    requires i < |data| && |states| == |users|
    requires forall k :: 0 <= k < |users| ==> states[k] == Tracked(data, users[k], now, i)
    ensures |next| == |users|
    ensures forall k :: 0 <= k < |users| ==> next[k] == Tracked(data, users[k], now, i + 1)
  {
    var record := data[i];
    var startTime := record.sessionStart;
    var endTime := if record.sessionEnd.Some? then record.sessionEnd.value else now;
    var selected := set u | u in users;
    var userChannelMap := PlaceUsers(record.channels, selected);
    assert forall k :: 0 <= k < |users| ==> users[k] in selected;
    next := StepUsers(states, users, userChannelMap, startTime, endTime);
  }

  /** Every selected user starts with no open session and no merged ones, then the records are walked once. */
  method TrackRecords(data: seq<Session>, users: seq<string>, now: int) returns (states: seq<Tracking>)
    ensures |states| == |users|
    ensures forall k :: 0 <= k < |users| ==> states[k] == Tracked(data, users[k], now, |data|)
  {
    states := [];
    while |states| < |users|
      invariant |states| <= |users|
      invariant forall k :: 0 <= k < |states| ==> states[k] == NOT_TRACKED
    {
      states := states + [NOT_TRACKED];
    }
    var i := 0;
    while i < |data|
      invariant 0 <= i <= |data| && |states| == |users|
      invariant forall k :: 0 <= k < |users| ==> states[k] == Tracked(data, users[k], now, i)
    {
      states := TrackRecord(states, users, data, i, now);
      i := i + 1;
    }
  }

  /** The closing `forEach`: every open session joins the merged ones. */
  method FlushAll(states: seq<Tracking>) returns (merged: seq<seq<Span>>)
    ensures |merged| == |states|
    ensures forall k :: 0 <= k < |states| ==> merged[k] == Flush(states[k])
  {
    merged := [];
    while |merged| < |states|
      invariant |merged| <= |states|
      invariant forall k :: 0 <= k < |merged| ==> merged[k] == Flush(states[k])
    {
      var state := states[|merged|];
      var sessions := state.merged;
      if state.current.Some? {
        sessions := sessions + [state.current.value];
      }
      merged := merged + [sessions];
    }
  }

  /** Adds one user's merged sessions to the rows. */
  method AddUserBars(series0: seq<ActivitySeries>, channels: seq<ChannelInfo>, resolvedUserName: string, userId: string, sessions: seq<Span>)
    returns (series: seq<ActivitySeries>)
    ensures series == AddSessions(series0, channels, resolvedUserName, userId, sessions)
  {
    series := series0;
    var j := 0;
    while j < |sessions|
      invariant 0 <= j <= |sessions|
      invariant AddSessions(series, channels, resolvedUserName, userId, sessions[j..]) == AddSessions(series0, channels, resolvedUserName, userId, sessions)
    {
      var session := sessions[j];
      var channelInfo := FindInfo(channels, session.channelId);
      if channelInfo.Some? {
        series := AddBar(series, channelInfo.value, Bar(resolvedUserName, session.startTime, session.endTime, userId));
      }
      assert sessions[j..][1..] == sessions[j + 1..];
      j := j + 1;
    }
  }

  /** The final `forEach`: each user's bars, under the user's resolved name. */
  method BuildSeries(users: seq<string>, merged: seq<seq<Span>>, channels: seq<ChannelInfo>, selectedUsersMap: map<string, string>,
                     ghost data: seq<Session>, ghost now: int)
    returns (seriesDataMap: seq<ActivitySeries>)
    requires |merged| == |users|
    requires forall k :: 0 <= k < |users| ==> merged[k] == SessionsOf(data, users[k], now)
    ensures seriesDataMap == AddUsers([], channels, selectedUsersMap, data, now, users)
  {
    seriesDataMap := [];
    var k := 0;
    while k < |users|
      invariant 0 <= k <= |users|
      invariant AddUsers(seriesDataMap, channels, selectedUsersMap, data, now, users[k..]) == AddUsers([], channels, selectedUsersMap, data, now, users)
    {
      var userId := users[k];
      var resolvedUserName := OrElse(Lookup(selectedUsersMap, userId), "Utilisateur " + LastFour(userId));
      seriesDataMap := AddUserBars(seriesDataMap, channels, resolvedUserName, userId, merged[k]);
      assert users[k..][1..] == users[k + 1..];
      k := k + 1;
    }
  }

  /** `processUserActivity`: the records are walked once, every selected user's state updated per record. */
  method ProcessUserActivity(data: seq<Session>, channels: seq<ChannelInfo>, userIds: seq<string>,
                             selectedUsersMap: map<string, string>, now: int)
    returns (seriesDataMap: seq<ActivitySeries>)
    ensures seriesDataMap == UserActivity(data, channels, userIds, selectedUsersMap, now)
  {
    var users := JsCollections.Dedup(userIds);
    var states := TrackRecords(data, users, now);
    var merged := FlushAll(states);
    seriesDataMap := BuildSeries(users, merged, channels, selectedUsersMap, data, now);
  }
}
