/**
 * Per-user statistics (src/services/statsService.js, `calculateAndSaveStatsForUsers`).
 *
 * For each user, the guild's records containing the user are folded into four periods
 * (the last 24 hours, 7 days and 30 days up to `now`, and all time): time spent, time
 * spent alone, time in the AFK channel, and the time shared with each other member.
 * Then, per period, the companions are ranked (resolved non-bot members only, longest
 * first, ten at most) and the mean session length is taken. The result is written to
 * the user's statistics document.
 *
 * `guild.members.fetch` is the partial map `members`; a user missing from it could not
 * be fetched. The AFK channel id comes from the environment (`afk`).
 */
module StatsService {
  import opened Wrappers
  import opened Ordering
  import opened JsCollections
  import opened JsMath
  import opened GuildVoice
  import TimeUtils

  const HOUR_MS: int := 3600 * 1000

  datatype Period = Last24h | Last7d | Last30d | AllTime

  /** The windows, in the order of the `ranges` object. */
  const WINDOWS: seq<Period> := [Last24h, Last7d, Last30d]

  function WindowLength(p: Period): int
    requires p != AllTime
  {
    if p == Last24h then 24 * HOUR_MS
    else if p == Last7d then 7 * 24 * HOUR_MS
    else 30 * 24 * HOUR_MS
  }

  /** One period's running totals; `friends` is the `bestFriends` Map, in insertion order. */
  datatype PeriodStats = PeriodStats(timeSpent: int, timeSpentAlone: int, timeAfk: int, friends: seq<Entry>)

  const ZERO: PeriodStats := PeriodStats(0, 0, 0, [])

  /** The `stats` object: one PeriodStats per period. */
  datatype Accum = Accum(day: PeriodStats, week: PeriodStats, month: PeriodStats, all: PeriodStats)
  {
    function At(p: Period): PeriodStats
    {
      match p
      case Last24h => day
      case Last7d => week
      case Last30d => month
      case AllTime => all
    }

    function With(p: Period, s: PeriodStats): (r: Accum)
      ensures r.At(p) == s
      ensures forall q :: q != p ==> r.At(q) == At(q)
    {
      match p
      case Last24h => this.(day := s)
      case Last7d => this.(week := s)
      case Last30d => this.(month := s)
      case AllTime => this.(all := s)
    }
  }

  const START: Accum := Accum(ZERO, ZERO, ZERO, ZERO)

  /** `(record.sessionEnd || now)`: an open record runs until now. */
  function EndOr(r: Session, now: int): int
  {
    r.sessionEnd.GetOr(now)
  }

  /** `AFK_CHANNEL_ID && userChannel.channelId === AFK_CHANNEL_ID`. */
  predicate IsAfk(afk: Option<string>, channelId: string)
  {
    afk.Some? && afk.value != "" && channelId == afk.value
  }

  /** The time k gains as u's companion when u spends d with the members ms. */
  function Gain(ms: seq<Member>, u: string, d: int, k: string): int
  {
    if ms == [] then 0 else Gain(ms[..|ms| - 1], u, d, k) + if ms[|ms| - 1].userId == k && k != u then d else 0
  }

  /** `members.forEach(m => { if (m.userId !== userId) bestFriends.set(m.userId, (get || 0) + d) })`. */
  function Companions(t: seq<Entry>, ms: seq<Member>, u: string, d: int): seq<Entry>
  {
    if ms == [] then t
    else
      var t1 := Companions(t, ms[..|ms| - 1], u, d);
      var m := ms[|ms| - 1];
      if m.userId != u then Bump(t1, m.userId, m.userId, d) else t1
  }

  /** Adds d to one period for a record whose user channel is `ch`. */
  function AddTime(s: PeriodStats, isAfk: bool, ch: Channel, u: string, d: int): PeriodStats
  {
    if isAfk then s.(timeAfk := s.timeAfk + d)
    else s.(timeSpent := s.timeSpent + d,
            timeSpentAlone := s.timeSpentAlone + (if |ch.members| == 1 then d else 0),
            friends := Companions(s.friends, ch.members, u, d))
  }

  /** The record's overlap with window p ending at now. */
  function WindowOverlap(r: Session, now: int, p: Period): int
    requires p != AllTime
  {
    TimeUtils.CalculateOverlap(r.sessionStart, EndOr(r, now), now - WindowLength(p), now)
  }

  /** A window receives the overlap, and only when it is positive. */
  function WindowStep(s: PeriodStats, p: Period, r: Session, isAfk: bool, ch: Channel, u: string, now: int): PeriodStats
    requires p != AllTime
  {
    var o := WindowOverlap(r, now, p);
    if o > 0 then AddTime(s, isAfk, ch, u, o) else s
  }

  /** `for (const key in ranges)`: the window steps in order. */
  function AddWindows(a: Accum, ps: seq<Period>, r: Session, isAfk: bool, ch: Channel, u: string, now: int): Accum
    requires AllTime !in ps
  {
    if ps == [] then a
    else
      var a1 := AddWindows(a, ps[..|ps| - 1], r, isAfk, ch, u, now);
      var p := ps[|ps| - 1];
      a1.With(p, WindowStep(a1.At(p), p, r, isAfk, ch, u, now))
  }

  /** One record of the user: all time receives the duration, each window its positive overlap. */
  function RecordStep(a: Accum, r: Session, u: string, afk: Option<string>, now: int): Accum
  {
    var ci := FindUserChannel(r.channels, u);
    if ci.None? then a
    else
      var ch := r.channels[ci.value];
      var isAfk := IsAfk(afk, ch.channelId);
      var a1 := a.With(AllTime, AddTime(a.all, isAfk, ch, u, EndOr(r, now) - r.sessionStart));
      AddWindows(a1, WINDOWS, r, isAfk, ch, u, now)
  }

  /** The `stats` object after the records, in order. */
  function Accumulate(rs: seq<Session>, u: string, afk: Option<string>, now: int): Accum
  {
    if rs == [] then START
    else RecordStep(Accumulate(rs[..|rs| - 1], u, afk, now), rs[|rs| - 1], u, afk, now)
  }

  // ----- One period at a time -----

  /** What one record does to period p. */
  function PeriodRecordStep(s: PeriodStats, r: Session, u: string, afk: Option<string>, now: int, p: Period): PeriodStats
  {
    var ci := FindUserChannel(r.channels, u);
    if ci.None? then s
    else
      var ch := r.channels[ci.value];
      var isAfk := IsAfk(afk, ch.channelId);
      if p == AllTime then AddTime(s, isAfk, ch, u, EndOr(r, now) - r.sessionStart)
      else WindowStep(s, p, r, isAfk, ch, u, now)
  }

  /** Period p after the records. */
  function PeriodFold(rs: seq<Session>, u: string, afk: Option<string>, now: int, p: Period): PeriodStats
  {
    if rs == [] then ZERO
    else PeriodRecordStep(PeriodFold(rs[..|rs| - 1], u, afk, now, p), rs[|rs| - 1], u, afk, now, p)
  }

  lemma {:induction false} AddWindowsAt(a: Accum, ps: seq<Period>, r: Session, isAfk: bool, ch: Channel, u: string, now: int, q: Period)
    requires AllTime !in ps
    requires forall i, j :: 0 <= i < j < |ps| ==> ps[i] != ps[j]
    ensures AddWindows(a, ps, r, isAfk, ch, u, now).At(q) == if q in ps then WindowStep(a.At(q), q, r, isAfk, ch, u, now) else a.At(q)
  {
    if ps != [] {
      var n := |ps| - 1;
      AddWindowsAt(a, ps[..n], r, isAfk, ch, u, now, q);
      assert q in ps <==> q in ps[..n] || q == ps[n] by {
        assert ps == ps[..n] + [ps[n]];
      }
      assert ps[n] !in ps[..n];
    }
  }

  /** The periods do not interact: each period of the `stats` object is its own fold. */
  lemma RecordStepAt(a: Accum, r: Session, u: string, afk: Option<string>, now: int, p: Period)
    ensures RecordStep(a, r, u, afk, now).At(p) == PeriodRecordStep(a.At(p), r, u, afk, now, p)
  {
    var ci := FindUserChannel(r.channels, u);
    if ci.Some? {
      var ch := r.channels[ci.value];
      var isAfk := IsAfk(afk, ch.channelId);
      var a1 := a.With(AllTime, AddTime(a.all, isAfk, ch, u, EndOr(r, now) - r.sessionStart));
      AddWindowsAt(a1, WINDOWS, r, isAfk, ch, u, now, p);
    }
  }

  /** The periods do not interact: each period of the `stats` object is its own fold. */
  lemma {:induction false} AccumulateAt(rs: seq<Session>, u: string, afk: Option<string>, now: int, p: Period)
    ensures Accumulate(rs, u, afk, now).At(p) == PeriodFold(rs, u, afk, now, p)
  {
    if rs != [] {
      var n := |rs| - 1;
      AccumulateAt(rs[..n], u, afk, now, p);
      RecordStepAt(Accumulate(rs[..n], u, afk, now), rs[n], u, afk, now, p);
    }
  }

  // ----- Time conservation and the AFK channel -----

  /** Sum of `(end or now) - start` over the records in which the user's channel is found. */
  function TotalDuration(rs: seq<Session>, u: string, now: int): int
  {
    if rs == [] then 0
    else
      var r := rs[|rs| - 1];
      TotalDuration(rs[..|rs| - 1], u, now) + if FindUserChannel(r.channels, u).Some? then EndOr(r, now) - r.sessionStart else 0
  }

  /** All time: time spent plus AFK time is the total duration of the user's records. */
  lemma {:induction false} TimeConservation(rs: seq<Session>, u: string, afk: Option<string>, now: int)
    ensures Accumulate(rs, u, afk, now).all.timeSpent + Accumulate(rs, u, afk, now).all.timeAfk == TotalDuration(rs, u, now)
  {
    AccumulateAt(rs, u, afk, now, AllTime);
    PeriodConservation(rs, u, afk, now);
  }

  lemma {:induction false} PeriodConservation(rs: seq<Session>, u: string, afk: Option<string>, now: int)
    ensures PeriodFold(rs, u, afk, now, AllTime).timeSpent + PeriodFold(rs, u, afk, now, AllTime).timeAfk == TotalDuration(rs, u, now)
  {
    if rs != [] {
      PeriodConservation(rs[..|rs| - 1], u, afk, now);
    }
  }

  /** A record in the AFK channel adds to AFK time only, in every period. */
  lemma AfkRecordOnlyAddsAfk(s: PeriodStats, r: Session, u: string, afk: Option<string>, now: int, p: Period)
    requires FindUserChannel(r.channels, u).Some?
    requires IsAfk(afk, r.channels[FindUserChannel(r.channels, u).value].channelId)
    ensures var s' := PeriodRecordStep(s, r, u, afk, now, p);
            s'.timeSpent == s.timeSpent && s'.timeSpentAlone == s.timeSpentAlone && s'.friends == s.friends
            && s'.timeAfk >= s.timeAfk - (if p == AllTime then r.sessionStart - EndOr(r, now) else 0)
  {
  }

  /** Without a configured AFK channel no time is AFK time. */
  lemma {:induction false} NoAfkChannelNoAfkTime(rs: seq<Session>, u: string, now: int, p: Period)
    ensures PeriodFold(rs, u, None, now, p).timeAfk == 0
    ensures PeriodFold(rs, u, Some(""), now, p).timeAfk == 0
  {
    if rs != [] {
      NoAfkChannelNoAfkTime(rs[..|rs| - 1], u, now, p);
    }
  }

  // ----- Bounds -----

  /** Every record runs forward: its start is not after its end (or now, while open). */
  predicate WellFormed(rs: seq<Session>, now: int)
  {
    forall i :: 0 <= i < |rs| ==> rs[i].sessionStart <= EndOr(rs[i], now)
  }

  lemma WellFormedPrefix(rs: seq<Session>, now: int, n: nat)
    requires WellFormed(rs, now) && n <= |rs|
    ensures WellFormed(rs[..n], now)
  {
  }

  /**
   * Time alone only grows together with time spent: in each window it never exceeds
   * it, and over all time neither when the records run forward.
   */
  lemma {:induction false} AloneWithinSpent(rs: seq<Session>, u: string, afk: Option<string>, now: int, p: Period)
    requires p == AllTime ==> WellFormed(rs, now)
    ensures 0 <= PeriodFold(rs, u, afk, now, p).timeSpentAlone <= PeriodFold(rs, u, afk, now, p).timeSpent
  {
    if rs != [] {
      if p == AllTime {
        WellFormedPrefix(rs, now, |rs| - 1);
      }
      AloneWithinSpent(rs[..|rs| - 1], u, afk, now, p);
    }
  }

  /** The times of w are at most those of a. */
  predicate Within(w: PeriodStats, a: PeriodStats)
  {
    w.timeSpent <= a.timeSpent && w.timeSpentAlone <= a.timeSpentAlone && w.timeAfk <= a.timeAfk
  }

  lemma StepWithinAllTime(w: PeriodStats, a: PeriodStats, r: Session, u: string, afk: Option<string>, now: int, p: Period)
    requires p != AllTime
    requires r.sessionStart <= EndOr(r, now)
    requires Within(w, a)
    ensures Within(PeriodRecordStep(w, r, u, afk, now, p), PeriodRecordStep(a, r, u, afk, now, AllTime))
  {
    var o := WindowOverlap(r, now, p);
    assert o <= EndOr(r, now) - r.sessionStart;
  }

  /** For records that run forward, every window's times are at most the all-time ones. */
  lemma {:induction false} WindowWithinAllTime(rs: seq<Session>, u: string, afk: Option<string>, now: int, p: Period)
    requires p != AllTime
    requires WellFormed(rs, now)
    ensures Within(PeriodFold(rs, u, afk, now, p), PeriodFold(rs, u, afk, now, AllTime))
  {
    if rs != [] {
      var n := |rs| - 1;
      WellFormedPrefix(rs, now, n);
      WindowWithinAllTime(rs[..n], u, afk, now, p);
      StepWithinAllTime(PeriodFold(rs[..n], u, afk, now, p), PeriodFold(rs[..n], u, afk, now, AllTime), rs[n], u, afk, now, p);
    }
  }

  // ----- Companions -----

  lemma {:induction false} CompanionsGet(t: seq<Entry>, ms: seq<Member>, u: string, d: int, k: string)
    ensures Get(Companions(t, ms, u, d), k) == Get(t, k) + Gain(ms, u, d, k)
  {
    if ms != [] {
      var n := |ms| - 1;
      CompanionsGet(t, ms[..n], u, d, k);
      if ms[n].userId != u {
        BumpGet(Companions(t, ms[..n], u, d), ms[n].userId, ms[n].userId, d, k);
      }
    }
  }

  /** The time a record adds to companions in period p: its duration, or its positive window overlap. */
  function Weight(r: Session, now: int, p: Period): int
  {
    if p == AllTime then EndOr(r, now) - r.sessionStart
    else if WindowOverlap(r, now, p) > 0 then WindowOverlap(r, now, p)
    else 0
  }

  /** What one record adds to the user's time with k in period p. */
  function Shared(r: Session, u: string, afk: Option<string>, now: int, p: Period, k: string): int
  {
    var ci := FindUserChannel(r.channels, u);
    if ci.None? || IsAfk(afk, r.channels[ci.value].channelId) then 0
    else Gain(r.channels[ci.value].members, u, Weight(r, now, p), k)
  }

  lemma {:induction false} GainZero(ms: seq<Member>, u: string, k: string)
    ensures Gain(ms, u, 0, k) == 0
  {
    if ms != [] {
      GainZero(ms[..|ms| - 1], u, k);
    }
  }

  lemma AddTimeGet(s: PeriodStats, isAfk: bool, ch: Channel, u: string, d: int, k: string)
    ensures Get(AddTime(s, isAfk, ch, u, d).friends, k) == Get(s.friends, k) + if isAfk then 0 else Gain(ch.members, u, d, k)
  {
    if !isAfk {
      CompanionsGet(s.friends, ch.members, u, d, k);
    }
  }

  lemma PeriodRecordStepGet(s: PeriodStats, r: Session, u: string, afk: Option<string>, now: int, p: Period, k: string)
    ensures Get(PeriodRecordStep(s, r, u, afk, now, p).friends, k) == Get(s.friends, k) + Shared(r, u, afk, now, p, k)
  {
    var ci := FindUserChannel(r.channels, u);
    if ci.Some? {
      var ch := r.channels[ci.value];
      var isAfk := IsAfk(afk, ch.channelId);
      var w := Weight(r, now, p);
      assert Shared(r, u, afk, now, p, k) == if isAfk then 0 else Gain(ch.members, u, w, k);
      if p == AllTime || WindowOverlap(r, now, p) > 0 {
        assert PeriodRecordStep(s, r, u, afk, now, p) == AddTime(s, isAfk, ch, u, w);
        AddTimeGet(s, isAfk, ch, u, w, k);
      } else {
        assert PeriodRecordStep(s, r, u, afk, now, p) == s;
        GainZero(ch.members, u, k);
      }
    }
  }

  /** Sum of what the records add to u's time with k. */
  function SharedTotal(rs: seq<Session>, u: string, afk: Option<string>, now: int, p: Period, k: string): int
  {
    if rs == [] then 0 else SharedTotal(rs[..|rs| - 1], u, afk, now, p, k) + Shared(rs[|rs| - 1], u, afk, now, p, k)
  }

  lemma {:induction false} FriendTime(rs: seq<Session>, u: string, afk: Option<string>, now: int, p: Period, k: string)
    ensures Get(PeriodFold(rs, u, afk, now, p).friends, k) == SharedTotal(rs, u, afk, now, p, k)
  {
    if rs != [] {
      FriendTime(rs[..|rs| - 1], u, afk, now, p, k);
      PeriodRecordStepGet(PeriodFold(rs[..|rs| - 1], u, afk, now, p), rs[|rs| - 1], u, afk, now, p, k);
    }
  }

  lemma {:induction false} GainWitness(ms: seq<Member>, u: string, d: int, k: string)
    requires Gain(ms, u, d, k) != 0
    ensures k != u && exists z :: 0 <= z < |ms| && ms[z].userId == k
  {
    var n := |ms| - 1;
    if !(ms[n].userId == k && k != u) {
      GainWitness(ms[..n], u, d, k);
      var z :| 0 <= z < n && ms[..n][z].userId == k;
      assert ms[z].userId == k;
    }
  }

  lemma {:induction false} GainNone(ms: seq<Member>, u: string, d: int, k: string)
    requires forall b :: 0 <= b < |ms| ==> ms[b].userId != k
    ensures Gain(ms, u, d, k) == 0
  {
    if ms != [] {
      GainNone(ms[..|ms| - 1], u, d, k);
    }
  }

  lemma {:induction false} GainUnique(ms: seq<Member>, u: string, d: int, k: string, a: nat)
    requires a < |ms| && ms[a].userId == k && k != u
    requires forall b :: 0 <= b < |ms| && ms[b].userId == k ==> b == a
    ensures Gain(ms, u, d, k) == d
  {
    var n := |ms| - 1;
    if a == n {
      GainNone(ms[..n], u, d, k);
    } else {
      GainUnique(ms[..n], u, d, k, a);
    }
  }

  /** A member of channel i of a record where each user has one slot is found in channel i. */
  lemma FoundInOwnChannel(r: Session, i: nat, z: nat, b: string)
    requires UniqueMembership(r)
    requires i < |r.channels| && z < |r.channels[i].members| && r.channels[i].members[z].userId == b
    ensures FindUserChannel(r.channels, b) == Some(i)
  {
    assert r.channels[i].members[z] in r.channels[i].members;
    assert HasMember(r.channels[i], b);
    var j := FindUserChannel(r.channels, b).value;
    var m :| m in r.channels[j].members && m.userId == b;
    var y :| 0 <= y < |r.channels[j].members| && r.channels[j].members[y] == m;
    assert r.channels[i].members[z].userId == r.channels[j].members[y].userId;
  }

  /** In a channel of a record where each user has one slot, a member other than u gains d. */
  lemma GainInChannel(r: Session, i: nat, u: string, d: int, k: string)
    requires UniqueMembership(r)
    requires i < |r.channels| && HasMember(r.channels[i], k) && k != u
    ensures Gain(r.channels[i].members, u, d, k) == d
  {
    var ms := r.channels[i].members;
    var m :| m in ms && m.userId == k;
    var x :| 0 <= x < |ms| && ms[x] == m;
    assert forall b :: 0 <= b < |ms| && ms[b].userId == k ==> b == x by {
      assert forall b :: 0 <= b < |ms| ==> r.channels[i].members[b] == ms[b];
    }
    GainUnique(ms, u, d, k, x);
  }

  /** If b gains time in a's channel of a record where each user has one slot, that is b's channel, and each gains d. */
  lemma SameChannel(r: Session, a: string, b: string, d: int)
    requires UniqueMembership(r)
    requires FindUserChannel(r.channels, a).Some?
    requires Gain(r.channels[FindUserChannel(r.channels, a).value].members, a, d, b) != 0
    ensures FindUserChannel(r.channels, b) == FindUserChannel(r.channels, a)
    ensures Gain(r.channels[FindUserChannel(r.channels, a).value].members, a, d, b) == d
    ensures Gain(r.channels[FindUserChannel(r.channels, a).value].members, b, d, a) == d
  {
    var i := FindUserChannel(r.channels, a).value;
    var ms := r.channels[i].members;
    GainWitness(ms, a, d, b);
    var z :| 0 <= z < |ms| && ms[z].userId == b;
    FoundInOwnChannel(r, i, z, b);
    assert ms[z] in ms;
    GainInChannel(r, i, a, d, b);
    GainInChannel(r, i, b, d, a);
  }

  /** In a record where each user occupies one slot, A's share with B is B's share with A. */
  lemma SharedSymmetric(r: Session, a: string, b: string, afk: Option<string>, now: int, p: Period)
    requires UniqueMembership(r)
    ensures Shared(r, a, afk, now, p, b) == Shared(r, b, afk, now, p, a)
  {
    if Shared(r, a, afk, now, p, b) != 0 {
      SameChannel(r, a, b, Weight(r, now, p));
    } else if Shared(r, b, afk, now, p, a) != 0 {
      SameChannel(r, b, a, Weight(r, now, p));
    }
  }

  /**
   * Companion time is symmetric: when each user occupies one slot of each record, the
   * time A spent with B equals the time B spent with A, in every period.
   */
  lemma {:induction false} CompanionSymmetry(rs: seq<Session>, a: string, b: string, afk: Option<string>, now: int, p: Period)
    requires forall i :: 0 <= i < |rs| ==> UniqueMembership(rs[i])
    ensures Get(PeriodFold(rs, a, afk, now, p).friends, b) == Get(PeriodFold(rs, b, afk, now, p).friends, a)
  {
    FriendTime(rs, a, afk, now, p, b);
    FriendTime(rs, b, afk, now, p, a);
    SharedTotalSymmetric(rs, a, b, afk, now, p);
  }

  lemma {:induction false} SharedTotalSymmetric(rs: seq<Session>, a: string, b: string, afk: Option<string>, now: int, p: Period)
    requires forall i :: 0 <= i < |rs| ==> UniqueMembership(rs[i])
    ensures SharedTotal(rs, a, afk, now, p, b) == SharedTotal(rs, b, afk, now, p, a)
  {
    if rs != [] {
      var n := |rs| - 1;
      SharedTotalSymmetric(rs[..n], a, b, afk, now, p);
      SharedSymmetric(rs[n], a, b, afk, now, p);
    }
  }

  // ----- The user's records -----

  predicate Matches(r: Session, g: string, u: string)
  {
    r.guildId == g && exists i :: 0 <= i < |r.channels| && HasMember(r.channels[i], u)
  }

  /** `GuildVoice.find({ guildId, 'channels.members.userId': userId })`, in store order. */
  function UserSessions(rs: seq<Session>, g: string, u: string): seq<Session>
  {
    if rs == [] then [] else UserSessions(rs[..|rs| - 1], g, u) + if Matches(rs[|rs| - 1], g, u) then [rs[|rs| - 1]] else []
  }

  /** The query returns exactly the guild's records in which the user is a member. */
  lemma {:induction false} UserSessionsMembers(rs: seq<Session>, g: string, u: string, x: Session)
    ensures x in UserSessions(rs, g, u) <==> x in rs && Matches(x, g, u)
  {
    if rs != [] {
      var n := |rs| - 1;
      UserSessionsMembers(rs[..n], g, u, x);
      assert rs == rs[..n] + [rs[n]];
    }
  }

  /** The guild's records, in store order. */
  function GuildSessions(rs: seq<Session>, g: string): seq<Session>
  {
    if rs == [] then [] else GuildSessions(rs[..|rs| - 1], g) + if rs[|rs| - 1].guildId == g then [rs[|rs| - 1]] else []
  }

  lemma PeriodFoldSnoc(rs: seq<Session>, x: Session, u: string, afk: Option<string>, now: int, p: Period)
    ensures PeriodFold(rs + [x], u, afk, now, p) == PeriodRecordStep(PeriodFold(rs, u, afk, now, p), x, u, afk, now, p)
  {
    assert (rs + [x])[..|rs|] == rs;
  }

  /** Folding the user's records is folding all the guild's records: the others add nothing. */
  lemma {:induction false} UserSessionsFold(rs: seq<Session>, g: string, u: string, afk: Option<string>, now: int, p: Period)
    ensures PeriodFold(UserSessions(rs, g, u), u, afk, now, p) == PeriodFold(GuildSessions(rs, g), u, afk, now, p)
  {
    if rs != [] {
      var n := |rs| - 1;
      var x := rs[n];
      UserSessionsFold(rs[..n], g, u, afk, now, p);
      if x.guildId != g {
        assert !Matches(x, g, u);
        assert UserSessions(rs, g, u) == UserSessions(rs[..n], g, u);
        assert GuildSessions(rs, g) == GuildSessions(rs[..n], g);
      } else if Matches(x, g, u) {
        PeriodFoldSnoc(UserSessions(rs[..n], g, u), x, u, afk, now, p);
        PeriodFoldSnoc(GuildSessions(rs[..n], g), x, u, afk, now, p);
      } else {
        assert UserSessions(rs, g, u) == UserSessions(rs[..n], g, u);
        assert GuildSessions(rs, g) == GuildSessions(rs[..n], g) + [x];
        FindUserChannelNone(x, u);
        PeriodFoldSnoc(GuildSessions(rs[..n], g), x, u, afk, now, p);
      }
    }
  }

  lemma FindUserChannelNone(x: Session, u: string)
    requires !(exists i :: 0 <= i < |x.channels| && HasMember(x.channels[i], u))
    ensures FindUserChannel(x.channels, u).None?
  {
  }

  /** Companion symmetry for the records each of the two users' statistics are computed from. */
  lemma StoredCompanionSymmetry(rs: seq<Session>, g: string, a: string, b: string, afk: Option<string>, now: int, p: Period)
    requires forall i :: 0 <= i < |rs| ==> UniqueMembership(rs[i])
    ensures Get(Accumulate(UserSessions(rs, g, a), a, afk, now).At(p).friends, b)
         == Get(Accumulate(UserSessions(rs, g, b), b, afk, now).At(p).friends, a)
  {
    AccumulateAt(UserSessions(rs, g, a), a, afk, now, p);
    AccumulateAt(UserSessions(rs, g, b), b, afk, now, p);
    UserSessionsFold(rs, g, a, afk, now, p);
    UserSessionsFold(rs, g, b, afk, now, p);
    GuildSessionsUnique(rs, g);
    CompanionSymmetry(GuildSessions(rs, g), a, b, afk, now, p);
  }

  lemma {:induction false} GuildSessionsUnique(rs: seq<Session>, g: string)
    requires forall i :: 0 <= i < |rs| ==> UniqueMembership(rs[i])
    ensures forall i :: 0 <= i < |GuildSessions(rs, g)| ==> UniqueMembership(GuildSessions(rs, g)[i])
  {
    if rs != [] {
      GuildSessionsUnique(rs[..|rs| - 1], g);
    }
  }

  // ----- Ranking and averages -----

  /** A member fetched from the guild. */
  datatype Identity = Identity(username: string, nickname: Option<string>, isBot: bool)

  datatype Friend = Friend(userId: string, username: string, timeSpentTogether: int)

  const MAX_FRIENDS: nat := 10

  predicate Ranked(e: Entry, members: map<string, Identity>)
  {
    e.key in members && !members[e.key].isBot
  }

  function ToFriend(e: Entry, members: map<string, Identity>): Friend
  {
    Friend(e.key, if e.key in members then members[e.key].username else "Utilisateur Inconnu", e.amount)
  }

  /** The companions kept: resolved non-bot members, longest time first, the first ten. */
  function Kept(friends: seq<Entry>, members: map<string, Identity>): seq<Entry>
  {
    Top(Filter(friends, e => Ranked(e, members)), MAX_FRIENDS)
  }

  /** `bestFriends`: the kept companions with their usernames. */
  function BestFriends(friends: seq<Entry>, members: map<string, Identity>): seq<Friend>
  {
    MapSeq(Kept(friends, members), e => ToFriend(e, members))
  }

  /** At most ten friends, each a resolved non-bot member of the table, with its username and time. */
  lemma BestFriendsResolved(friends: seq<Entry>, members: map<string, Identity>)
    ensures var r := BestFriends(friends, members);
            && |r| <= MAX_FRIENDS
            && |r| == (var ranked := Filter(friends, e => Ranked(e, members));
                      if |ranked| < MAX_FRIENDS then |ranked| else MAX_FRIENDS)
            && forall i :: 0 <= i < |r| ==>
                 && r[i].userId in members && !members[r[i].userId].isBot
                 && r[i].username == members[r[i].userId].username
                 && Entry(r[i].userId, Kept(friends, members)[i].name, r[i].timeSpentTogether) in friends
  {
    var f := Filter(friends, e => Ranked(e, members));
    TopShape(f, MAX_FRIENDS);
  }

  /** The friends come longest time first. */
  lemma BestFriendsOrdered(friends: seq<Entry>, members: map<string, Identity>)
    ensures var r := BestFriends(friends, members);
            forall i, j :: 0 <= i < j < |r| ==> r[i].timeSpentTogether >= r[j].timeSpentTogether
  {
    TopShape(Filter(friends, e => Ranked(e, members)), MAX_FRIENDS);
  }

  /** Top ten: a resolved non-bot companion that is not among the friends has no more time than any of them. */
  lemma BestFriendsTop(friends: seq<Entry>, members: map<string, Identity>, e: Entry)
    requires e in friends && Ranked(e, members)
    requires forall i :: 0 <= i < |BestFriends(friends, members)| ==> BestFriends(friends, members)[i].userId != e.key
    ensures forall i :: 0 <= i < |BestFriends(friends, members)| ==> e.amount <= BestFriends(friends, members)[i].timeSpentTogether
  {
    var f := Filter(friends, e => Ranked(e, members));
    var t := Kept(friends, members);
    forall i | 0 <= i < |t| ensures t[i] != e {
      assert BestFriends(friends, members)[i] == ToFriend(t[i], members);
    }
    TopIsTop(f, MAX_FRIENDS, e);
  }

  /** A companion table built by Companions has one entry per companion. */
  lemma {:induction false} CompanionsDistinct(t: seq<Entry>, ms: seq<Member>, u: string, d: int)
    requires DistinctKeys(t)
    ensures DistinctKeys(Companions(t, ms, u, d))
  {
    if ms != [] {
      var n := |ms| - 1;
      CompanionsDistinct(t, ms[..n], u, d);
      if ms[n].userId != u {
        BumpDistinct(Companions(t, ms[..n], u, d), ms[n].userId, ms[n].userId, d);
      }
    }
  }

  lemma AddTimeDistinct(s: PeriodStats, isAfk: bool, ch: Channel, u: string, d: int)
    requires DistinctKeys(s.friends)
    ensures DistinctKeys(AddTime(s, isAfk, ch, u, d).friends)
  {
    if !isAfk {
      CompanionsDistinct(s.friends, ch.members, u, d);
    }
  }

  lemma PeriodRecordStepDistinct(s: PeriodStats, r: Session, u: string, afk: Option<string>, now: int, p: Period)
    requires DistinctKeys(s.friends)
    ensures DistinctKeys(PeriodRecordStep(s, r, u, afk, now, p).friends)
  {
    var ci := FindUserChannel(r.channels, u);
    if ci.Some? {
      var ch := r.channels[ci.value];
      var isAfk := IsAfk(afk, ch.channelId);
      if p == AllTime {
        var d := EndOr(r, now) - r.sessionStart;
        assert PeriodRecordStep(s, r, u, afk, now, p) == AddTime(s, isAfk, ch, u, d);
        AddTimeDistinct(s, isAfk, ch, u, d);
      } else {
        var o := WindowOverlap(r, now, p);
        assert PeriodRecordStep(s, r, u, afk, now, p) == WindowStep(s, p, r, isAfk, ch, u, now);
        AddTimeDistinct(s, isAfk, ch, u, o);
      }
    }
  }

  /** Like the `bestFriends` Map, every period's table has one entry per companion. */
  lemma {:induction false} PeriodFoldDistinct(rs: seq<Session>, u: string, afk: Option<string>, now: int, p: Period)
    ensures DistinctKeys(PeriodFold(rs, u, afk, now, p).friends)
  {
    if rs != [] {
      var n := |rs| - 1;
      PeriodFoldDistinct(rs[..n], u, afk, now, p);
      PeriodRecordStepDistinct(PeriodFold(rs[..n], u, afk, now, p), rs[n], u, afk, now, p);
    }
  }

  /** Sessions counted and time summed for `averageTime`. */
  datatype Tally = Tally(count: nat, total: int)

  /** The averaging loop: non-AFK sessions; in a window only those with a positive overlap. */
  function SessionTally(rs: seq<Session>, u: string, afk: Option<string>, now: int, p: Period): Tally
  {
    if rs == [] then Tally(0, 0)
    else TallyStep(SessionTally(rs[..|rs| - 1], u, afk, now, p), rs[|rs| - 1], u, afk, now, p)
  }

  /** One record of the averaging loop. */
  function TallyStep(t: Tally, r: Session, u: string, afk: Option<string>, now: int, p: Period): Tally
  {
    var ci := FindUserChannel(r.channels, u);
    if ci.None? || IsAfk(afk, r.channels[ci.value].channelId) then t
    else if p == AllTime then Tally(t.count + 1, t.total + (EndOr(r, now) - r.sessionStart))
    else if WindowOverlap(r, now, p) > 0 then Tally(t.count + 1, t.total + WindowOverlap(r, now, p))
    else t
  }

  /** `sessionCount > 0 ? Math.round(totalSessionTime / sessionCount) : 0`. */
  function Average(t: Tally): int
  {
    if t.count > 0 then RoundDiv(t.total, t.count) else 0
  }

  /** The averaged time is exactly the period's time spent. */
  lemma {:induction false} TallyIsTimeSpent(rs: seq<Session>, u: string, afk: Option<string>, now: int, p: Period)
    ensures SessionTally(rs, u, afk, now, p).total == PeriodFold(rs, u, afk, now, p).timeSpent
  {
    if rs != [] {
      TallyIsTimeSpent(rs[..|rs| - 1], u, afk, now, p);
    }
  }

  /**
   * `averageTime` is the period's time spent divided by its counted sessions, rounded
   * half up, and 0 when no session counts.
   */
  lemma AverageIsMeanTimeSpent(rs: seq<Session>, u: string, afk: Option<string>, now: int, p: Period)
    ensures var t := SessionTally(rs, u, afk, now, p);
            var spent := PeriodFold(rs, u, afk, now, p).timeSpent;
            && (t.count == 0 ==> Average(t) == 0)
            && (t.count > 0 ==> 2 * t.count * Average(t) - t.count <= 2 * spent < 2 * t.count * Average(t) + t.count)
  {
    TallyIsTimeSpent(rs, u, afk, now, p);
  }

  // ----- The statistics document and the store -----

  datatype PeriodOut = PeriodOut(timeSpent: int, timeSpentAlone: int, timeAfk: int, averageTime: int, bestFriends: seq<Friend>)

  datatype UserStatsDoc = UserStatsDoc(
    username: string, nickname: Option<string>, isBot: bool,
    last24h: PeriodOut, last7d: PeriodOut, last30d: PeriodOut, allTime: PeriodOut)

  /** The Discord side of a recomputation. */
  datatype StatsEnv = StatsEnv(ready: bool, guildFound: bool, members: map<string, Identity>, afk: Option<string>)

  function PeriodResult(a: Accum, rs: seq<Session>, u: string, env: StatsEnv, now: int, p: Period): PeriodOut
  {
    PeriodOut(a.At(p).timeSpent, a.At(p).timeSpentAlone, a.At(p).timeAfk,
              Average(SessionTally(rs, u, env.afk, now, p)), BestFriends(a.At(p).friends, env.members))
  }

  /** The document written for user u from their records rs; a user that cannot be fetched gets minimal details. */
  function UserDoc(rs: seq<Session>, u: string, env: StatsEnv, now: int): UserStatsDoc
  {
    var a := Accumulate(rs, u, env.afk, now);
    var username := if u in env.members then env.members[u].username else "Utilisateur " + u;
    var nickname := if u in env.members then env.members[u].nickname else None;
    var isBot := u in env.members && env.members[u].isBot;
    UserStatsDoc(username, nickname, isBot,
                 PeriodResult(a, rs, u, env, now, Last24h), PeriodResult(a, rs, u, env, now, Last7d),
                 PeriodResult(a, rs, u, env, now, Last30d), PeriodResult(a, rs, u, env, now, AllTime))
  }

  type DocKey = (string, string)

  /** The documents after processing the users in order; a user without records is skipped. */
  function SaveUsers(docs: map<DocKey, UserStatsDoc>, rs: seq<Session>, g: string, us: seq<string>, env: StatsEnv, now: int): map<DocKey, UserStatsDoc>
  {
    if us == [] then docs
    else
      SaveUser(SaveUsers(docs, rs, g, us[..|us| - 1], env, now), rs, g, us[|us| - 1], env, now)
  }

  /** One user of the loop: skipped without records, else their document is written. */
  function SaveUser(docs: map<DocKey, UserStatsDoc>, rs: seq<Session>, g: string, u: string, env: StatsEnv, now: int): map<DocKey, UserStatsDoc>
  {
    var mine := UserSessions(rs, g, u);
    if mine == [] then docs else docs[(g, u) := UserDoc(mine, u, env, now)]
  }

  /**
   * `calculateAndSaveStatsForUsers`: nothing happens without users, with the client
   * not ready or when the guild cannot be fetched (the error is caught).
   */
  function SaveStats(docs: map<DocKey, UserStatsDoc>, rs: seq<Session>, g: string, userIds: Option<seq<string>>, env: StatsEnv, now: int): map<DocKey, UserStatsDoc>
  {
    if userIds.None? || |userIds.value| == 0 || !env.ready || !env.guildFound then docs
    else SaveUsers(docs, rs, g, userIds.value, env, now)
  }

  /** The key of user u's document is written when u is listed and has records in the guild. */
  predicate Written(key: DocKey, rs: seq<Session>, g: string, us: seq<string>)
  {
    key.0 == g && key.1 in us && UserSessions(rs, g, key.1) != []
  }

  lemma {:induction false} InSnoc(us: seq<string>, x: string)
    requires us != []
    ensures x in us <==> x in us[..|us| - 1] || x == us[|us| - 1]
  {
    assert us == us[..|us| - 1] + [us[|us| - 1]];
  }

  /** One loop step writes only user u's document, and only when u has records. */
  lemma SaveUserAt(docs: map<DocKey, UserStatsDoc>, rs: seq<Session>, g: string, u: string, env: StatsEnv, now: int, key: DocKey)
    ensures var d := SaveUser(docs, rs, g, u, env, now);
            var w := key == (g, u) && UserSessions(rs, g, u) != [];
            && (key in d <==> key in docs || w)
            && (w ==> d[key] == UserDoc(UserSessions(rs, g, u), u, env, now))
            && (!w && key in docs ==> d[key] == docs[key])
  {
    var mine := UserSessions(rs, g, u);
    if mine == [] {
      assert SaveUser(docs, rs, g, u, env, now) == docs;
    } else {
      var doc := UserDoc(mine, u, env, now);
      assert SaveUser(docs, rs, g, u, env, now) == docs[(g, u) := doc];
    }
  }

  /** The store after a recomputation holds the old documents plus those of the listed users with records. */
  lemma {:induction false} SaveUsersKeys(docs: map<DocKey, UserStatsDoc>, rs: seq<Session>, g: string, us: seq<string>, env: StatsEnv, now: int, key: DocKey)
    ensures key in SaveUsers(docs, rs, g, us, env, now) <==> key in docs || Written(key, rs, g, us)
  {
    if us != [] {
      var n := |us| - 1;
      SaveUsersKeys(docs, rs, g, us[..n], env, now, key);
      SaveUserAt(SaveUsers(docs, rs, g, us[..n], env, now), rs, g, us[n], env, now, key);
      InSnoc(us, key.1);
    }
  }

  /** A document that is not rewritten is left as it was. */
  lemma {:induction false} SaveUsersKeeps(docs: map<DocKey, UserStatsDoc>, rs: seq<Session>, g: string, us: seq<string>, env: StatsEnv, now: int, key: DocKey)
    requires key in docs && !Written(key, rs, g, us)
    ensures key in SaveUsers(docs, rs, g, us, env, now) && SaveUsers(docs, rs, g, us, env, now)[key] == docs[key]
  {
    if us != [] {
      var n := |us| - 1;
      InSnoc(us, key.1);
      SaveUsersKeeps(docs, rs, g, us[..n], env, now, key);
      SaveUserAt(SaveUsers(docs, rs, g, us[..n], env, now), rs, g, us[n], env, now, key);
    }
  }

  /** A listed user with records gets the document computed from their records. */
  lemma {:induction false} SaveUsersWrites(docs: map<DocKey, UserStatsDoc>, rs: seq<Session>, g: string, us: seq<string>, env: StatsEnv, now: int, u: string)
    requires u in us && UserSessions(rs, g, u) != []
    ensures (g, u) in SaveUsers(docs, rs, g, us, env, now)
    ensures SaveUsers(docs, rs, g, us, env, now)[(g, u)] == UserDoc(UserSessions(rs, g, u), u, env, now)
  {
    var n := |us| - 1;
    SaveUserAt(SaveUsers(docs, rs, g, us[..n], env, now), rs, g, us[n], env, now, (g, u));
    if us[n] != u {
      InSnoc(us, u);
      SaveUsersWrites(docs, rs, g, us[..n], env, now, u);
    }
  }

  /** No users, a client that is not ready, or a guild that cannot be fetched: no write at all. */
  lemma SaveStatsNoWrite(docs: map<DocKey, UserStatsDoc>, rs: seq<Session>, g: string, userIds: Option<seq<string>>, env: StatsEnv, now: int)
    requires userIds.None? || userIds == Some([]) || !env.ready || !env.guildFound
    ensures SaveStats(docs, rs, g, userIds, env, now) == docs
  {
  }

  // ----- updateAllUserStats -----

  /** The member ids of the guild's records, record by record, with repeats. */
  function GuildMemberIds(rs: seq<Session>, g: string): seq<string>
  {
    if rs == [] then []
    else GuildMemberIds(rs[..|rs| - 1], g) + if rs[|rs| - 1].guildId == g then AllMemberIds(rs[|rs| - 1].channels) else []
  }

  /** `GuildVoice.distinct('channels.members.userId', { guildId })`. */
  function DistinctUserIds(rs: seq<Session>, g: string): seq<string>
  {
    Dedup(GuildMemberIds(rs, g))
  }

  lemma {:induction false} GuildMemberIdsSpec(rs: seq<Session>, g: string, u: string)
    ensures u in GuildMemberIds(rs, g) <==> exists i :: 0 <= i < |rs| && Matches(rs[i], g, u)
  {
    if rs != [] {
      var n := |rs| - 1;
      GuildMemberIdsSpec(rs[..n], g, u);
      if exists i :: 0 <= i < |rs| && Matches(rs[i], g, u) {
        var i :| 0 <= i < |rs| && Matches(rs[i], g, u);
        if i < n {
          assert rs[..n][i] == rs[i];
        }
      }
      if exists i :: 0 <= i < n && Matches(rs[..n][i], g, u) {
        var i :| 0 <= i < n && Matches(rs[..n][i], g, u);
        assert rs[i] == rs[..n][i];
      }
    }
  }

  /** The query lists every user with a record in the guild, each once. */
  lemma DistinctUserIdsSpec(rs: seq<Session>, g: string, u: string)
    ensures Distinct(DistinctUserIds(rs, g))
    ensures u in DistinctUserIds(rs, g) <==> UserSessions(rs, g, u) != []
  {
    GuildMemberIdsSpec(rs, g, u);
    var mine := UserSessions(rs, g, u);
    if mine != [] {
      UserSessionsMembers(rs, g, u, mine[0]);
    }
    if exists i :: 0 <= i < |rs| && Matches(rs[i], g, u) {
      var i :| 0 <= i < |rs| && Matches(rs[i], g, u);
      UserSessionsMembers(rs, g, u, rs[i]);
    }
  }

  /** `updateAllUserStats`: every user seen in the guild, recomputed. */
  function RecomputeAll(docs: map<DocKey, UserStatsDoc>, rs: seq<Session>, g: string, env: StatsEnv, now: int): map<DocKey, UserStatsDoc>
  {
    SaveStats(docs, rs, g, Some(DistinctUserIds(rs, g)), env, now)
  }

  /** The guild's recomputed documents are those of the users with records; every other key stays. */
  lemma RecomputeAllKeys(docs: map<DocKey, UserStatsDoc>, rs: seq<Session>, g: string, env: StatsEnv, now: int, key: DocKey)
    requires env.ready && env.guildFound
    ensures key in RecomputeAll(docs, rs, g, env, now) <==> key in docs || (key.0 == g && UserSessions(rs, g, key.1) != [])
  {
    var us := DistinctUserIds(rs, g);
    RecomputeAllWritten(rs, g, key);
    if us != [] {
      SaveUsersKeys(docs, rs, g, us, env, now, key);
    }
  }

  /**
   * Each user of the guild with records gets the document computed from them, and the
   * documents of other guilds are left as they were.
   */
  lemma RecomputeAllDocs(docs: map<DocKey, UserStatsDoc>, rs: seq<Session>, g: string, env: StatsEnv, now: int, key: DocKey)
    requires env.ready && env.guildFound
    requires key in docs || (key.0 == g && UserSessions(rs, g, key.1) != [])
    ensures key in RecomputeAll(docs, rs, g, env, now)
    ensures key.0 == g && UserSessions(rs, g, key.1) != [] ==>
              RecomputeAll(docs, rs, g, env, now)[key] == UserDoc(UserSessions(rs, g, key.1), key.1, env, now)
    ensures key.0 != g ==> RecomputeAll(docs, rs, g, env, now)[key] == docs[key]
  {
    var us := DistinctUserIds(rs, g);
    RecomputeAllWritten(rs, g, key);
    if us == [] {
      assert RecomputeAll(docs, rs, g, env, now) == docs;
    } else {
      assert RecomputeAll(docs, rs, g, env, now) == SaveUsers(docs, rs, g, us, env, now);
      if Written(key, rs, g, us) {
        SaveUsersWrites(docs, rs, g, us, env, now, key.1);
      } else {
        SaveUsersKeeps(docs, rs, g, us, env, now, key);
      }
    }
  }

  lemma RecomputeAllWritten(rs: seq<Session>, g: string, key: DocKey)
    ensures Written(key, rs, g, DistinctUserIds(rs, g)) <==> key.0 == g && UserSessions(rs, g, key.1) != []
  {
    DistinctUserIdsSpec(rs, g, key.1);
  }

  /** The statistics documents (`UserStats`), keyed by guild and user. */
  class StatsStore {
    var docs: map<DocKey, UserStatsDoc>

    constructor()
      ensures docs == map[]
    {
      docs := map[];
    }

    /** `calculateAndSaveStatsForUsers(guildId, userIds)` over the voice records `rs` at time `now`. */
    method CalculateAndSaveStatsForUsers(rs: seq<Session>, g: string, userIds: Option<seq<string>>, env: StatsEnv, now: int)
      modifies this
      ensures docs == SaveStats(old(docs), rs, g, userIds, env, now)
    {
      if userIds.None? || |userIds.value| == 0 {
        return;
      }
      if !env.ready || !env.guildFound {
        return;
      }
      var us := userIds.value;
      var d := docs;
      var k := 0;
      while k < |us|
        invariant 0 <= k <= |us|
        invariant d == SaveUsers(old(docs), rs, g, us[..k], env, now)
      {
        assert us[..k + 1][..k] == us[..k];
        d := SaveUserDoc(d, rs, g, us[k], env, now);
        k := k + 1;
      }
      assert us[..k] == us;
      docs := d;
    }

    /** `updateAllUserStats(guildId)`: the distinct user ids of the guild, then their recomputation. */
    method UpdateAllUserStats(rs: seq<Session>, g: string, env: StatsEnv, now: int)
      modifies this
      ensures docs == RecomputeAll(old(docs), rs, g, env, now)
    {
      var allUserIds := DistinctUserIds(rs, g);
      CalculateAndSaveStatsForUsers(rs, g, Some(allUserIds), env, now);
    }
  }

  /** The loop body for one user: find their records, skip them without any, else write their document. */
  method SaveUserDoc(docs: map<DocKey, UserStatsDoc>, rs: seq<Session>, g: string, u: string, env: StatsEnv, now: int) returns (d: map<DocKey, UserStatsDoc>)
    ensures d == SaveUser(docs, rs, g, u, env, now)
  {
    var mine := UserSessions(rs, g, u);
    if mine == [] {
      d := docs;
    } else {
      var doc := BuildDoc(mine, u, env, now);
      d := docs[(g, u) := doc];
    }
  }

  /** One user's document: the record loop, the four periods and the member's details. */
  method BuildDoc(rs: seq<Session>, u: string, env: StatsEnv, now: int) returns (doc: UserStatsDoc)
    ensures doc == UserDoc(rs, u, env, now)
  {
    var a := ComputeStats(rs, u, env.afk, now);
    var day := ComputePeriod(a, rs, u, env, now, Last24h);
    var week := ComputePeriod(a, rs, u, env, now, Last7d);
    var month := ComputePeriod(a, rs, u, env, now, Last30d);
    var all := ComputePeriod(a, rs, u, env, now, AllTime);
    if u in env.members {
      var m := env.members[u];
      doc := UserStatsDoc(m.username, m.nickname, m.isBot, day, week, month, all);
    } else {
      doc := UserStatsDoc("Utilisateur " + u, None, false, day, week, month, all);
    }
  }

  /** The record loop: the `stats` object after the user's records. */
  method ComputeStats(rs: seq<Session>, u: string, afk: Option<string>, now: int) returns (a: Accum)
    ensures a == Accumulate(rs, u, afk, now)
  {
    a := START;
    var i := 0;
    while i < |rs|
      invariant 0 <= i <= |rs|
      invariant a == Accumulate(rs[..i], u, afk, now)
    {
      assert rs[..i + 1][..i] == rs[..i];
      a := AddRecord(a, rs[i], u, afk, now);
      i := i + 1;
    }
    assert rs[..i] == rs;
  }

  /** The loop body for one record: all time, then each window with a positive overlap. */
  method AddRecord(a0: Accum, r: Session, u: string, afk: Option<string>, now: int) returns (a: Accum)
    ensures a == RecordStep(a0, r, u, afk, now)
  {
    a := a0;
    var ci := FindUserChannel(r.channels, u);
    if ci.None? {
      return;
    }
    var ch := r.channels[ci.value];
    var isAfk := IsAfk(afk, ch.channelId);
    var duration := EndOr(r, now) - r.sessionStart;
    var all := AddTimeTo(a.all, isAfk, ch, u, duration);
    a := a.With(AllTime, all);
    ghost var a1 := a;
    var k := 0;
    while k < |WINDOWS|
      invariant 0 <= k <= |WINDOWS|
      invariant a == AddWindows(a1, WINDOWS[..k], r, isAfk, ch, u, now)
    {
      assert WINDOWS[..k + 1][..k] == WINDOWS[..k];
      a := AddWindow(a, WINDOWS[k], r, isAfk, ch, u, now);
      k := k + 1;
    }
    assert WINDOWS[..k] == WINDOWS;
  }

  /** One window of the `ranges` loop: the overlap is added only when positive. */
  method AddWindow(a0: Accum, p: Period, r: Session, isAfk: bool, ch: Channel, u: string, now: int) returns (a: Accum)
    requires p != AllTime
    ensures a == a0.With(p, WindowStep(a0.At(p), p, r, isAfk, ch, u, now))
  {
    a := a0;
    var overlap := TimeUtils.CalculateOverlap(r.sessionStart, EndOr(r, now), now - WindowLength(p), now);
    if overlap > 0 {
      var s := AddTimeTo(a.At(p), isAfk, ch, u, overlap);
      a := a.With(p, s);
    } else {
      assert a0.With(p, a0.At(p)) == a0 by {
        match p
        case Last24h =>
        case Last7d =>
        case Last30d =>
      }
    }
  }

  /** Adds d to one period, walking the channel's members for the companions. */
  method AddTimeTo(s: PeriodStats, isAfk: bool, ch: Channel, u: string, d: int) returns (r: PeriodStats)
    ensures r == AddTime(s, isAfk, ch, u, d)
  {
    if isAfk {
      return s.(timeAfk := s.timeAfk + d);
    }
    var t := s.friends;
    var j := 0;
    while j < |ch.members|
      invariant 0 <= j <= |ch.members|
      invariant t == Companions(s.friends, ch.members[..j], u, d)
    {
      assert ch.members[..j + 1][..j] == ch.members[..j];
      var m := ch.members[j];
      if m.userId != u {
        t := Bump(t, m.userId, m.userId, d);
      }
      j := j + 1;
    }
    assert ch.members[..j] == ch.members;
    r := s.(timeSpent := s.timeSpent + d,
            timeSpentAlone := s.timeSpentAlone + (if |ch.members| == 1 then d else 0),
            friends := t);
  }

  /** One period of the document: totals, ranked friends and the averaging loop. */
  method ComputePeriod(a: Accum, rs: seq<Session>, u: string, env: StatsEnv, now: int, p: Period) returns (out: PeriodOut)
    ensures out == PeriodResult(a, rs, u, env, now, p)
  {
    var sessionCount := 0;
    var totalSessionTime := 0;
    var i := 0;
    while i < |rs|
      invariant 0 <= i <= |rs|
      invariant Tally(sessionCount, totalSessionTime) == SessionTally(rs[..i], u, env.afk, now, p)
    {
      assert rs[..i + 1][..i] == rs[..i];
      sessionCount, totalSessionTime := CountSession(sessionCount, totalSessionTime, rs[i], u, env.afk, now, p);
      i := i + 1;
    }
    assert rs[..i] == rs;
    var averageTime := if sessionCount > 0 then RoundDiv(totalSessionTime, sessionCount) else 0;
    out := PeriodOut(a.At(p).timeSpent, a.At(p).timeSpentAlone, a.At(p).timeAfk, averageTime, BestFriends(a.At(p).friends, env.members));
  }

  /** One record of the averaging loop, as the source writes it. */
  method CountSession(sessionCount: nat, totalSessionTime: int, r: Session, u: string, afk: Option<string>, now: int, p: Period)
    returns (count: nat, total: int)
    ensures Tally(count, total) == TallyStep(Tally(sessionCount, totalSessionTime), r, u, afk, now, p)
  {
    count, total := sessionCount, totalSessionTime;
    var ci := FindUserChannel(r.channels, u);
    if ci.Some? && !IsAfk(afk, r.channels[ci.value].channelId) {
      if p == AllTime {
        count := count + 1;
        total := total + (EndOr(r, now) - r.sessionStart);
      } else {
        var overlap := TimeUtils.CalculateOverlap(r.sessionStart, EndOr(r, now), now - WindowLength(p), now);
        if overlap > 0 {
          count := count + 1;
          total := total + overlap;
        }
      }
    }
  }
}
