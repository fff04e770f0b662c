/**
 * The older per-user statistics endpoint and the cached statistics lookup
 * (src/controllers/userStatsController.js).
 *
 * `recordUserStats` folds the guild's records containing the user into total time and
 * solo time for the last 24 hours, 7 days, 30 days and all time, plus the all-time
 * duration shared with every other member; the five longest companions are resolved
 * through the guild's member table. It knows no AFK channel; with none configured, its
 * figures are those of the statistics service.
 *
 * `getUserStats` serves the stored statistics document, computes it once when it is
 * missing and the user has activity, and answers 404 or 500 otherwise.
 */
module UserStatsController {
  import opened Wrappers
  import opened Ordering
  import opened JsCollections
  import opened GuildVoice
  import opened StatsService
  import TimeUtils

  /** The controller's own `calculateOverlap`. */
  function CalculateOverlap(sessionStart: int, sessionEnd: int, rangeStart: int, rangeEnd: int): (r: int)
    ensures r == TimeUtils.CalculateOverlap(sessionStart, sessionEnd, rangeStart, rangeEnd)
  {
    var overlapStart := if sessionStart >= rangeStart then sessionStart else rangeStart;
    var overlapEnd := if sessionEnd <= rangeEnd then sessionEnd else rangeEnd;
    if overlapEnd - overlapStart >= 0 then overlapEnd - overlapStart else 0
  }

  /** One of the `totalTime` or `soloTime` objects: `{ '24h', '7d', '30d', allTime }`. */
  datatype Times = Times(day: int, week: int, month: int, allTime: int)
  {
    function At(p: Period): int
    {
      match p
      case Last24h => day
      case Last7d => week
      case Last30d => month
      case AllTime => allTime
    }

    function Plus(p: Period, d: int): (r: Times)
      ensures forall q :: r.At(q) == At(q) + if q == p then d else 0
    {
      match p
      case Last24h => this.(day := day + d)
      case Last7d => this.(week := week + d)
      case Last30d => this.(month := month + d)
      case AllTime => this.(allTime := allTime + d)
    }
  }

  const NO_TIME: Times := Times(0, 0, 0, 0)

  /** The `stats` object and the `commonTime` Map, in insertion order. */
  datatype Running = Running(totalTime: Times, soloTime: Times, commonTime: seq<Entry>)

  const NOTHING_YET: Running := Running(NO_TIME, NO_TIME, [])

  /** The record's overlap with the range of period p, which ends at now. */
  function RangeOverlap(r: Session, now: int, p: Period): int
    requires p != AllTime
  {
    CalculateOverlap(r.sessionStart, EndOr(r, now), now - WindowLength(p), now)
  }

  /** `for (const key in ranges)`: every range receives its overlap, even a zero one. */
  function AddOverlaps(t: Times, ps: seq<Period>, r: Session, now: int): Times
    requires AllTime !in ps
  {
    if ps == [] then t
    else
      var p := ps[|ps| - 1];
      AddOverlaps(t, ps[..|ps| - 1], r, now).Plus(p, RangeOverlap(r, now, p))
  }

  /** All time receives the duration d, then each range its overlap. */
  function AddDuration(t: Times, r: Session, d: int, now: int): Times
  {
    AddOverlaps(t.Plus(AllTime, d), WINDOWS, r, now)
  }

  /**
   * One record: skipped without a channel holding the user; else the total grows, the
   * solo time grows in a channel of one, and in a channel of several every other member
   * gains the all-time duration.
   */
  function LegacyStep(st: Running, r: Session, u: string, now: int): Running
  {
    var ci := FindUserChannel(r.channels, u);
    if ci.None? then st
    else
      var ch := r.channels[ci.value];
      var d := EndOr(r, now) - r.sessionStart;
      Running(AddDuration(st.totalTime, r, d, now),
              if |ch.members| == 1 then AddDuration(st.soloTime, r, d, now) else st.soloTime,
              CommonStep(st.commonTime, r, u, d))
  }

  /** The members who gain common time from a record: those of the user's channel when it holds several. */
  function SharingMembers(r: Session, u: string): seq<Member>
  {
    var ci := FindUserChannel(r.channels, u);
    if ci.None? || |r.channels[ci.value].members| <= 1 then [] else r.channels[ci.value].members
  }

  /** What one record does to `commonTime`: every other sharing member gains the duration. */
  function CommonStep(common: seq<Entry>, r: Session, u: string, d: int): seq<Entry>
  {
    Companions(common, SharingMembers(r, u), u, d)
  }

  /** The tally after the records, in order. */
  function LegacyFold(rs: seq<Session>, u: string, now: int): Running
  {
    if rs == [] then NOTHING_YET else LegacyStep(LegacyFold(rs[..|rs| - 1], u, now), rs[|rs| - 1], u, now)
  }

  lemma {:induction false} AddOverlapsAt(t: Times, ps: seq<Period>, r: Session, now: int, q: Period)
    requires AllTime !in ps
    requires forall i, j :: 0 <= i < j < |ps| ==> ps[i] != ps[j]
    ensures AddOverlaps(t, ps, r, now).At(q) == t.At(q) + if q in ps then RangeOverlap(r, now, q) else 0
  {
    if ps != [] {
      var n := |ps| - 1;
      AddOverlapsAt(t, ps[..n], r, now, q);
      assert q in ps <==> q in ps[..n] || q == ps[n] by {
        assert ps == ps[..n] + [ps[n]];
      }
      assert ps[n] !in ps[..n];
    }
  }

  /** What AddDuration adds to period p: d over all time, the overlap in a range. */
  lemma AddDurationAt(t: Times, r: Session, d: int, now: int, p: Period)
    ensures AddDuration(t, r, d, now).At(p) == t.At(p) + if p == AllTime then d else WindowOverlap(r, now, p)
  {
    AddOverlapsAt(t.Plus(AllTime, d), WINDOWS, r, now, p);
  }

  /** A channel of one that holds u gives nobody companion time. */
  lemma AloneNoCompanions(t: seq<Entry>, ms: seq<Member>, u: string, d: int)
    requires |ms| == 1 && exists m :: m in ms && m.userId == u
    ensures Companions(t, ms, u, d) == t
  {
    assert ms[..0] == [];
  }

  // ----- Agreement with the statistics service -----

  /** One record changes the tally's times as it changes the service's period p without an AFK channel. */
  lemma LegacyStepTimes(st: Running, s: PeriodStats, r: Session, u: string, now: int, p: Period)
    requires st.totalTime.At(p) == s.timeSpent && st.soloTime.At(p) == s.timeSpentAlone
    ensures LegacyStep(st, r, u, now).totalTime.At(p) == PeriodRecordStep(s, r, u, None, now, p).timeSpent
    ensures LegacyStep(st, r, u, now).soloTime.At(p) == PeriodRecordStep(s, r, u, None, now, p).timeSpentAlone
  {
    var ci := FindUserChannel(r.channels, u);
    if ci.Some? {
      var ch := r.channels[ci.value];
      var d := EndOr(r, now) - r.sessionStart;
      AddDurationAt(st.totalTime, r, d, now, p);
      AddDurationAt(st.soloTime, r, d, now, p);
      assert !IsAfk(None, ch.channelId);
    }
  }

  /** One record changes `commonTime` as the service's all-time companion table without an AFK channel. */
  lemma LegacyStepCommon(st: Running, s: PeriodStats, r: Session, u: string, now: int)
    requires st.commonTime == s.friends
    ensures LegacyStep(st, r, u, now).commonTime == PeriodRecordStep(s, r, u, None, now, AllTime).friends
  {
    var ci := FindUserChannel(r.channels, u);
    if ci.Some? {
      var ch := r.channels[ci.value];
      assert !IsAfk(None, ch.channelId);
      if |ch.members| <= 1 {
        AloneNoCompanions(s.friends, ch.members, u, EndOr(r, now) - r.sessionStart);
      }
    }
  }

  /**
   * With no AFK channel the older endpoint agrees with the statistics service: its total
   * is the time spent, its solo time the time spent alone, in every period, and its
   * `commonTime` is the all-time companion table.
   */
  lemma {:induction false} LegacyMatchesService(rs: seq<Session>, u: string, now: int, p: Period)
    ensures LegacyFold(rs, u, now).totalTime.At(p) == PeriodFold(rs, u, None, now, p).timeSpent
    ensures LegacyFold(rs, u, now).soloTime.At(p) == PeriodFold(rs, u, None, now, p).timeSpentAlone
    ensures LegacyFold(rs, u, now).commonTime == PeriodFold(rs, u, None, now, AllTime).friends
  {
    if rs != [] {
      var n := |rs| - 1;
      LegacyMatchesService(rs[..n], u, now, p);
      LegacyStepTimes(LegacyFold(rs[..n], u, now), PeriodFold(rs[..n], u, None, now, p), rs[n], u, now, p);
      LegacyStepCommon(LegacyFold(rs[..n], u, now), PeriodFold(rs[..n], u, None, now, AllTime), rs[n], u, now);
    }
  }

  // ----- Properties of the tally -----

  /** `totalTime.allTime` is the sum of the durations of the records holding the user. */
  lemma TotalIsDuration(rs: seq<Session>, u: string, now: int)
    ensures LegacyFold(rs, u, now).totalTime.allTime == TotalDuration(rs, u, now)
  {
    LegacyMatchesService(rs, u, now, AllTime);
    PeriodConservation(rs, u, None, now);
    NoAfkChannelNoAfkTime(rs, u, now, AllTime);
  }

  /** Solo time never exceeds total time; over all time this needs records that run forward. */
  lemma SoloWithinTotal(rs: seq<Session>, u: string, now: int, p: Period)
    requires p == AllTime ==> WellFormed(rs, now)
    ensures 0 <= LegacyFold(rs, u, now).soloTime.At(p) <= LegacyFold(rs, u, now).totalTime.At(p)
  {
    LegacyMatchesService(rs, u, now, p);
    AloneWithinSpent(rs, u, None, now, p);
  }

  /** For records that run forward, no range holds more time than all time. */
  lemma RangeWithinAllTime(rs: seq<Session>, u: string, now: int, p: Period)
    requires p != AllTime && WellFormed(rs, now)
    ensures LegacyFold(rs, u, now).totalTime.At(p) <= LegacyFold(rs, u, now).totalTime.allTime
    ensures LegacyFold(rs, u, now).soloTime.At(p) <= LegacyFold(rs, u, now).soloTime.allTime
  {
    LegacyMatchesService(rs, u, now, p);
    LegacyMatchesService(rs, u, now, AllTime);
    WindowWithinAllTime(rs, u, None, now, p);
  }

  /** Member k's `commonTime` is the all-time duration of the records in which k shared the user's channel. */
  lemma CommonTimeIsShared(rs: seq<Session>, u: string, now: int, k: string)
    ensures Get(LegacyFold(rs, u, now).commonTime, k) == SharedTotal(rs, u, None, now, AllTime, k)
  {
    LegacyMatchesService(rs, u, now, AllTime);
    FriendTime(rs, u, None, now, AllTime, k);
  }

  /** Common time is symmetric when each user occupies one slot of each record. */
  lemma CommonTimeSymmetric(rs: seq<Session>, a: string, b: string, now: int)
    requires forall i :: 0 <= i < |rs| ==> UniqueMembership(rs[i])
    ensures Get(LegacyFold(rs, a, now).commonTime, b) == Get(LegacyFold(rs, b, now).commonTime, a)
  {
    CommonTimeIsShared(rs, a, now, b);
    CommonTimeIsShared(rs, b, now, a);
    SharedTotalSymmetric(rs, a, b, None, now, AllTime);
  }

  /** One record changes `commonTime` only through `Companions`. */
  lemma CommonStepDistinct(common: seq<Entry>, r: Session, u: string, d: int)
    requires DistinctKeys(common)
    ensures DistinctKeys(CommonStep(common, r, u, d))
  {
    CompanionsDistinct(common, SharingMembers(r, u), u, d);
  }

  lemma LegacyStepCommonTime(st: Running, r: Session, u: string, now: int)
    ensures LegacyStep(st, r, u, now).commonTime == CommonStep(st.commonTime, r, u, EndOr(r, now) - r.sessionStart)
  {
    var ci := FindUserChannel(r.channels, u);
    if ci.None? || |r.channels[ci.value].members| <= 1 {
      assert SharingMembers(r, u) == [];
    }
  }

  /** The `commonTime` Map has one entry per companion. */
  lemma {:induction false} CommonTimeDistinct(rs: seq<Session>, u: string, now: int)
    ensures DistinctKeys(LegacyFold(rs, u, now).commonTime)
  {
    if rs != [] {
      var n := |rs| - 1;
      CommonTimeDistinct(rs[..n], u, now);
      var prev := LegacyFold(rs[..n], u, now);
      LegacyStepCommonTime(prev, rs[n], u, now);
      CommonStepDistinct(prev.commonTime, rs[n], u, EndOr(rs[n], now) - rs[n].sessionStart);
    }
  }

  // ----- The five closest companions -----

  const MAX_TOP_FRIENDS: nat := 5

  /** `sortedFriends`: longest common time first, the first five. */
  function SortedFriends(common: seq<Entry>): seq<Entry>
  {
    Top(common, MAX_TOP_FRIENDS)
  }

  datatype TopFriend = TopFriend(id: string, name: string, commonTime: int)

  /** `member.nickname || member.user.username`, or the placeholder for a member that could not be fetched. */
  function DisplayName(id: string, members: map<string, Identity>): string
  {
    if id !in members then "Utilisateur Inconnu"
    else if members[id].nickname.Some? && members[id].nickname.value != "" then members[id].nickname.value
    else members[id].username
  }

  function ToTopFriend(e: Entry, members: map<string, Identity>): TopFriend
  {
    TopFriend(e.key, DisplayName(e.key, members), e.amount)
  }

  function TopFriends(common: seq<Entry>, members: map<string, Identity>): seq<TopFriend>
  {
    MapSeq(SortedFriends(common), e => ToTopFriend(e, members))
  }

  /** At most five friends, longest first, each with its common time from the Map and its display name. */
  lemma TopFriendsShape(common: seq<Entry>, members: map<string, Identity>)
    ensures var r := TopFriends(common, members);
            && |r| <= MAX_TOP_FRIENDS
            && |r| == (if |common| < MAX_TOP_FRIENDS then |common| else MAX_TOP_FRIENDS)
            && (forall i, j :: 0 <= i < j < |r| ==> r[i].commonTime >= r[j].commonTime)
            && forall i :: 0 <= i < |r| ==>
                 && Entry(r[i].id, SortedFriends(common)[i].name, r[i].commonTime) in common
                 && (r[i].id !in members ==> r[i].name == "Utilisateur Inconnu")
                 && (r[i].id in members ==> r[i].name in {members[r[i].id].username, members[r[i].id].nickname.GetOr("")})
  {
    TopShape(common, MAX_TOP_FRIENDS);
  }

  /** Top five: a companion that is not listed has no more common time than any listed one. */
  lemma TopFriendsTop(common: seq<Entry>, members: map<string, Identity>, e: Entry)
    requires e in common
    requires forall i :: 0 <= i < |TopFriends(common, members)| ==> TopFriends(common, members)[i].id != e.key
    ensures forall i :: 0 <= i < |TopFriends(common, members)| ==> e.amount <= TopFriends(common, members)[i].commonTime
  {
    var t := SortedFriends(common);
    forall i | 0 <= i < |t| ensures t[i] != e {
      assert TopFriends(common, members)[i] == ToTopFriend(t[i], members);
    }
    TopIsTop(common, MAX_TOP_FRIENDS, e);
  }

  // ----- recordUserStats -----

  /** The Discord side of the endpoint: whether the guild can be fetched, and its fetchable members. */
  datatype GuildLookup = GuildLookup(guildFound: bool, members: map<string, Identity>)

  /** The JSON answer, or the 500 answer. */
  datatype Reply = StatsReply(totalTime: Times, soloTime: Times, topFriends: seq<TopFriend>) | CalcError

  /** The answer of `recordUserStats` for user u of guild g over the store rs at time now. */
  function UserStatsReply(rs: seq<Session>, g: string, u: string, env: GuildLookup, now: int): Reply
  {
    var st := LegacyFold(UserSessions(rs, g, u), u, now);
    var sorted := SortedFriends(st.commonTime);
    if |sorted| > 0 && !env.guildFound then CalcError
    else StatsReply(st.totalTime, st.soloTime, TopFriends(st.commonTime, env.members))
  }

  /** The guild is fetched only when there are friends: the answer is 500 exactly when it is needed and missing. */
  lemma ReplyFailsIff(rs: seq<Session>, g: string, u: string, env: GuildLookup, now: int)
    ensures UserStatsReply(rs, g, u, env, now).CalcError?
        <==> LegacyFold(UserSessions(rs, g, u), u, now).commonTime != [] && !env.guildFound
  {
    TopShape(LegacyFold(UserSessions(rs, g, u), u, now).commonTime, MAX_TOP_FRIENDS);
  }

  /** A successful answer reports the durations of the user's records of the guild, as the service counts them. */
  lemma ReplyTimes(rs: seq<Session>, g: string, u: string, env: GuildLookup, now: int, p: Period)
    requires UserStatsReply(rs, g, u, env, now).StatsReply?
    ensures var reply := UserStatsReply(rs, g, u, env, now);
            var mine := UserSessions(rs, g, u);
            && reply.totalTime.allTime == TotalDuration(mine, u, now)
            && reply.totalTime.At(p) == PeriodFold(mine, u, None, now, p).timeSpent
            && reply.soloTime.At(p) == PeriodFold(mine, u, None, now, p).timeSpentAlone
  {
    var mine := UserSessions(rs, g, u);
    TotalIsDuration(mine, u, now);
    LegacyMatchesService(mine, u, now, p);
  }

  /** Each friend of a successful answer carries the all-time duration shared with the user. */
  lemma ReplyFriendTime(rs: seq<Session>, g: string, u: string, env: GuildLookup, now: int, i: nat)
    requires UserStatsReply(rs, g, u, env, now).StatsReply?
    requires i < |UserStatsReply(rs, g, u, env, now).topFriends|
    ensures var f := UserStatsReply(rs, g, u, env, now).topFriends[i];
            f.commonTime == SharedTotal(UserSessions(rs, g, u), u, None, now, AllTime, f.id)
  {
    var mine := UserSessions(rs, g, u);
    var st := LegacyFold(mine, u, now);
    var f := UserStatsReply(rs, g, u, env, now).topFriends[i];
    TopFriendsShape(st.commonTime, env.members);
    CommonTimeDistinct(mine, u, now);
    var e := Entry(f.id, SortedFriends(st.commonTime)[i].name, f.commonTime);
    assert e in st.commonTime;
    var j :| 0 <= j < |st.commonTime| && st.commonTime[j] == e;
    GetFirst(st.commonTime, f.id, j);
    CommonTimeIsShared(mine, u, now, f.id);
  }

  /** `recordUserStats(guildId, userId)`. */
  method RecordUserStats(rs: seq<Session>, g: string, u: string, env: GuildLookup, now: int) returns (reply: Reply)
    ensures reply == UserStatsReply(rs, g, u, env, now)
  {
    var userSessions := UserSessions(rs, g, u);
    var st := TallyRecords(userSessions, u, now);
    var sortedFriends := SortedFriends(st.commonTime);
    var topFriends: seq<TopFriend> := [];
    if |sortedFriends| > 0 {
      if !env.guildFound {
        return CalcError;
      }
      topFriends := ResolveFriends(sortedFriends, env.members);
    }
    reply := StatsReply(st.totalTime, st.soloTime, topFriends);
  }

  /** The loop over the user's records. */
  method TallyRecords(rs: seq<Session>, u: string, now: int) returns (st: Running)
    ensures st == LegacyFold(rs, u, now)
  {
    st := NOTHING_YET;
    var i := 0;
    while i < |rs|
      invariant 0 <= i <= |rs|
      invariant st == LegacyFold(rs[..i], u, now)
    {
      assert rs[..i + 1][..i] == rs[..i];
      st := AddRecord(st, rs[i], u, now);
      i := i + 1;
    }
    assert rs[..i] == rs;
  }

  /** The `topFriends.push` loop over the sorted friends. */
  method ResolveFriends(sortedFriends: seq<Entry>, members: map<string, Identity>) returns (topFriends: seq<TopFriend>)
    ensures topFriends == MapSeq(sortedFriends, e => ToTopFriend(e, members))
  {
    topFriends := [];
    var k := 0;
    while k < |sortedFriends|
      invariant 0 <= k <= |sortedFriends|
      invariant |topFriends| == k
      invariant forall j :: 0 <= j < k ==> topFriends[j] == ToTopFriend(sortedFriends[j], members)
    {
      var e := sortedFriends[k];
      topFriends := topFriends + [TopFriend(e.key, DisplayName(e.key, members), e.amount)];
      k := k + 1;
    }
  }

  /** The loop body for one record. */
  method AddRecord(st: Running, r: Session, u: string, now: int) returns (st': Running)
    ensures st' == LegacyStep(st, r, u, now)
  {
    var ci := FindUserChannel(r.channels, u);
    if ci.None? {
      return st;
    }
    var ch := r.channels[ci.value];
    var duration := EndOr(r, now) - r.sessionStart;
    var totalTime := AddRanges(st.totalTime, r, duration, now);
    var soloTime := st.soloTime;
    if |ch.members| == 1 {
      soloTime := AddRanges(soloTime, r, duration, now);
    }
    var commonTime := st.commonTime;
    if |ch.members| > 1 {
      var j := 0;
      while j < |ch.members|
        invariant 0 <= j <= |ch.members|
        invariant commonTime == Companions(st.commonTime, ch.members[..j], u, duration)
      {
        assert ch.members[..j + 1][..j] == ch.members[..j];
        var m := ch.members[j];
        if m.userId != u {
          commonTime := Bump(commonTime, m.userId, m.userId, duration);
        }
        j := j + 1;
      }
      assert ch.members[..j] == ch.members;
    }
    st' := Running(totalTime, soloTime, commonTime);
  }

  /** All time receives the duration, then the `ranges` loop adds each overlap. */
  method AddRanges(t: Times, r: Session, duration: int, now: int) returns (t': Times)
    ensures t' == AddDuration(t, r, duration, now)
  {
    t' := t.Plus(AllTime, duration);
    ghost var t1 := t';
    var k := 0;
    while k < |WINDOWS|
      invariant 0 <= k <= |WINDOWS|
      invariant t' == AddOverlaps(t1, WINDOWS[..k], r, now)
    {
      assert WINDOWS[..k + 1][..k] == WINDOWS[..k];
      var p := WINDOWS[k];
      t' := t'.Plus(p, CalculateOverlap(r.sessionStart, EndOr(r, now), now - WindowLength(p), now));
      k := k + 1;
    }
    assert WINDOWS[..k] == WINDOWS;
  }

  // ----- getUserStats -----

  /** The answer: the document, 404 for a user without activity, or 500. */
  datatype Lookup = Served(doc: UserStatsDoc) | NoActivity | LookupFailed

  /**
   * `getUserStats`: the stored document when there is one; else 404 without records of
   * the user; else one computation for the user and the document read back, or 500 when
   * it is still missing. The second half is the store afterwards.
   */
  function GetUserStatsOutcome(docs: map<DocKey, UserStatsDoc>, rs: seq<Session>, g: string, u: string, env: StatsEnv, now: int): (Lookup, map<DocKey, UserStatsDoc>)
  {
    if (g, u) in docs then (Served(docs[(g, u)]), docs)
    else if UserSessions(rs, g, u) == [] then (NoActivity, docs)
    else
      var docs' := SaveStats(docs, rs, g, Some([u]), env, now);
      if (g, u) in docs' then (Served(docs'[(g, u)]), docs') else (LookupFailed, docs')
  }

  /** A stored document is served as it is, and nothing is computed. */
  lemma CachedServed(docs: map<DocKey, UserStatsDoc>, rs: seq<Session>, g: string, u: string, env: StatsEnv, now: int)
    requires (g, u) in docs
    ensures GetUserStatsOutcome(docs, rs, g, u, env, now) == (Served(docs[(g, u)]), docs)
  {
  }

  /** Without a stored document: 404 exactly when the user has no record in the guild, and then nothing is written. */
  lemma NoActivityIff(docs: map<DocKey, UserStatsDoc>, rs: seq<Session>, g: string, u: string, env: StatsEnv, now: int)
    requires (g, u) !in docs
    ensures GetUserStatsOutcome(docs, rs, g, u, env, now).0.NoActivity? <==> UserSessions(rs, g, u) == []
    ensures UserSessions(rs, g, u) == [] ==> GetUserStatsOutcome(docs, rs, g, u, env, now).1 == docs
  {
  }

  /** A missing document of an active user is computed from their records, stored and served. */
  lemma ComputedOnMiss(docs: map<DocKey, UserStatsDoc>, rs: seq<Session>, g: string, u: string, env: StatsEnv, now: int)
    requires (g, u) !in docs && UserSessions(rs, g, u) != []
    requires env.ready && env.guildFound
    ensures var doc := UserDoc(UserSessions(rs, g, u), u, env, now);
            GetUserStatsOutcome(docs, rs, g, u, env, now) == (Served(doc), docs[(g, u) := doc])
  {
    var doc := UserDoc(UserSessions(rs, g, u), u, env, now);
    assert [u][..0] == [];
    assert SaveUsers(docs, rs, g, [u], env, now) == docs[(g, u) := doc];
  }

  /** 500 exactly when the document is missing, the user is active, and the computation cannot write it. */
  lemma FailedIff(docs: map<DocKey, UserStatsDoc>, rs: seq<Session>, g: string, u: string, env: StatsEnv, now: int)
    ensures GetUserStatsOutcome(docs, rs, g, u, env, now).0.LookupFailed?
        <==> (g, u) !in docs && UserSessions(rs, g, u) != [] && !(env.ready && env.guildFound)
    ensures GetUserStatsOutcome(docs, rs, g, u, env, now).0.LookupFailed? ==> GetUserStatsOutcome(docs, rs, g, u, env, now).1 == docs
  {
    if (g, u) !in docs && UserSessions(rs, g, u) != [] && env.ready && env.guildFound {
      ComputedOnMiss(docs, rs, g, u, env, now);
    }
  }

  /** Asking again serves the same document without computing anything. */
  lemma SecondLookupCached(docs: map<DocKey, UserStatsDoc>, rs: seq<Session>, g: string, u: string, env: StatsEnv, now: int, env2: StatsEnv, now2: int)
    requires GetUserStatsOutcome(docs, rs, g, u, env, now).0.Served?
    ensures var o := GetUserStatsOutcome(docs, rs, g, u, env, now);
            GetUserStatsOutcome(o.1, rs, g, u, env2, now2) == o
  {
  }

  /** `getUserStats(guildId, userId)` against the statistics store. */
  method GetUserStats(store: StatsStore, rs: seq<Session>, g: string, u: string, env: StatsEnv, now: int) returns (answer: Lookup)
    modifies store
    ensures (answer, store.docs) == GetUserStatsOutcome(old(store.docs), rs, g, u, env, now)
  {
    if (g, u) in store.docs {
      return Served(store.docs[(g, u)]);
    }
    var activity := UserSessions(rs, g, u);
    if |activity| == 0 {
      return NoActivity;
    }
    store.CalculateAndSaveStatsForUsers(rs, g, Some([u]), env, now);
    if (g, u) !in store.docs {
      return LookupFailed;
    }
    answer := Served(store.docs[(g, u)]);
  }

  // ----- The background recomputations -----

  /** `HTTP 202 Accepted`: the answer of the endpoints that start a recomputation. */
  const ACCEPTED: nat := 202

  /** `UserStats.deleteMany({ guildId })`. */
  function DropGuild(docs: map<DocKey, UserStatsDoc>, g: string): map<DocKey, UserStatsDoc>
  {
    map key | key in docs && key.0 != g :: docs[key]
  }

  /** `forceRecalculateAllStats`: the guild's documents deleted, then every user seen in the guild recomputed. */
  function ForceRecalculated(docs: map<DocKey, UserStatsDoc>, rs: seq<Session>, g: string, env: StatsEnv, now: int): map<DocKey, UserStatsDoc>
  {
    RecomputeAll(DropGuild(docs, g), rs, g, env, now)
  }

  /**
   * After a forced recalculation with Discord available, the guild's documents are
   * exactly those of the users with records, each freshly computed from them; a stale
   * document of a user without records is gone. Other guilds keep theirs.
   */
  lemma ForceRecalculatedSpec(docs: map<DocKey, UserStatsDoc>, rs: seq<Session>, g: string, env: StatsEnv, now: int, key: DocKey)
    requires env.ready && env.guildFound
    ensures var r := ForceRecalculated(docs, rs, g, env, now);
            && (key.0 == g ==> (key in r <==> UserSessions(rs, g, key.1) != []))
            && (key.0 == g && key in r ==> r[key] == UserDoc(UserSessions(rs, g, key.1), key.1, env, now))
            && (key.0 != g ==> (key in r <==> key in docs) && (key in docs ==> r[key] == docs[key]))
  {
    var d := DropGuild(docs, g);
    RecomputeAllKeys(d, rs, g, env, now, key);
    if key in d || (key.0 == g && UserSessions(rs, g, key.1) != []) {
      RecomputeAllDocs(d, rs, g, env, now, key);
    }
  }

  /** With the client not ready or the guild not fetched, a forced recalculation leaves the guild with no document at all. */
  lemma ForceRecalculatedWithoutDiscord(docs: map<DocKey, UserStatsDoc>, rs: seq<Session>, g: string, env: StatsEnv, now: int, key: DocKey)
    requires !env.ready || !env.guildFound
    ensures var r := ForceRecalculated(docs, rs, g, env, now);
            && (key.0 == g ==> key !in r)
            && (key.0 != g ==> (key in r <==> key in docs))
  {
    SaveStatsNoWrite(DropGuild(docs, g), rs, g, Some(DistinctUserIds(rs, g)), env, now);
  }

  /** `updateAllUserStats`: answers 202; the recomputation of every user seen in the guild runs behind it. */
  method UpdateAllUserStats(store: StatsStore, rs: seq<Session>, g: string, env: StatsEnv, now: int) returns (status: nat)
    modifies store
    ensures status == ACCEPTED
    ensures store.docs == RecomputeAll(old(store.docs), rs, g, env, now)
  {
    store.UpdateAllUserStats(rs, g, env, now);
    status := ACCEPTED;
  }

  /** `updateUserStatsById`: answers 202; the recomputation of that one user runs behind it. */
  method UpdateUserStatsById(store: StatsStore, rs: seq<Session>, g: string, u: string, env: StatsEnv, now: int) returns (status: nat)
    modifies store
    ensures status == ACCEPTED
    ensures store.docs == SaveStats(old(store.docs), rs, g, Some([u]), env, now)
  {
    store.CalculateAndSaveStatsForUsers(rs, g, Some([u]), env, now);
    status := ACCEPTED;
  }

  /** `forceRecalculateAllStats`: answers 202; the deletion and the recomputation run behind it. */
  method ForceRecalculateAllStats(store: StatsStore, rs: seq<Session>, g: string, env: StatsEnv, now: int) returns (status: nat)
    modifies store
    ensures status == ACCEPTED
    ensures store.docs == ForceRecalculated(old(store.docs), rs, g, env, now)
  {
    store.docs := DropGuild(store.docs, g);
    store.UpdateAllUserStats(rs, g, env, now);
    status := ACCEPTED;
  }
}
