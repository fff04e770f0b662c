/**
 * The cleanup sweeper (src/services/sessionCleanupService.js).
 *
 * Every two minutes the sweeper looks at the open records and closes those whose state
 * has evidently ended: a newer record of the same guild exists, or the record is older
 * than the timeout and Discord shows nobody in the guild's voice channels. The database
 * query for a newer record and the Discord cache are inputs here.
 */
module SessionCleanup {
  import opened Wrappers
  import opened GuildVoice
  import opened JsCollections
  import VoiceController

  const CLEANUP_INTERVAL: int := 2 * 60 * 1000
  const SESSION_TIMEOUT: int := 5 * 60 * 1000
  const MINIMUM_SESSION_AGE: int := 3 * 60 * 1000

  /** A cached guild channel: its Discord type and its member count, None when it has no member collection. */
  datatype CachedChannel = CachedChannel(channelType: int, members: Option<nat>)

  /** The Discord client as the sweeper sees it: whether it is ready, and the cached guilds' channels. */
  datatype DiscordView = DiscordView(ready: bool, guilds: map<string, seq<CachedChannel>>)

  const GUILD_VOICE: int := 2

  /** Members summed over the voice channels (type 2); a channel without a member collection counts 0. */
  function VoiceMemberTotal(chs: seq<CachedChannel>): nat
  {
    if chs == [] then 0
    else (if chs[0].channelType == GUILD_VOICE then chs[0].members.GetOr(0) else 0) + VoiceMemberTotal(chs[1..])
  }

  lemma {:induction false} VoiceMemberTotalZero(chs: seq<CachedChannel>)
    ensures VoiceMemberTotal(chs) == 0 <==>
            forall i :: 0 <= i < |chs| && chs[i].channelType == GUILD_VOICE ==> chs[i].members.GetOr(0) == 0
  {
    if chs != [] {
      VoiceMemberTotalZero(chs[1..]);
      assert forall i :: 1 <= i < |chs| ==> chs[i] == chs[1..][i - 1];
    }
  }

  /**
   * `shouldCloseSession`. `newer` is the answer of the newer-record query, None when
   * the query fails (the failure is caught and the session kept).
   */
  function ShouldCloseSession(s: Session, now: int, newer: Option<bool>, discord: DiscordView): (r: bool)
    // too young: never closed, whatever the other inputs
    ensures now - s.sessionStart < MINIMUM_SESSION_AGE ==> !r
    // old enough and replaced by a newer record: closed
    ensures now - s.sessionStart >= MINIMUM_SESSION_AGE && newer == Some(true) ==> r
    // no newer record and not past the timeout (a strict comparison): kept
    ensures newer == Some(false) && now - s.sessionStart <= SESSION_TIMEOUT ==> !r
    // a failed query keeps the session
    ensures newer.None? ==> !r
    // stale without a successor: kept while the client is not ready, closed when the guild is not cached,
    // and otherwise closed exactly when nobody is in a voice channel
    ensures newer == Some(false) && now - s.sessionStart > SESSION_TIMEOUT ==>
              (!discord.ready ==> !r)
              && (discord.ready && s.guildId !in discord.guilds ==> r)
              && (discord.ready && s.guildId in discord.guilds ==> (r <==> VoiceMemberTotal(discord.guilds[s.guildId]) == 0))
  {
    var age := now - s.sessionStart;
    if age < MINIMUM_SESSION_AGE then false
    else if newer.None? then false
    else if newer.value then true
    else if age > SESSION_TIMEOUT then
      if !discord.ready then false
      else if s.guildId !in discord.guilds then true
      else VoiceMemberTotal(discord.guilds[s.guildId]) == 0
    else false
  }

  /**
   * A closed session was old enough and either had a successor, or was past the timeout
   * with the client ready and the guild gone or its voice channels all empty.
   */
  lemma ShouldCloseSafety(s: Session, now: int, newer: Option<bool>, discord: DiscordView)
    requires ShouldCloseSession(s, now, newer, discord)
    ensures now - s.sessionStart >= MINIMUM_SESSION_AGE
    ensures newer == Some(true)
            || (now - s.sessionStart > SESSION_TIMEOUT && discord.ready
                && (s.guildId in discord.guilds ==>
                      forall i :: 0 <= i < |discord.guilds[s.guildId]| && discord.guilds[s.guildId][i].channelType == GUILD_VOICE
                                  ==> discord.guilds[s.guildId][i].members.GetOr(0) == 0))
  {
    if newer != Some(true) && s.guildId in discord.guilds {
      VoiceMemberTotalZero(discord.guilds[s.guildId]);
    }
  }

  /** `findOne({ guildId, sessionStart: { $gt: start } })` finds a record. */
  predicate HasNewer(rs: seq<Session>, s: Session)
  {
    exists j :: 0 <= j < |rs| && rs[j].guildId == s.guildId && rs[j].sessionStart > s.sessionStart
  }

  /** Two stores that differ at most in `sessionEnd` and `channels`. */
  predicate SameStarts(a: seq<Session>, b: seq<Session>)
  {
    |a| == |b| && forall j :: 0 <= j < |a| ==> a[j].guildId == b[j].guildId && a[j].sessionStart == b[j].sessionStart
  }

  /** Closing records changes no answer of the newer-record query, so the sweep's order does not matter. */
  lemma HasNewerIgnoresEnds(a: seq<Session>, b: seq<Session>, s: Session)
    requires SameStarts(a, b)
    ensures HasNewer(a, s) == HasNewer(b, s)
  {
    if HasNewer(a, s) {
      var j :| 0 <= j < |a| && a[j].guildId == s.guildId && a[j].sessionStart > s.sessionStart;
      assert b[j].guildId == s.guildId && b[j].sessionStart > s.sessionStart;
    }
    if HasNewer(b, s) {
      var j :| 0 <= j < |b| && b[j].guildId == s.guildId && b[j].sessionStart > s.sessionStart;
      assert a[j].guildId == s.guildId && a[j].sessionStart > s.sessionStart;
    }
  }

  /**
   * A successor created in the same minute has the same start, and `$gt` is strict:
   * it does not count as newer.
   */
  lemma SameMinuteSuccessorIsNotNewer(s: Session, t: Session)
    requires t.guildId == s.guildId && t.sessionStart == s.sessionStart
    ensures !HasNewer([s, t], s)
  {
  }

  /**
   * While every open record of a guild is its latest record (what ingest maintains),
   * an open record never has a newer one: only the timeout rule can close it.
   */
  lemma NewerRuleIdleUnderIngest(rs: seq<Session>, i: nat)
    requires i < |rs| && rs[i].sessionEnd.None?
    requires VoiceController.OpenIsLatest(rs, rs[i].guildId)
    ensures !HasNewer(rs, rs[i])
  {
    VoiceController.LatestIndexSpec(rs, rs[i].guildId);
  }

  // ----- performCleanup -----

  /** A stats recomputation triggered for a guild and a list of users. */
  datatype Recompute = Recompute(guildId: string, userIds: seq<string>)

  datatype CleanupReport = CleanupReport(closed: nat, errors: nat, recomputes: seq<Recompute>)

  /** The sweep's inputs besides the store and the time. */
  datatype SweepInputs = SweepInputs(
    findFails: bool,         // the open-records query fails: nothing is done
    queryFaults: set<nat>,   // records whose newer-record query fails
    saveFaults: set<nat>,    // records whose save fails
    discord: DiscordView)

  /** The sweep decides to close record i. */
  predicate Decides(rs: seq<Session>, i: nat, now: int, inp: SweepInputs)
    requires i < |rs|
  {
    && !inp.findFails
    && rs[i].sessionEnd.None?
    && ShouldCloseSession(rs[i], now, if i in inp.queryFaults then None else Some(HasNewer(rs, rs[i])), inp.discord)
  }

  /** The sweep closes record i: it decides so and the save succeeds. */
  predicate Closes(rs: seq<Session>, i: nat, now: int, inp: SweepInputs)
    requires i < |rs|
  {
    Decides(rs, i, now, inp) && i !in inp.saveFaults
  }

  /** Record i after the sweep. */
  function Swept(rs: seq<Session>, i: nat, now: int, inp: SweepInputs): Session
    requires i < |rs|
  {
    if Closes(rs, i, now, inp) then rs[i].(sessionEnd := Some(now)) else rs[i]
  }

  /** The users to recompute for a closed record: `[...new Set(channels.flatMap(members' ids))]`. */
  function AffectedUsers(s: Session): seq<string>
  {
    Dedup(AllMemberIds(s.channels))
  }

  /** The report after visiting the first n records. */
  function ReportUpTo(rs: seq<Session>, n: nat, now: int, inp: SweepInputs): CleanupReport
    requires n <= |rs|
  {
    if n == 0 then CleanupReport(0, 0, [])
    else
      var r := ReportUpTo(rs, n - 1, now, inp);
      var i := n - 1;
      if !Decides(rs, i, now, inp) then r
      else if i in inp.saveFaults then r.(errors := r.errors + 1)
      else
        var ids := AffectedUsers(rs[i]);
        r.(closed := r.closed + 1, recomputes := r.recomputes + if |ids| > 0 then [Recompute(rs[i].guildId, ids)] else [])
  }

  /** Number of records among the first n that the sweep decides to close. */
  function DecidedCount(rs: seq<Session>, n: nat, now: int, inp: SweepInputs): nat
    requires n <= |rs|
  {
    if n == 0 then 0 else DecidedCount(rs, n - 1, now, inp) + if Decides(rs, n - 1, now, inp) then 1 else 0
  }

  /** Every decided record is counted once, as closed or as an error; at most one recompute per closed record. */
  lemma {:induction false} ReportCounts(rs: seq<Session>, n: nat, now: int, inp: SweepInputs)
    requires n <= |rs|
    ensures var r := ReportUpTo(rs, n, now, inp);
            && r.closed + r.errors == DecidedCount(rs, n, now, inp)
            && |r.recomputes| <= r.closed
  {
    if n > 0 {
      ReportCounts(rs, n - 1, now, inp);
    }
  }

  /** The recompute rc is for a record among the first n that was closed and has members, with its distinct member ids. */
  predicate RecomputeFor(rs: seq<Session>, n: nat, now: int, inp: SweepInputs, rc: Recompute)
    requires n <= |rs|
  {
    exists i :: 0 <= i < n && Closes(rs, i, now, inp) && rc == Recompute(rs[i].guildId, AffectedUsers(rs[i])) && |AffectedUsers(rs[i])| > 0
  }

  lemma RecomputeForGrows(rs: seq<Session>, m: nat, n: nat, now: int, inp: SweepInputs, rc: Recompute)
    requires m <= n <= |rs|
    requires RecomputeFor(rs, m, now, inp, rc)
    ensures RecomputeFor(rs, n, now, inp, rc)
  {
    var i :| 0 <= i < m && Closes(rs, i, now, inp) && rc == Recompute(rs[i].guildId, AffectedUsers(rs[i])) && |AffectedUsers(rs[i])| > 0;
    assert i < n;
  }

  /** Every closed record that has members gets its recompute, with its distinct member ids. */
  lemma {:induction false} ReportRecomputesComplete(rs: seq<Session>, n: nat, now: int, inp: SweepInputs)
    requires n <= |rs|
    ensures forall i :: 0 <= i < n && Closes(rs, i, now, inp) && |AffectedUsers(rs[i])| > 0 ==>
              Recompute(rs[i].guildId, AffectedUsers(rs[i])) in ReportUpTo(rs, n, now, inp).recomputes
  {
    if n > 0 {
      ReportRecomputesComplete(rs, n - 1, now, inp);
      var p := ReportUpTo(rs, n - 1, now, inp);
      var r := ReportUpTo(rs, n, now, inp);
      assert r.recomputes[..|p.recomputes|] == p.recomputes;
      forall i | 0 <= i < n && Closes(rs, i, now, inp) && |AffectedUsers(rs[i])| > 0
        ensures Recompute(rs[i].guildId, AffectedUsers(rs[i])) in r.recomputes
      {
        if i < n - 1 {
          var rc := Recompute(rs[i].guildId, AffectedUsers(rs[i]));
          var k :| 0 <= k < |p.recomputes| && p.recomputes[k] == rc;
          assert r.recomputes[k] == rc;
        } else {
          assert r.recomputes == p.recomputes + [Recompute(rs[i].guildId, AffectedUsers(rs[i]))];
        }
      }
    }
  }

  /**
   * A recompute is requested exactly for the closed records that have members: every
   * recompute is for such a record, with its distinct member ids, and every such record
   * gets one.
   */
  lemma ReportRecomputes(rs: seq<Session>, n: nat, now: int, inp: SweepInputs)
    requires n <= |rs|
    ensures forall k :: 0 <= k < |ReportUpTo(rs, n, now, inp).recomputes| ==> RecomputeFor(rs, n, now, inp, ReportUpTo(rs, n, now, inp).recomputes[k])
    ensures forall i :: 0 <= i < n && Closes(rs, i, now, inp) && |AffectedUsers(rs[i])| > 0 ==>
              Recompute(rs[i].guildId, AffectedUsers(rs[i])) in ReportUpTo(rs, n, now, inp).recomputes
  {
    ReportRecomputesSound(rs, n, now, inp);
    ReportRecomputesComplete(rs, n, now, inp);
  }

  /** Every recompute is for a closed record that has members, with its distinct member ids. */
  lemma {:induction false} ReportRecomputesSound(rs: seq<Session>, n: nat, now: int, inp: SweepInputs)
    requires n <= |rs|
    ensures forall k :: 0 <= k < |ReportUpTo(rs, n, now, inp).recomputes| ==> RecomputeFor(rs, n, now, inp, ReportUpTo(rs, n, now, inp).recomputes[k])
  {
    if n > 0 {
      ReportRecomputesSound(rs, n - 1, now, inp);
      var p := ReportUpTo(rs, n - 1, now, inp);
      var r := ReportUpTo(rs, n, now, inp);
      assert r.recomputes[..|p.recomputes|] == p.recomputes;
      forall k | 0 <= k < |r.recomputes| ensures RecomputeFor(rs, n, now, inp, r.recomputes[k]) {
        if k < |p.recomputes| {
          assert r.recomputes[k] == p.recomputes[k];
          RecomputeForGrows(rs, n - 1, n, now, inp, r.recomputes[k]);
        } else {
          assert Closes(rs, n - 1, now, inp);
          assert r.recomputes[k] == Recompute(rs[n - 1].guildId, AffectedUsers(rs[n - 1]));
        }
      }
    }
  }

  /** The affected users are each member of the record's channels, once. */
  lemma AffectedUsersSpec(s: Session)
    ensures forall u :: u in AffectedUsers(s) <==> exists i :: 0 <= i < |s.channels| && HasMember(s.channels[i], u)
    ensures forall a, b :: 0 <= a < b < |AffectedUsers(s)| ==> AffectedUsers(s)[a] != AffectedUsers(s)[b]
  {
  }

  /** `performCleanup` over the store at time `now`. */
  method PerformCleanup(store: VoiceController.SessionStore, now: int, inp: SweepInputs) returns (report: CleanupReport)
    modifies store
    ensures |store.records| == |old(store.records)|
    ensures forall i :: 0 <= i < |store.records| ==> store.records[i] == Swept(old(store.records), i, now, inp)
    ensures report == ReportUpTo(old(store.records), |old(store.records)|, now, inp)
  {
    var rs := store.records;
    report := CleanupReport(0, 0, []);
    if inp.findFails {
      assert ReportUpTo(rs, |rs|, now, inp) == report by { ReportWithoutFind(rs, |rs|, now, inp); }
      return;
    }
    var i := 0;
    while i < |rs|
      invariant 0 <= i <= |rs|
      invariant SameStarts(store.records, rs)
      invariant forall j :: 0 <= j < i ==> store.records[j] == Swept(rs, j, now, inp)
      invariant forall j :: i <= j < |rs| ==> store.records[j] == rs[j]
      invariant report == ReportUpTo(rs, i, now, inp)
    {
      report := SweepRecord(store, rs, i, now, inp, report);
      i := i + 1;
    }
  }

  /** The loop body for record i: an open record the rule closes is saved closed, or counted as an error. */
  method SweepRecord(store: VoiceController.SessionStore, rs: seq<Session>, i: nat, now: int, inp: SweepInputs, report0: CleanupReport)
      returns (report: CleanupReport)
    requires !inp.findFails && i < |rs|
    requires SameStarts(store.records, rs) && store.records[i] == rs[i]
    requires report0 == ReportUpTo(rs, i, now, inp)
    modifies store
    ensures store.records == old(store.records)[i := Swept(rs, i, now, inp)]
    ensures report == ReportUpTo(rs, i + 1, now, inp)
  {
    report := report0;
    var s := store.records[i];
    if s.sessionEnd.None? {
      var newer: Option<bool> := None;
      if i !in inp.queryFaults {
        HasNewerIgnoresEnds(store.records, rs, s);
        newer := Some(HasNewer(store.records, s));
      }
      var shouldClose := ShouldCloseSession(s, now, newer, inp.discord);
      if shouldClose {
        if i in inp.saveFaults {
          report := report.(errors := report.errors + 1);
        } else {
          store.records := store.records[i := s.(sessionEnd := Some(now))];
          var ids := AffectedUsers(s);
          if |ids| > 0 {
            report := report.(closed := report.closed + 1, recomputes := report.recomputes + [Recompute(s.guildId, ids)]);
          } else {
            report := report.(closed := report.closed + 1);
          }
        }
      }
    }
  }

  lemma {:induction false} ReportWithoutFind(rs: seq<Session>, n: nat, now: int, inp: SweepInputs)
    requires n <= |rs| && inp.findFails
    ensures ReportUpTo(rs, n, now, inp) == CleanupReport(0, 0, [])
  {
    if n > 0 {
      ReportWithoutFind(rs, n - 1, now, inp);
    }
  }

  /** A sweep never closes a record younger than the minimum age, nor reopens or moves any record. */
  lemma SweepSafety(rs: seq<Session>, i: nat, now: int, inp: SweepInputs)
    requires i < |rs|
    ensures now - rs[i].sessionStart < MINIMUM_SESSION_AGE ==> Swept(rs, i, now, inp) == rs[i]
    ensures rs[i].sessionEnd.Some? ==> Swept(rs, i, now, inp) == rs[i]
    ensures Swept(rs, i, now, inp).guildId == rs[i].guildId && Swept(rs, i, now, inp).sessionStart == rs[i].sessionStart
    ensures Swept(rs, i, now, inp) != rs[i] ==> Swept(rs, i, now, inp) == rs[i].(sessionEnd := Some(now))
  {
  }

  // ----- The timer flag -----

  /** The module-level `cleanupTimer`, reduced to whether a timer exists. */
  class CleanupService {
    var timerActive: bool

    constructor()
      ensures !timerActive
    {
      timerActive := false;
    }

    /**
     * `startCleanupService`: a no-op while a timer exists; otherwise a sweep runs at once
     * (`sweepNow`) and the periodic timer is set.
     */
    method Start() returns (sweepNow: bool)
      modifies this
      ensures sweepNow == !old(timerActive)
      ensures timerActive
    {
      if timerActive {
        return false;
      }
      sweepNow := true;
      timerActive := true;
    }

    /** `stopCleanupService`: clears the timer if there is one. */
    method Stop()
      modifies this
      ensures !timerActive
    {
      if timerActive {
        timerActive := false;
      }
    }
  }
}
