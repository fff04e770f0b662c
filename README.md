# FriturierAPI voice-activity core, modelled in Dafny

FriturierAPI records how members of a Discord guild move through its voice
channels, and turns that history into statistics and charts. This project models
the parts that carry the logic:

- **Change detector and session store** (`voiceController.js`). A bot posts a
  snapshot of the guild's voice channels every minute. The controller
  normalises it into a *state signature*. A snapshot whose signature matches
  the latest stored record is ignored. Otherwise that record is closed and,
  when some channel has members, a new open *session* record is appended. The
  schema's required ids can make that append fail, after the close (500).
- **Cleanup sweeper** (`sessionCleanupService.js`). It closes open sessions
  that were superseded. It also closes stale sessions whose guild is gone or
  whose voice channels are all empty.
- **Per-user statistics**:
  - `statsService.js` computes, for one user, over three windows (24 hours, 7
    days, 30 days) and all time: time spent, solo time, AFK time, average session
    length and top-10 companions;
  - `userStatsController.js` is the older variant, with a top-5 list and no AFK
    rule, and the cache/compute/retry flow that serves it.
- **Hourly and daily roll-ups** (`StatsAggregationService.js`). These are
  counting folds over activity documents.
- **The session record** (`GuildVoice.js`): its defaults, the `duration`
  virtual and `getChannelMemberCount`.
- **The dashboard's chart-data transforms** (`public/script.js`):
  - relative-time labels;
  - the total-members step series and the per-channel overview series;
  - padding a series up to a time;
  - the user and channel lists;
  - the per-user timeline that merges consecutive sessions.

Timestamps are integer milliseconds. The database and Discord are parameters:
- the store is a sequence of records, held by a class where the source
  mutates it;
- query results, the Discord cache and the identity lookup are values passed
  in.

Each stateful operation is a method proved equal to a specification function
of its inputs. The properties the source relies on are lemmas about those
functions:
- the signature is invariant under reordering;
- a guild has at most one open session while its posts fall in distinct minutes;
- time is conserved across the statistics;
- companion time is symmetric;
- sorted, truncated rankings are correct;
- the folds conserve their counts;
- the channel and user lists have no duplicates.

Files, one module each:

| file | module | source |
|---|---|---|
| wrappers.dfy | Wrappers | `Option` |
| ordering.dfy | Ordering | a concrete string order standing for `localeCompare`; the stable insertion sort that `Array.prototype.sort` is modelled by; filter/map lemmas |
| js_math.dfy | JsMath | `Math.round` / `Math.floor` of an integer ratio |
| js_collections.dfy | JsCollections | plain objects used as counters (insertion-ordered key/value lists), `new Set` deduplication, top-N |
| time_utils.dfy | TimeUtils | src/utils/timeUtils.js |
| guild_voice.dfy | GuildVoice | src/models/GuildVoice.js |
| voice_controller.dfy | VoiceController | src/controllers/voiceController.js |
| session_cleanup.dfy | SessionCleanup | src/services/sessionCleanupService.js |
| stats_service.dfy | StatsService | src/services/statsService.js |
| user_stats_controller.dfy | UserStatsController | src/controllers/userStatsController.js |
| stats_aggregation.dfy | StatsAggregation | src/services/StatsAggregationService.js |
| dashboard.dfy | Dashboard | public/script.js: `formatTimeSince`, `extendSeriesTo`, `processTotalMembersData` |
| dashboard_channels.dfy | DashboardChannels | public/script.js: `extractChannels` |
| dashboard_overview.dfy | DashboardOverview | public/script.js: `processOverviewData` |
| dashboard_users.dfy | DashboardUsers | public/script.js: `extractUsers` |
| dashboard_activity.dfy | DashboardActivity | public/script.js: `processUserActivity` |

## Model

| member | source | states |
|---|---|---|
| TimeUtils.CalculateOverlap | src/utils/timeUtils.js:5-9 | the overlap is never negative; it is positive exactly when both intervals are non-empty and meet in more than a point; it never exceeds the length of either well-formed interval |
| TimeUtils.OverlapDisjoint | src/utils/timeUtils.js:6-8 | disjoint or merely touching intervals give 0 |
| TimeUtils.OverlapSymmetric | src/utils/timeUtils.js:5-8 | swapping the session interval and the range gives the same value |
| TimeUtils.OverlapContained | src/utils/timeUtils.js:6-8 | an interval inside the other overlaps it by its own length, in both argument orders |
| TimeUtils.OverlapAdditive | src/utils/timeUtils.js:6-8 | splitting the range at a point splits the overlap into the two parts' overlaps |
| TimeUtils.OverlapExamples | src/utils/timeUtils.js:5-9 | [0,30] against [15,20] gives 5; 10:00-10:30 against 10:15-10:20 gives five minutes; disjoint ranges give 0 |
| JsMath.RoundDiv | src/models/GuildVoice.js:52 | `Math.round(n/d)` for d > 0 is the integer r with r − ½ ≤ n/d < r + ½ (halves round up) |
| JsMath.FloorDiv | public/script.js:491-497 | `Math.floor(n/d)` for d > 0 is the integer r with d·r ≤ n < d·r + d |
| JsMath.RoundDivExamples | src/models/GuildVoice.js:52 | 2.5 rounds to 3, 2.499 to 2, −2.5 to −2 |
| GuildVoice.StoredChannelName | src/models/GuildVoice.js:21-26 | the default `Canal <channelId>` applies only to an undefined name; null is stored as null, a value as itself |
| GuildVoice.NewSession | src/models/GuildVoice.js:4-15 | a new record keeps its guild, start and channels, and is open (`sessionEnd` null) |
| GuildVoice.Duration | src/models/GuildVoice.js:50-53 | null exactly when `sessionEnd` is null; otherwise the length rounded to the nearest second, halves up |
| GuildVoice.DurationExamples | src/models/GuildVoice.js:50-53 | 1500 ms is 2 s, 1499 ms is 1 s, an open record has none |
| GuildVoice.FindChannelById | src/models/GuildVoice.js:57 | `find` by channel id: none exactly when no channel has that id; otherwise the first such index |
| GuildVoice.GetChannelMemberCount | src/models/GuildVoice.js:56-59 | the member count of the first channel with that id, 0 when there is none |
| GuildVoice.FindUserChannel | src/services/statsService.js:58 | the first channel with the user among its members; none exactly when no channel has them |
| GuildVoice.MemberIds | src/services/sessionCleanupService.js:89 | the members' user ids, position by position |
| GuildVoice.AllMemberIds | src/services/sessionCleanupService.js:89 | `flatMap` of member ids: a user id occurs exactly when some channel has that member |
| VoiceController.RoundToMinute | src/controllers/voiceController.js:4-8 | the result is a whole minute, no later than the input and less than a minute before it |
| VoiceController.RoundToMinuteProperties | src/controllers/voiceController.js:4-8 | rounding is idempotent and monotone |
| VoiceController.NormalizeChannelSortsIds | src/controllers/voiceController.js:26-33 | a normalised channel keeps only member ids, the sorted list of its members' ids |
| VoiceController.SignatureCanonical | src/controllers/voiceController.js:16-41 | the signature lists channels in channel-id order, each with its member ids in order |
| VoiceController.SignatureEmpty | src/controllers/voiceController.js:18-23 | the signature is empty (`"[]"`) exactly when no channel has members, in particular for no channels |
| VoiceController.NormalizeChannelIgnoresOrderAndNames | src/controllers/voiceController.js:28-33 | two channels with one id and the same multiset of member ids normalise alike, whatever the order, usernames or channel names |
| VoiceController.SignatureIgnoresMemberOrder | src/controllers/voiceController.js:28-32 | reordering members within channels, or changing usernames or channel names, leaves the signature unchanged |
| VoiceController.SignatureIgnoresChannelOrder | src/controllers/voiceController.js:23-37 | any permutation of the channels gives the same signature, when active channel ids are distinct |
| VoiceController.SignatureIgnoresEmptyChannel | src/controllers/voiceController.js:23 | an empty channel anywhere does not affect the signature |
| VoiceController.SignatureOfActive | src/controllers/voiceController.js:23 | the signature of the active channels alone equals the signature of all of them |
| VoiceController.ToMember | src/controllers/voiceController.js:93-96 | `memberId` becomes `userId`; a missing or empty username becomes `User <memberId>` |
| VoiceController.ToChannel | src/controllers/voiceController.js:90-97 | the id is kept; a falsy name is stored as null; every member is mapped in order |
| VoiceController.LatestIndexSpec | src/controllers/voiceController.js:103 | `findOne(...).sort({sessionStart: -1})`: no record exactly when the guild has none; otherwise a record of the guild with the greatest start, no later record of which starts as late |
| VoiceController.SessionStore.constructor | src/models/GuildVoice.js:68 | the collection starts empty |
| VoiceController.SessionStore.FindLatest | src/controllers/voiceController.js:103 | the scan returns the latest record of the guild |
| VoiceController.SessionStore.RecordGuildActivity | src/controllers/voiceController.js:78-143 | the new store and the answer are exactly those of the ingest specification at the rounded clock |
| VoiceController.IngestRejectsNonArray | src/controllers/voiceController.js:85-87 | a non-array `channels` gives 400 and leaves the store untouched |
| VoiceController.IngestUnchanged | src/controllers/voiceController.js:106-111 | a state equal to the latest record's signature writes nothing and returns that record |
| VoiceController.CloseLatestSpec | src/controllers/voiceController.js:115-119 | only the latest record changes: it gets `sessionEnd = now` if it was open and is left as is otherwise; each guild keeps the same latest record |
| VoiceController.IngestClosesLatest | src/controllers/voiceController.js:113-120 | on a change, the latest record is closed at the rounded minute if open; no other existing record changes |
| VoiceController.ActiveIffAnyMembers | src/controllers/voiceController.js:123-124 | the mapped payload has an active channel exactly when some posted channel has members |
| VoiceController.IngestAppendsIffActive | src/controllers/voiceController.js:122-142 | on a change, one session is appended exactly when some posted channel has members and those channels carry non-empty channel and member ids: the guild's, open, starting at the rounded minute, holding exactly the non-empty channels in order; with members but an empty id `create` fails schema validation and the answer is 500 after the close; with no members the answer is "all empty"; in the last two cases nothing is appended |
| VoiceController.StorableIffPayload | src/models/GuildVoice.js:16-31 | the channels handed to `create` satisfy `required` on `channelId` and `userId` exactly when every posted channel with members has a non-empty `channelId` and non-empty `memberId`s |
| VoiceController.IngestCreatedChannels | src/controllers/voiceController.js:123-130 | every channel of a created session has members and is the mapped form of a posted channel |
| VoiceController.CloseLatestKeepsOpenIsLatest | src/controllers/voiceController.js:115-119 | closing keeps every guild's open records confined to its latest record, and leaves the guild with nothing open |
| VoiceController.AppendKeepsOpenIsLatest | src/controllers/voiceController.js:126-130 | appending a record keeps that invariant when the guild has nothing open and nothing later; among equal starts it relies on the model's choice of the record appended last |
| VoiceController.IngestKeepsOpenIsLatest | src/controllers/voiceController.js:103-138 | with a clock that does not go backwards, every ingest keeps each guild's open records confined to its latest record as `LatestIndex` picks it; tie-free under `IngestKeepsStartsDistinct` |
| VoiceController.IngestIdempotent | src/controllers/voiceController.js:106-111 | posting the same state twice writes nothing the second time and does not create, with `LatestIndex`'s choice among equal starts; tie-free under `IngestKeepsStartsDistinct` |
| VoiceController.IngestChannelsIdempotent | src/controllers/voiceController.js:106-138 | the same, after mapping: a repeat leaves the store as after the first call, including after a 500 for empty ids; same tie-break as `IngestIdempotent` |
| VoiceController.RepeatAfterCreated | src/controllers/voiceController.js:106-130 | after a session was created from a state, that state is no longer a change, with `LatestIndex`'s choice among equal starts |
| VoiceController.RepeatAfterInvalid | src/controllers/voiceController.js:113-130 | after a 500 for empty ids, the same post closes nothing more and fails the same way |
| VoiceController.RepeatAfterAllEmpty | src/controllers/voiceController.js:115-138 | after an all-empty snapshot, another all-empty one writes nothing more |
| VoiceController.ReopenAfterEmptyIsUnchanged | src/controllers/voiceController.js:106-119 | after an all-empty snapshot closed the latest record, posting that record's state again is answered "unchanged" with the closed record, and no session is opened |
| VoiceController.OpenIsLatestOneOpen | src/controllers/voiceController.js:103-119 | when the open records are confined to the latest one, the guild has at most one open record |
| VoiceController.NewestIsLatest | src/controllers/voiceController.js:103 | with distinct starts, any record holding the guild's greatest start is the one `LatestIndex` picks, whatever order the database gives equal keys |
| VoiceController.AppendKeepsStartsDistinct | src/controllers/voiceController.js:126-130 | appending a record later than every record of its guild keeps the guild's starts distinct |
| VoiceController.CloseLatestKeepsStarts | src/controllers/voiceController.js:115-119 | closing changes no record's guild or start |
| VoiceController.IngestKeepsStartsDistinct | src/controllers/voiceController.js:81-138 | when each call is at a later minute than the guild's stored starts, the starts stay distinct and none is later than that minute, so no `findOne` meets a tie and the ingest invariants hold for any database order |
| VoiceController.SameMinuteTie | src/controllers/voiceController.js:103-130 | two changed posts in one minute leave a closed and an open record with equal starts; if the database returns the closed one, a third changed post appends beside the open one, leaving two open records, while the model's choice leaves one |
| VoiceController.GetGuildActivitySpec | src/controllers/voiceController.js:148-168 | a given range with an invalid date is refused with 400; otherwise the answer holds exactly the guild's records (within the closed start range when both bounds are given), each as often as stored, in ascending start order |
| VoiceController.ScenarioStep1 | test_session_logic.js:43-55 | a first member joining creates a session (201) |
| VoiceController.ScenarioStep2 | test_session_logic.js:58-61 | the same payload a minute later is "unchanged" (200) |
| VoiceController.ScenarioStep3 | test_session_logic.js:64-79 | a second member joining closes the session and opens a new one (201) |
| VoiceController.ScenarioStep4 | test_session_logic.js:82-86 | a member leaving a channel that is still occupied closes and opens again (201) |
| VoiceController.ScenarioStep5 | test_session_logic.js:89-99 | the last member leaving closes the session with no new one (200, all empty); a second empty payload answers "all empty" too; the durations are 120, 60 and 60 seconds |
| SessionCleanup.VoiceMemberTotalZero | src/services/sessionCleanupService.js:160-166 | the summed member count over voice channels is 0 exactly when every voice channel has no member collection or an empty one |
| SessionCleanup.ShouldCloseSession | src/services/sessionCleanupService.js:118-183 | younger than 3 minutes: keep; old enough with a newer session: close; a failed query: keep; no newer session and age ≤ 5 minutes: keep; past the timeout: keep if the client is not ready, close if the guild is missing, otherwise close exactly when the voice channels hold no member |
| SessionCleanup.ShouldCloseSafety | src/services/sessionCleanupService.js:118-183 | a session chosen for closing was old enough, and either had a successor or was stale with the client ready and the guild gone or empty |
| SessionCleanup.HasNewerIgnoresEnds | src/services/sessionCleanupService.js:131-134 | closing records changes no newer-session answer, so the sweep's visiting order does not matter |
| SessionCleanup.SameMinuteSuccessorIsNotNewer | src/services/sessionCleanupService.js:133 | `$gt` is strict: a successor starting in the same minute does not count as newer |
| SessionCleanup.NewerRuleIdleUnderIngest | src/services/sessionCleanupService.js:131-140 | while ingest's invariant holds, an open record never has a newer one, so only the timeout rule can close it |
| SessionCleanup.ReportCounts | src/services/sessionCleanupService.js:72-101 | every record the rule picks is counted once, as closed or as an error; there is at most one recompute per closed record |
| SessionCleanup.ReportRecomputes | src/services/sessionCleanupService.js:87-96 | recomputes are requested exactly for the closed records that have members: each recompute is for such a record, with its distinct member ids, and each such record gets one |
| SessionCleanup.ReportRecomputesSound | src/services/sessionCleanupService.js:87-96 | every recompute is for a closed record that has members, with its distinct member ids |
| SessionCleanup.ReportRecomputesComplete | src/services/sessionCleanupService.js:87-96 | every closed record with members gets a recompute for its guild and its distinct member ids |
| SessionCleanup.AffectedUsersSpec | src/services/sessionCleanupService.js:88-90 | the affected users are the record's members' ids, each once |
| SessionCleanup.PerformCleanup | src/services/sessionCleanupService.js:56-110 | the loop leaves the store's length unchanged, replaces each record by its swept form, and returns the report of the whole sweep |
| SessionCleanup.SweepRecord | src/services/sessionCleanupService.js:76-101 | one iteration: an open record the rule closes is saved with `sessionEnd = now`, or counted as an error when the save fails; no other record changes |
| SessionCleanup.ReportWithoutFind | src/services/sessionCleanupService.js:61-109 | when the open-session query fails, nothing is closed, counted or recomputed |
| SessionCleanup.SweepSafety | src/services/sessionCleanupService.js:75-126 | a sweep never closes a record younger than the minimum age, never changes a closed record, and never moves a record's guild or start; the only change it makes is `sessionEnd = now` |
| SessionCleanup.CleanupService.constructor | src/services/sessionCleanupService.js:20 | no timer at start |
| SessionCleanup.CleanupService.Start | src/services/sessionCleanupService.js:25-40 | a sweep runs at once exactly when no timer existed; afterwards a timer exists |
| SessionCleanup.CleanupService.Stop | src/services/sessionCleanupService.js:45-51 | afterwards no timer exists |
| StatsService.AddWindowsAt | src/services/statsService.js:73-86 | the `ranges` loop updates each listed window by its own step and leaves every other period as it was |
| StatsService.RecordStepAt | src/services/statsService.js:53-87 | one record's effect on a period depends only on that period: the `stats` object's periods do not interact |
| StatsService.AccumulateAt | src/services/statsService.js:34-87 | each period of the `stats` object after the record loop is its own fold over the records |
| StatsService.TimeConservation | src/services/statsService.js:53-71 | all time: time spent plus AFK time equals the sum of `(end or now) − start` over the records in which the user's channel is found |
| StatsService.PeriodConservation | src/services/statsService.js:53-71 | the same conservation for the all-time period read as its own fold |
| StatsService.AfkRecordOnlyAddsAfk | src/services/statsService.js:62-77 | a record in the AFK channel changes neither time spent, nor time alone, nor companions, in any period; only AFK time |
| StatsService.NoAfkChannelNoAfkTime | src/services/statsService.js:42-62 | with no AFK channel configured (unset or empty) no time is AFK time, in every period |
| StatsService.AloneWithinSpent | src/services/statsService.js:66-80 | time alone is between 0 and time spent in each window, and over all time when records run forward |
| StatsService.WindowWithinAllTime | src/services/statsService.js:73-86 | for records that run forward, each window's time spent, time alone and AFK time are at most the all-time ones |
| StatsService.CompanionsGet | src/services/statsService.js:68-70 | the companion pass adds d to every other member of the channel, once per slot they hold |
| StatsService.FriendTime | src/services/statsService.js:68-83 | a period's time with k is the sum over the records of what each record shares with k in that period |
| StatsService.SharedSymmetric | src/services/statsService.js:58-83 | in a record where each user holds one slot, A's share with B equals B's share with A |
| StatsService.CompanionSymmetry | src/services/statsService.js:68-83 | companion time is symmetric: the time A spent with B equals the time B spent with A, in every period |
| StatsService.UserSessionsMembers | src/services/statsService.js:44 | the query returns exactly the guild's records in which the user is a member |
| StatsService.UserSessionsFold | src/services/statsService.js:44-59 | folding the user's records gives the same periods as folding all the guild's records; the others add nothing |
| StatsService.StoredCompanionSymmetry | src/services/statsService.js:44-83 | symmetry holds for the two documents as computed, each from its own user's query result |
| StatsService.BestFriendsResolved | src/services/statsService.js:103-152 | ten friends, or every ranked (fetched, non-bot) companion when there are fewer; each is a fetched non-bot member with that member's username and with the time recorded for them |
| StatsService.BestFriendsOrdered | src/services/statsService.js:108 | friends come longest time first |
| StatsService.BestFriendsTop | src/services/statsService.js:103-109 | a fetched non-bot companion left out of the ten has no more time than any friend listed |
| StatsService.PeriodFoldDistinct | src/services/statsService.js:35-82 | like the `bestFriends` Map, every period's companion table has one entry per companion |
| StatsService.TallyIsTimeSpent | src/services/statsService.js:112-136 | the averaging loop's total is the period's time spent (non-AFK sessions; in a window, positive overlaps only) |
| StatsService.AverageIsMeanTimeSpent | src/services/statsService.js:137 | `averageTime` is time spent divided by the counted sessions, rounded half up, and 0 when no session counts |
| StatsService.SaveUserAt | src/services/statsService.js:164-191 | one loop step writes only that user's document, and only when the user has records |
| StatsService.SaveUsersKeys | src/services/statsService.js:26-192 | after a recomputation the store holds the old documents plus one per listed user with records |
| StatsService.SaveUsersKeeps | src/services/statsService.js:48-51 | a document that is not rewritten is left as it was |
| StatsService.SaveUsersWrites | src/services/statsService.js:157-191 | a listed user with records gets the document computed from their records, under the `last24h`/`last7d`/`last30d`/`allTime` keys, with minimal details when they cannot be fetched |
| StatsService.SaveStatsNoWrite | src/services/statsService.js:12-196 | no users, a client that is not ready or a guild that cannot be fetched: nothing is written |
| StatsService.StatsStore.constructor | src/services/statsService.js:168 | the document store starts empty |
| StatsService.StatsStore.CalculateAndSaveStatsForUsers | src/services/statsService.js:11-197 | the store afterwards is the specification's store for the old store, the records, the guild, the ids, the Discord view and `now` |
| StatsService.SaveUserDoc | src/services/statsService.js:164-191 | one user: skipped without records, otherwise their document is written |
| StatsService.BuildDoc | src/services/statsService.js:34-191 | the record loop, the four periods and the member's details give the specification's document |
| StatsService.ComputeStats | src/services/statsService.js:53-87 | the record loop gives the specification's `stats` object |
| StatsService.AddRecord | src/services/statsService.js:54-86 | one record: all time receives the duration, and each window its overlap when positive |
| StatsService.AddWindow | src/services/statsService.js:74-85 | one window: the overlap is added only when positive, and no other period changes |
| StatsService.AddTimeTo | src/services/statsService.js:63-71 | one period: AFK time, or time spent, time alone for a one-member channel, and every other member's companion time |
| StatsService.ComputePeriod | src/services/statsService.js:101-153 | one period of the document: its totals, ranked friends and the average from the averaging loop |
| StatsService.CountSession | src/services/statsService.js:115-135 | one iteration of the averaging loop equals its step in the specification |
| StatsService.DistinctUserIdsSpec | src/services/statsService.js:204 | `distinct('channels.members.userId', { guildId })` lists every user with a record in the guild, each once |
| StatsService.RecomputeAllKeys | src/services/statsService.js:203-206 | after recomputing the guild, the store holds the old documents plus one per user with records in the guild |
| StatsService.RecomputeAllDocs | src/services/statsService.js:203-206 | each such user gets the document computed from their records; other guilds' documents are unchanged |
| StatsService.StatsStore.UpdateAllUserStats | src/services/statsService.js:203-206 | the store afterwards is the recomputation of every user seen in the guild |
| UserStatsController.CalculateOverlap | src/controllers/userStatsController.js:8-12 | the controller's own overlap equals the one in timeUtils for all inputs |
| UserStatsController.AddOverlapsAt | src/controllers/userStatsController.js:43-45 | the `ranges` loop adds each range its overlap, including a zero one, and leaves the rest as it was |
| UserStatsController.AddDurationAt | src/controllers/userStatsController.js:42-52 | all time receives the duration and each range its overlap |
| UserStatsController.AloneNoCompanions | src/controllers/userStatsController.js:56 | a channel of one that holds the user gives nobody common time |
| UserStatsController.LegacyStepTimes | src/controllers/userStatsController.js:33-53 | one record changes total and solo time as the service's record step changes time spent and time alone with no AFK channel |
| UserStatsController.LegacyStepCommon | src/controllers/userStatsController.js:56-63 | one record changes `commonTime` as the service's all-time companion step with no AFK channel |
| UserStatsController.LegacyMatchesService | src/controllers/userStatsController.js:33-64 | with no AFK channel the older endpoint agrees with the service: total is time spent, solo is time alone, per period; `commonTime` is the all-time companion table |
| UserStatsController.TotalIsDuration | src/controllers/userStatsController.js:42 | `totalTime.allTime` is the sum of the durations of the records in which the user's channel is found |
| UserStatsController.SoloWithinTotal | src/controllers/userStatsController.js:48-53 | solo time never exceeds total time in any range, and over all time when records run forward |
| UserStatsController.RangeWithinAllTime | src/controllers/userStatsController.js:42-52 | for records that run forward, no range holds more total or solo time than all time |
| UserStatsController.CommonTimeIsShared | src/controllers/userStatsController.js:56-63 | a member's common time is the all-time duration of the records in which they shared the user's channel with at least one other |
| UserStatsController.CommonTimeSymmetric | src/controllers/userStatsController.js:56-63 | common time is symmetric when each user holds one slot of each record |
| UserStatsController.CommonStepDistinct | src/controllers/userStatsController.js:59-60 | updating the Map keeps one entry per companion |
| UserStatsController.LegacyStepCommonTime | src/controllers/userStatsController.js:38-63 | a record changes common time only through the members of the user's channel when it holds several |
| UserStatsController.CommonTimeDistinct | src/controllers/userStatsController.js:29-60 | the `commonTime` Map has one entry per companion |
| UserStatsController.TopFriendsShape | src/controllers/userStatsController.js:67-88 | at most five friends (all of them when fewer), longest first, each with its time from the Map; an unfetched friend is `Utilisateur Inconnu`, a fetched one has its nickname or its username |
| UserStatsController.TopFriendsTop | src/controllers/userStatsController.js:67-69 | a companion left out of the five has no more common time than any listed one |
| UserStatsController.ReplyFailsIff | src/controllers/userStatsController.js:72-96 | the guild is fetched only when there are friends: the answer is 500 exactly when there are friends and the guild cannot be fetched |
| UserStatsController.ReplyTimes | src/controllers/userStatsController.js:31-53 | a successful answer reports the total duration of the user's records, and per range the service's time spent and time alone |
| UserStatsController.ReplyFriendTime | src/controllers/userStatsController.js:80-87 | each listed friend carries the all-time duration they shared with the user |
| UserStatsController.RecordUserStats | src/controllers/userStatsController.js:14-97 | the method's answer is the specification's answer for the store, the guild, the user, the Discord view and `now` |
| UserStatsController.TallyRecords | src/controllers/userStatsController.js:33-64 | the record loop gives the specification's tally |
| UserStatsController.ResolveFriends | src/controllers/userStatsController.js:80-88 | the `push` loop maps every sorted friend, in order, to its id, display name and time |
| UserStatsController.AddRecord | src/controllers/userStatsController.js:34-63 | one iteration of the record loop equals its step in the specification |
| UserStatsController.AddRanges | src/controllers/userStatsController.js:42-45 | all time receives the duration, then each range its overlap |
| UserStatsController.CachedServed | src/controllers/userStatsController.js:113-173 | a stored document is served as it is, and nothing is computed |
| UserStatsController.NoActivityIff | src/controllers/userStatsController.js:115-142 | without a stored document: 404 exactly when the user has no record in the guild, and then nothing is written |
| UserStatsController.ComputedOnMiss | src/controllers/userStatsController.js:144-161 | a missing document of an active user is computed from their records, stored and served |
| UserStatsController.FailedIff | src/controllers/userStatsController.js:152-159 | 500 exactly when the document is missing, the user is active and the computation cannot write it; then nothing is written |
| UserStatsController.SecondLookupCached | src/controllers/userStatsController.js:113-173 | asking again serves the same document without computing anything |
| UserStatsController.GetUserStats | src/controllers/userStatsController.js:102-180 | the answer and the store afterwards are those of the specification |
| UserStatsController.ForceRecalculatedSpec | src/controllers/userStatsController.js:233-252 | after a forced recalculation with Discord available, the guild's documents are exactly those of users with records, each freshly computed; a stale document of a user without records is gone; other guilds keep theirs |
| UserStatsController.ForceRecalculatedWithoutDiscord | src/controllers/userStatsController.js:237-246 | with the client not ready or the guild not fetched, a forced recalculation leaves the guild with no document at all |
| UserStatsController.UpdateAllUserStats | src/controllers/userStatsController.js:186-198 | answers 202, and the store ends as the recomputation of every user seen in the guild |
| UserStatsController.UpdateUserStatsById | src/controllers/userStatsController.js:204-219 | answers 202, and the store ends as the recomputation of that one user |
| UserStatsController.ForceRecalculateAllStats | src/controllers/userStatsController.js:226-261 | answers 202, and the store ends with the guild's documents deleted, then every user seen in the guild recomputed |
| StatsAggregation.Presence.Plus | src/services/StatsAggregationService.js:33 | incrementing one status changes that status alone |
| StatsAggregation.Presence.Add | src/services/StatsAggregationService.js:182-184 | adding one presence object to another adds each status's minutes |
| StatsAggregation.AddEntriesGet | src/services/StatsAggregationService.js:38-43 | the get-or-zero then `set` loop adds each entry's amount to its key |
| StatsAggregation.AddEntriesSum | src/services/StatsAggregationService.js:86 | the table's total grows by the total of the entries added |
| StatsAggregation.AddEntriesDistinct | src/services/StatsAggregationService.js:24-28 | like a Map, the table keeps one entry per key |
| StatsAggregation.DistinctEntrySum | src/services/StatsAggregationService.js:87-91 | in a table with one entry per key, listing its entries and summing a key's amounts gives that key's value |
| StatsAggregation.AddAll | src/services/StatsAggregationService.js:152-190 | the loop over a document's list equals the specification's table update |
| StatsAggregation.PresenceCountsSamples | src/services/StatsAggregationService.js:27-33 | each sample increments exactly one status, so the presence counts grow by the number of samples |
| StatsAggregation.VoiceCountsSamples | src/services/StatsAggregationService.js:36-86 | the voice table totals one minute per sample in voice; each channel one per sample in it |
| StatsAggregation.InteractionsCountListings | src/services/StatsAggregationService.js:36-53 | a companion gains a minute per listing, and only from samples in a voice channel |
| StatsAggregation.MessagesCountAll | src/services/StatsAggregationService.js:57-92 | the message table totals every sample's per-channel counts, with a missing list counting nothing |
| StatsAggregation.ActivitiesCountSamples | src/services/StatsAggregationService.js:67-70 | an activity gains a minute per sample that names it; a missing or empty name adds nothing |
| StatsAggregation.HourFoldDistinct | src/services/StatsAggregationService.js:24-28 | the hour's four Maps keep one entry per key |
| StatsAggregation.HourlyNoneIff | src/services/StatsAggregationService.js:21 | without samples there is no hourly document (null, nothing written) |
| StatsAggregation.HourlyContents | src/services/StatsAggregationService.js:31-107 | the hourly document: the first sample's name and the hour's start; one presence minute per sample; a voice minute per sample in voice (per channel and in total); a companion minute per listing in voice; every message counted; a minute per named activity |
| StatsAggregation.HourlyConsistent | src/services/StatsAggregationService.js:86-97 | the hourly lists have one entry per channel, and the totals are their sums |
| StatsAggregation.DistributionLast | src/services/StatsAggregationService.js:144-149 | slot h holds the totals of the last hourly document of hour h |
| StatsAggregation.DistributionUntouched | src/services/StatsAggregationService.js:133-149 | a slot that no document names keeps its value |
| StatsAggregation.DayTablesAreSums | src/services/StatsAggregationService.js:152-190 | the day's tables are, key by key, the sums over the hourly documents |
| StatsAggregation.DayTotalsAreSums | src/services/StatsAggregationService.js:206-213 | the day's voice and message totals are the sums of the hourly lists' totals |
| StatsAggregation.DailyNoneIff | src/services/StatsAggregationService.js:130 | without hourly documents there is no daily document |
| StatsAggregation.DailyDistributions | src/services/StatsAggregationService.js:133-219 | both distributions have 24 slots; slot h holds the totals of the last hourly document of hour h, or 0 without one |
| StatsAggregation.DailySums | src/services/StatsAggregationService.js:152-213 | the daily document: the first hourly document's name, the day's start, per-channel minutes and counts, presence and totals all summed over the hours |
| StatsAggregation.DailyTops | src/services/StatsAggregationService.js:221-234 | ten interactions and five activities, or the whole table when it is shorter; longest first, each with the day's sum for its key |
| StatsAggregation.DailyTopsLongest | src/services/StatsAggregationService.js:221-234 | an interaction or activity of the day left out of the top list has no more minutes than any listed one |
| StatsAggregation.TableEntryIsGet | src/services/StatsAggregationService.js:221-226 | an entry of a table with one entry per key holds that key's amount |
| StatsAggregation.DayFoldDistinct | src/services/StatsAggregationService.js:139-141 | the day's interaction and activity Maps keep one entry per key |
| StatsAggregation.DailyVoiceTotalIsDistributionSum | src/services/StatsAggregationService.js:148-206 | with consistent hourly documents, one per hour, the day's voice total is the sum of the 24 slots |
| StatsAggregation.SlotSumUpdate | src/services/StatsAggregationService.js:148 | writing v into a slot below n changes the sum of the first n slots by the difference |
| StatsAggregation.OneDocPerHourSlots | src/services/StatsAggregationService.js:144-149 | with one document per hour, the first n slots sum the voice totals of the hours below n |
| StatsAggregation.RollupStore.constructor | src/services/StatsAggregationService.js:1 | both collections start empty |
| StatsAggregation.RollupStore.AggregateToHourly | src/services/StatsAggregationService.js:5-112 | returns the hourly specification and upserts it under guild, user and hour; without samples it returns null and writes nothing; the daily collection is untouched |
| StatsAggregation.RollupStore.AggregateToDaily | src/services/StatsAggregationService.js:114-239 | returns the daily specification and upserts it under guild, user and day; without hourly documents it returns null and writes nothing; the hourly collection is untouched |
| StatsAggregation.FoldActivities | src/services/StatsAggregationService.js:31-71 | the samples loop gives the specification's hour |
| StatsAggregation.FoldHours | src/services/StatsAggregationService.js:133-191 | two fresh 24-slot arrays and the Maps after the loop are the specification's day |
| StatsAggregation.AddActivity | src/services/StatsAggregationService.js:32-70 | one sample equals its step in the specification |
| StatsAggregation.AddHour | src/services/StatsAggregationService.js:151-190 | one hourly document's lists are added as in the specification |
| Dashboard.Elapse | public/script.js:487-501 | days when at least a whole day has passed, else hours when at least a whole hour, else minutes when at least a whole minute, else "just now" (a future timestamp too); each amount is the floor of the elapsed time in its unit |
| Dashboard.Decimal | public/script.js:492 | a number prints as a non-empty string of decimal digits, with no leading zero except for 0 itself |
| Dashboard.DecimalRoundTrip | public/script.js:492 | reading the printed digits back gives the number |
| Dashboard.FormatTimeSince | public/script.js:487-501 | the label is `à l'instant` exactly when less than a minute has passed; otherwise `-<n>j`, `-<n>h` or `-<n>min` with the floored amount |
| Dashboard.SeriesList.constructor | public/script.js:368 | the list holds the given series |
| Dashboard.SeriesList.ExtendTo | public/script.js:368-377 | a series with points gets exactly one more point, at `extendUntil`, repeating its last value; an empty series is left as it is; the number of series is unchanged |
| Dashboard.TotalStepShape | public/script.js:384-404 | one record keeps the line as it was and adds at most two points, never repeating a value; the line then ends on the record's total, or on 0 after a gap |
| Dashboard.TotalPointsShape | public/script.js:382-411 | the brush line never has two consecutive points of the same value, has at most two points per record, carries no null, and ends on the latest record's total or on 0 when that record closed before a gap |
| Dashboard.TotalPointsFirst | public/script.js:389-393 | the line starts at the first record's start with its total |
| Dashboard.ProcessTotalMembersData | public/script.js:382-411 | the loop gives the specification's one-series array |
| Dashboard.AddRecordPoints | public/script.js:385-404 | one iteration of the loop equals its step in the specification |
| DashboardChannels.ChannelIdsConcat | public/script.js:533-534 | the ids of two lists of channel entries are the ids of each, concatenated |
| DashboardChannels.SeenOfSnoc | public/script.js:535-540 | noting one more entry is the `has`/`set` step |
| DashboardChannels.NoteAllAfter | public/script.js:533-542 | noting one record's entries after the table of the earlier ones gives the table of all of them |
| DashboardChannels.AllChannelsSnoc | public/script.js:533-534 | the visited entries of one more record end with that record's channels |
| DashboardChannels.FirstWithIdFound | public/script.js:535 | an entry with the id exists exactly when the id is among the entries' ids |
| DashboardChannels.NoteChannelIds | public/script.js:535-540 | `has`/`set` keeps the table's ids the distinct ids seen so far, in order |
| DashboardChannels.NoteChannelNames | public/script.js:536-539 | every table entry keeps the name computed from the first entry with its id |
| DashboardChannels.SeenChannelsSpec | public/script.js:531-542 | the seen channels are the distinct ids of the data in order of first appearance, each named from its first entry by `channelNamesMap`, then the stored name, then `Canal <id>` |
| DashboardChannels.CollectChannels | public/script.js:533-542 | the nested loop gives the specification's seen table |
| DashboardChannels.CollectFromRecord | public/script.js:534-541 | one record's inner loop notes its entries in order |
| DashboardChannels.ChannelOrderDistinct | public/script.js:80-84 | `CHANNEL_ORDER` lists no id twice |
| DashboardChannels.FindInfo | public/script.js:546 | `Map.get`: none exactly when the id is not in the table; otherwise an entry with that id |
| DashboardChannels.OrderedSlot | public/script.js:545-549 | an ordered slot always has the ordered id: the seen channel, or a placeholder named by `channelNamesMap` or `Canal <id>` |
| DashboardChannels.OrderedSlots | public/script.js:545-549 | one slot per ordered id, in order |
| DashboardChannels.UnlistedMembers | public/script.js:552-556 | only seen channels outside the order are appended |
| DashboardChannels.UnlistedIds | public/script.js:552-556 | an id is appended exactly when it was seen and is not an ordered one |
| DashboardChannels.UnlistedDistinct | public/script.js:552-556 | the appended channels have distinct ids |
| DashboardChannels.ExtractChannels | public/script.js:530-559 | the method's list is the specification's list for the dashboard's `CHANNEL_ORDER` |
| DashboardChannels.AppendUnlisted | public/script.js:552-556 | the `forEach`/`push` loop appends every seen channel outside the order, in order |
| DashboardChannels.SeenChannelsDistinct | public/script.js:531-542 | the seen table has one entry per id, and holds exactly the ids that appear in the data |
| DashboardChannels.ChannelListOrderedFirst | public/script.js:545-549 | the list starts with every ordered id in order, a placeholder standing for one that never appeared |
| DashboardChannels.ChannelListDistinct | public/script.js:544-558 | with an order without repeats, no id is listed twice |
| DashboardChannels.ChannelListComplete | public/script.js:544-558 | the list holds exactly the ordered ids and the ids that appear in the data |
| DashboardChannels.ExtractedChannels | public/script.js:530-559 | the dashboard's list starts with `CHANNEL_ORDER` and lists each id once |
| DashboardChannels.ChannelListNames | public/script.js:536-548 | a channel that appears in the data carries the name computed from its first entry, in the ordered part as well as after it |
| DashboardOverview.Occupancy | public/script.js:318-319 | the plotted value is a positive member count, or null for an empty or absent channel |
| DashboardOverview.Lines | public/script.js:317-344 | one line per seen channel, with its id, its first name and its points after the records so far |
| DashboardOverview.IndexOf | public/script.js:350-351 | `indexOf`: −1 exactly when the id is absent, otherwise a position holding it |
| DashboardOverview.OverviewBeforeIsStrictWeakOrder | public/script.js:349-356 | the overview's comparator is a strict weak order, so the sort is well defined |
| DashboardOverview.ProcessOverviewData | public/script.js:295-360 | the method's series are the specification's, for the dashboard's `CHANNEL_ORDER` |
| DashboardOverview.EmitRecord | public/script.js:312-345 | one record adds its points to every series |
| DashboardOverview.StepLine | public/script.js:318-343 | the body of `seriesMap.forEach` for one series equals its step in the specification |
| DashboardOverview.EmitShape | public/script.js:321-343 | a record never rewrites a line; it ends the line on the record's value and stamps what it adds with the record's start |
| DashboardOverview.OverviewPointsShape | public/script.js:317-344 | a line is empty until its channel first has a member; then it starts with a non-null point and always ends on the latest record's value |
| DashboardOverview.OverviewPointsTimes | public/script.js:313-342 | over records in start order, a line's points never go back in time and none is later than the latest start |
| DashboardOverview.MemberCountSeen | public/script.js:314-318 | a channel with a positive count in a record is one of the record's channels |
| DashboardOverview.LineDrawn | public/script.js:359 | a line has a non-null point exactly when its channel had a member in some record |
| DashboardOverview.OverviewMembers | public/script.js:347-359 | the overview holds exactly the drawn lines of the seen channels |
| DashboardOverview.OverviewFromSeen | public/script.js:299-347 | every series of the overview is a seen channel, under its first name, with the line built from all the records |
| DashboardOverview.OverviewChannels | public/script.js:295-360 | the overview shows a channel exactly when it had a member in some record |
| DashboardOverview.OverviewShown | public/script.js:359 | a shown channel had a member in some record |
| DashboardOverview.OverviewOccupied | public/script.js:299-359 | a channel with a member in some record is shown |
| DashboardOverview.OverviewOrdered | public/script.js:349-356 | the ordered channels come first, by their place in the order, then the others by name |
| DashboardUsers.UserIds | public/script.js:519 | the ids of a user list, position by position |
| DashboardUsers.FirstMember | public/script.js:515-517 | the first member entry with the id, present exactly when the id is among the entries |
| DashboardUsers.NoteMembersConcat | public/script.js:515-522 | noting two lists of entries is noting the first, then the second |
| DashboardUsers.UserIdsSnoc | public/script.js:519 | `users.push` adds the new user's id at the end |
| DashboardUsers.NoteMembersPrefix | public/script.js:517-520 | noting members never drops or changes a listed user |
| DashboardUsers.NoteMembersIds | public/script.js:517-520 | after noting, an id is listed exactly when it was listed before or appears in the entries |
| DashboardUsers.NoteMembersDistinct | public/script.js:517 | the `seenUserIds` test keeps every id listed once |
| DashboardUsers.NoteMembersAdded | public/script.js:517-520 | each added entry is a user not listed before, with the record's time and the name of the user's first entry |
| DashboardUsers.LatestFrom | public/script.js:511 | the latest record holding the user lies in the range searched |
| DashboardUsers.UsersFromDistinct | public/script.js:507-523 | the walk from the last record back lists every user once |
| DashboardUsers.UsersFromIds | public/script.js:507-523 | a user is listed exactly when some record of the range lists them |
| DashboardUsers.UsersFromStep | public/script.js:511-522 | one more, earlier record keeps the later users and lists after them the users whose latest record it is |
| DashboardUsers.UsersFromDescribe | public/script.js:514-519 | each listed user carries the activity time of their latest record and their first entry's name there |
| DashboardUsers.UsersFromOrder | public/script.js:510-524 | users are listed from the most recent latest record to the oldest |
| DashboardUsers.ExtractedUsersSpec | public/script.js:506-525 | every user who appears in the data, once, with the latest record's time and name, ordered by the position of their latest record in the data, last first |
| DashboardUsers.LatestFromFound | public/script.js:511-517 | the latest record holding the user exists exactly when some record holds them, and no later record does |
| DashboardUsers.ExtractUsers | public/script.js:506-525 | the method's list is the specification's list |
| DashboardUsers.AddRecordUsers | public/script.js:515-522 | one record's two inner loops note its entries, and `seenUserIds` stays the set of listed ids |
| DashboardActivity.SpanTimeSnoc | public/script.js:777-781 | adding a session adds its length to the total |
| DashboardActivity.TrackedCurrent | public/script.js:745-772 | after a record the user has an open session exactly when that record placed them in a channel; that session is in the record's channel and ends at the record's end |
| DashboardActivity.SessionCount | public/script.js:746-781 | one merged session per record that opens one, counting a channel change or a gap as a new session and an adjacent record in the same channel as none |
| DashboardActivity.TrackTime | public/script.js:746-772 | one step of the merging rule adds the record's length exactly when the user is in a channel (an extension and a new session alike) |
| DashboardActivity.SessionTime | public/script.js:731-781 | merging loses and gains no time: the sessions add up to the time the records place the user in a channel, an open record counting until now |
| DashboardActivity.SessionsOfSpec | public/script.js:724-781 | a user's merged sessions are as many as the records that open one, and their total length is the user's time in channels |
| DashboardActivity.LastFour | public/script.js:786 | `slice(-4)` keeps the last four characters, or the whole id when it is shorter |
| DashboardActivity.SeriesIds | public/script.js:790-797 | the keys of the row map, in insertion order |
| DashboardActivity.SeriesIndex | public/script.js:790 | `seriesDataMap.has`: none exactly when the key is absent, otherwise the row with that key |
| DashboardActivity.TotalBarsUpdate | public/script.js:798 | replacing one row changes the bar count by the difference of their lengths |
| DashboardActivity.AddBarIds | public/script.js:790-797 | adding a bar keeps every key, and adds the channel's key at the end when it is new |
| DashboardActivity.AddBarTotal | public/script.js:798 | adding a bar adds exactly one bar |
| DashboardActivity.AddBarDistinct | public/script.js:790-797 | no channel is keyed twice |
| DashboardActivity.AddBarListed | public/script.js:788-797 | a row created for a found channel takes the name the channel list gives it |
| DashboardActivity.AddBarRows | public/script.js:788-797 | rows stay listed and keyed once |
| DashboardActivity.AddBarFrom | public/script.js:798-801 | every bar stays a merged session of a selected user under that user's label |
| DashboardActivity.AddSessionsRows | public/script.js:787-802 | adding a user's sessions keeps the rows well-formed |
| DashboardActivity.AddSessionsTotal | public/script.js:787-802 | a user's sessions add one bar each, except those whose channel is not in the channel list |
| DashboardActivity.AddSessionsKeys | public/script.js:787-802 | every key is kept, and every session in a listed channel has its channel keyed |
| DashboardActivity.AddSessionsFrom | public/script.js:787-802 | bars added from a user's sessions are accounted for |
| DashboardActivity.AddUsersRows | public/script.js:784-803 | the whole fold keeps the rows well-formed |
| DashboardActivity.AddUsersTotal | public/script.js:784-803 | the fold adds exactly the sessions in listed channels, over the users |
| DashboardActivity.AddUsersKeys | public/script.js:784-803 | every session of a user in a listed channel has its channel keyed |
| DashboardActivity.AddUsersFrom | public/script.js:784-803 | every bar comes from a selected user's merged sessions |
| DashboardActivity.UserActivitySpec | public/script.js:724-806 | one row per listed channel a selected user was in, named from the channel list; every bar is a merged session of a selected user under that user's label; the number of bars is the number of sessions in listed channels (each user counted once); and every such session has its channel's row |
| DashboardActivity.MemberIdsPrefix | public/script.js:738-741 | the ids of one more member entry add that entry's id |
| DashboardActivity.PlacementSnoc | public/script.js:737-742 | a later channel listing the user overrides the earlier placement |
| DashboardActivity.PlaceMembers | public/script.js:738-741 | one channel's members: each selected member is set to that channel, and everyone else keeps their entry |
| DashboardActivity.PlaceUsers | public/script.js:736-743 | `userChannelMap` gives each selected user the last channel of the record listing them |
| DashboardActivity.StepUser | public/script.js:745-773 | the source's branches for one user are one step of the merging rule |
| DashboardActivity.StepUsers | public/script.js:745-774 | every selected user takes the step for their placement |
| DashboardActivity.TrackRecord | public/script.js:731-775 | after one more record every user's state is their state over one more record |
| DashboardActivity.TrackRecords | public/script.js:728-775 | after the walk every user's state is their state over all the records |
| DashboardActivity.FlushAll | public/script.js:777-781 | every open session joins the merged ones |
| DashboardActivity.AddUserBars | public/script.js:787-802 | one user's sessions are added in order |
| DashboardActivity.BuildSeries | public/script.js:784-803 | the final loop builds the specification's rows |
| DashboardActivity.ProcessUserActivity | public/script.js:724-806 | the method's rows are the specification's rows |
| JsCollections.GetFirst | src/services/statsService.js:68 | `map.get` reads the amount of the entry with that key |
| JsCollections.Bump | src/services/statsService.js:68 | after `set`, the key is present |
| JsCollections.BumpGet | src/services/statsService.js:68 | `set(k, (get(k) or 0) + d)` adds d to k's amount and changes no other key's amount |
| JsCollections.BumpKeys | src/services/statsService.js:68 | the keys stay in insertion order, a new key going last |
| JsCollections.BumpDistinct | src/services/statsService.js:68 | no key is ever held twice |
| JsCollections.BumpSum | src/services/statsService.js:68 | the amounts' total grows by exactly d |
| JsCollections.Dedup | src/services/sessionCleanupService.js:88-90 | `[...new Set(xs)]` holds no repeat and exactly the elements of xs |
| JsCollections.DedupSnoc | src/services/sessionCleanupService.js:88-90 | one more element is appended exactly when it was not seen before |
| JsCollections.LongerThanIsStrictWeakOrder | src/services/statsService.js:108 | the best-friend comparator is a strict weak order |
| JsCollections.TopShape | src/services/statsService.js:103-109 | the top list holds min(n, size) entries of the table in descending amount order |
| JsCollections.TopIsTop | src/services/statsService.js:103-109 | an entry left out of the top list has an amount no larger than any entry in it |
| JsCollections.DistinctParts | src/services/sessionCleanupService.js:88-90 | two repeat-free lists with no common element concatenate to a repeat-free list |
| Ordering.StrLtIsStrictWeakOrder | src/controllers/voiceController.js:28-37 | the id comparison used in place of `localeCompare` is a strict weak order |
| Ordering.Insert | src/controllers/voiceController.js:28-37 | insertion adds exactly the one element |
| Ordering.Sort | src/controllers/voiceController.js:28-37 | `sort` returns a permutation of its input |
| Ordering.InsertSorted | src/controllers/voiceController.js:28-37 | inserting into a sorted list keeps it sorted |
| Ordering.SortSorted | src/controllers/voiceController.js:28-37 | `sort` returns a sorted list for any strict weak order |
| Ordering.SortElement | src/controllers/voiceController.js:28-37 | every element of the result comes from the input |
| Ordering.SortedUnique | src/controllers/voiceController.js:28-37 | under a total order, two sorted permutations of the same elements are equal |
| Ordering.SortPermutationInvariant | src/controllers/voiceController.js:22-39 | under a total order, the sorted result does not depend on the input's order, which is what makes the signature comparison order-blind |
| Ordering.Take | src/services/statsService.js:109 | `slice(0, n)` keeps the first min(n, size) elements |
| Ordering.SortedTakeIsTop | src/services/statsService.js:108-109 | a prefix of a sorted list is sorted and no element left out comes before one kept |
| Ordering.Filter | src/services/statsService.js:104-107 | `filter` keeps exactly the elements passing the test, and the result is no longer than the input |
| Ordering.FilterConcat | src/services/statsService.js:104-107 | filtering a concatenation is concatenating the filtered parts, so the kept elements stay in input order |
| Ordering.FilterCount | src/services/statsService.js:104-107 | every element passing the test is kept as often as it occurs in the input; every other element is dropped |
| Ordering.FilterPermutation | src/services/statsService.js:104-107 | filtering permutations gives permutations |
| Ordering.MapSeq | src/controllers/voiceController.js:32 | `map` applies the function position by position |
| Ordering.SortMapCommutes | src/controllers/voiceController.js:28-32 | sorting by a key and then projecting is projecting and then sorting |
| Ordering.FilterSorted | public/script.js:349-359 | filtering a sorted list keeps it sorted |
| Ordering.FilterIdempotent | public/script.js:359 | filtering twice with the same test is filtering once |
| Ordering.SortSingleton | src/controllers/voiceController.js:28 | a one-element list sorts to itself |

## Left out

- MongoDB and Mongoose. Queries, upserts, `$inc`/`$addToSet` operators and aggregation pipelines are not modelled. Each store is a sequence or a map, and query results are passed in, in the order the query returns them.
- The other server-side code is not part of this model: `getGuildsAndChannels` (src/controllers/voiceController.js:44-75), the activity, channel-activity, interaction and stat controllers, and the force-recalculation script.
- Discord. `client.isReady`, `guilds.fetch`, `channels.cache` and `members.fetch` are values passed in: a ready flag, a guild-found flag, cached channels, and a partial map from user id to identity.
- Avatar URLs, `discriminator`, `avatarDecoration` and `lastUpdatedAt` are not stored. The statistics document keeps the username, nickname, bot flag and the four periods.
- Ingest errors. No database error and no channel that lacks a `members` array is modelled (src/controllers/voiceController.js:139-142). The 400 for a non-array `channels` is modelled, and so is the 500 when `create` rejects an empty `channelId` or `userId`. A missing id, rather than an empty one, is not modelled: ids are strings.
- `getGuildActivity`'s database error (500) is not modelled. Its date filter and its ascending sort are.
- Sweeper faults. Only the failures of the newer-record query and of the save are modelled, per record, as sets of record indices. A failure of the initial `find` gives an empty report. Other exceptions are not modelled.
- Timers and asynchrony. `setInterval`, the two-minute tick, fire-and-forget recomputations and `Promise.all` are not modelled. One sweep and one ingest are sequential methods. A recomputation requested by the sweeper is returned in the report, not run.
- The 202 endpoints `updateAllUserStats`, `updateUserStatsById` and `forceRecalculateAllStats` are modelled as if they ran to completion before replying. The reply itself is 202 in every case.
- Time. Each call reads one `now`. `calculateAndSaveStatsForUsers` reads its clock once per user, and the model uses a single `now` for the whole call.
- `roundToMinute` assumes the local time zone's offset is a whole number of minutes.
- Dates and locale. The calendar bucketing of the roll-ups (`setMinutes`, local midnight, `getHours`, `toISOString` keys) is not modelled. The bucket's start and each hourly document's hour are inputs.
- `StatsAggregation.RollupStore.AggregateToHourly` and `StatsAggregation.RollupStore.AggregateToDaily` key their documents by the given bucket start, not by the formatted date string.
- `localeCompare`. `localeCompare` is replaced by code-unit lexicographic order (`Ordering.StrLt`). The lemmas rely only on its being a strict total order.
- The signature's `JSON.stringify` string is replaced by the normalized value it encodes. Comparing the strings and comparing the values agree on values of that shape.
- `Array.prototype.sort` is modelled by a stable insertion sort. Where the source's comparator can tie (companions with equal time), the model fixes an order that the engine's sort may not.
- JavaScript Maps and plain counter objects are insertion-ordered lists of key/amount entries. Object key order for integer-like keys is not modelled.
- Presence statuses are the four Discord statuses. A sample with any other status value is not modelled.
- Numbers are unbounded integers, with no floating point. `Math.round` and `Math.floor` are applied to the exact integer ratio.
- The dashboard. The DOM, ApexCharts, `fetch`, `localStorage`, event handlers and `generateAnnotations` are not modelled. The page's globals (`rawApiData`, `allChannels`, `CHANNEL_ORDER`) are parameters. `Date.now()` is the parameter `now`.
- The dashboard's JavaScript Maps are insertion-ordered sequences of entries.
- `Dashboard.SeriesList.ExtendTo` does not model aliasing between the series objects and other references to them.
- `DashboardActivity.ProcessUserActivity` tracks a user listed twice in `userIds` once, at its first position, as the source's `Map` construction does.
- `formatTimeSince` is modelled on integer millisecond differences.
- Express routes, middleware (JWT checks), `app.js`, the logger, the schemas without behaviour and `test_api.js` are not part of this model.
- `VoiceController.LatestIndex`: `findOne(...).sort({ sessionStart: -1 })` leaves ties between equal starts to the database. The model picks the record appended last.
- `VoiceController.IngestKeepsOpenIsLatest`: it relies on that choice among equal starts. Two changed posts of one guild within one minute can leave two records open in the source (`VoiceController.SameMinuteTie`). The claim holds for any database order only along runs whose calls fall in later minutes (`VoiceController.IngestKeepsStartsDistinct`).
- `VoiceController.AppendKeepsOpenIsLatest`: it relies on the same choice among equal starts.
- `VoiceController.IngestIdempotent`: it relies on the same choice. If the created record ties an earlier one of the same minute, the source may compare the repeat with the earlier one and create again.
- `VoiceController.IngestChannelsIdempotent`: it relies on the same choice as `VoiceController.IngestIdempotent`.
- `VoiceController.RepeatAfterCreated`: it relies on the same choice. It needs `findOne` to return the new record, and a same-minute tie leaves that to the database.
- `SessionCleanup.PerformCleanup` visits the open records in store order, not in the query's descending start order. The decisions do not depend on the order, because closing a record changes no start.
- `VoiceController.ScenarioStep5`: the trace's sixth step expects "unchanged", but the code answers "all empty". Both are status 200 and write nothing. The latest record is the closed one, with the earlier channels, so its signature differs from that of an empty state. The model follows the code.
- The scenario's clock readings are a minute apart, not the trace's ten-second delays, so each step falls in a new minute.

