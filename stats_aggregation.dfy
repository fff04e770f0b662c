/**
 * Hourly and daily roll-ups of a user's minute-by-minute activity samples
 * (src/services/StatsAggregationService.js).
 *
 * `aggregateToHourly` folds the samples of one hour into per-channel voice minutes,
 * per-channel message counts, voice interaction minutes per companion, presence
 * minutes per status and minutes per named activity, and stores the result under the
 * hour's key. `aggregateToDaily` folds the day's hourly documents into the same tables,
 * a 24-slot distribution of voice minutes and of messages per hour, the ten longest
 * interactions and the five longest activities, and stores it under the day's key.
 *
 * The hour or day bucket (local midnight, `setMinutes`, `getHours`) is calendar
 * arithmetic: the start of the bucket and each hourly document's local hour are given,
 * and the samples or documents of the bucket are the query results, in the order given.
 */
module StatsAggregation {
  import opened Wrappers
  import opened Ordering
  import opened JsCollections

  datatype Status = Online | Offline | Idle | Dnd

  /** The `presenceStats` object: minutes per status. */
  datatype Presence = Presence(online: int, offline: int, idle: int, dnd: int)
  {
    function Of(s: Status): int
    {
      match s
      case Online => online
      case Offline => offline
      case Idle => idle
      case Dnd => dnd
    }

    function Plus(s: Status, d: int): (r: Presence)
      ensures forall q :: r.Of(q) == Of(q) + if q == s then d else 0
    {
      match s
      case Online => this.(online := online + d)
      case Offline => this.(offline := offline + d)
      case Idle => this.(idle := idle + d)
      case Dnd => this.(dnd := dnd + d)
    }

    function Total(): int
    {
      online + offline + idle + dnd
    }

    /** `Object.entries(p).forEach(([status, minutes]) => presenceStats[status] += minutes)`. */
    function Add(p: Presence): (r: Presence)
      ensures forall q :: r.Of(q) == Of(q) + p.Of(q)
    {
      Presence(online + p.online, offline + p.offline, idle + p.idle, dnd + p.dnd)
    }
  }

  const NO_PRESENCE: Presence := Presence(0, 0, 0, 0)

  datatype VoiceChannelRef = VoiceChannelRef(channelId: string, friendlyName: string)

  datatype Interaction = Interaction(userId: string, friendlyName: string)

  datatype MessageChannel = MessageChannel(channelId: string, friendlyName: string, count: int)

  /** One minute sample (`UserActivity`); `activityName` is `activity.activity?.name`. */
  datatype Activity = Activity(
    friendlyName: string, status: Status, currentVoiceChannel: Option<VoiceChannelRef>,
    voiceInteractions: seq<Interaction>, messageChannels: seq<MessageChannel>, activityName: Option<string>)

  // ----- Map updates -----

  /** `list.forEach(e => map.set(e.key, (map.get(e.key) || { name, 0 }) + e.amount))`, first to last. */
  function AddEntries(t: seq<Entry>, es: seq<Entry>): seq<Entry>
    decreases es
  {
    if es == [] then t else AddEntries(Bump(t, es[0].key, es[0].name, es[0].amount), es[1..])
  }

  /** Sum of the amounts of the entries with key k. */
  function EntrySum(es: seq<Entry>, k: string): int
  {
    if es == [] then 0 else (if es[0].key == k then es[0].amount else 0) + EntrySum(es[1..], k)
  }

  /** Each entry's amount is added to its key. */
  lemma {:induction false} AddEntriesGet(t: seq<Entry>, es: seq<Entry>, k: string)
    decreases es
    ensures Get(AddEntries(t, es), k) == Get(t, k) + EntrySum(es, k)
  {
    if es != [] {
      BumpGet(t, es[0].key, es[0].name, es[0].amount, k);
      AddEntriesGet(Bump(t, es[0].key, es[0].name, es[0].amount), es[1..], k);
    }
  }

  /** The total of the table grows by the total of the entries. */
  lemma {:induction false} AddEntriesSum(t: seq<Entry>, es: seq<Entry>)
    decreases es
    ensures Sum(AddEntries(t, es)) == Sum(t) + Sum(es)
  {
    if es != [] {
      BumpSum(t, es[0].key, es[0].name, es[0].amount);
      AddEntriesSum(Bump(t, es[0].key, es[0].name, es[0].amount), es[1..]);
    }
  }

  lemma {:induction false} AddEntriesDistinct(t: seq<Entry>, es: seq<Entry>)
    decreases es
    requires DistinctKeys(t)
    ensures DistinctKeys(AddEntries(t, es))
  {
    if es != [] {
      BumpDistinct(t, es[0].key, es[0].name, es[0].amount);
      AddEntriesDistinct(Bump(t, es[0].key, es[0].name, es[0].amount), es[1..]);
    }
  }

  /** In a table with one entry per key, a key's amount is the sum of its entries. */
  lemma {:induction false} DistinctEntrySum(t: seq<Entry>, k: string)
    requires DistinctKeys(t)
    ensures EntrySum(t, k) == Get(t, k)
  {
    if t != [] {
      DistinctEntrySum(t[1..], k);
      if t[0].key == k {
        NoKeyNoSum(t[1..], k);
      }
    }
  }

  lemma {:induction false} NoKeyNoSum(t: seq<Entry>, k: string)
    requires forall i :: 0 <= i < |t| ==> t[i].key != k
    ensures EntrySum(t, k) == 0
  {
    if t != [] {
      NoKeyNoSum(t[1..], k);
    }
  }

  /** The Map loop: one `map.set` per entry. */
  method AddAll(t: seq<Entry>, es: seq<Entry>) returns (r: seq<Entry>)
    ensures r == AddEntries(t, es)
  {
    r := t;
    var j := 0;
    while j < |es|
      invariant 0 <= j <= |es|
      invariant AddEntries(r, es[j..]) == AddEntries(t, es)
    {
      assert es[j..][1..] == es[j + 1..];
      r := Bump(r, es[j].key, es[j].name, es[j].amount);
      j := j + 1;
    }
  }

  // ----- aggregateToHourly -----

  /** One minute with a companion. */
  function Heard(x: Interaction): Entry
  {
    Entry(x.userId, x.friendlyName, 1)
  }

  function Posted(m: MessageChannel): Entry
  {
    Entry(m.channelId, m.friendlyName, m.count)
  }

  /** The hour's Maps and the presence counts. */
  datatype HourTables = HourTables(
    voiceChannels: seq<Entry>, messageChannels: seq<Entry>, voiceInteractions: seq<Entry>,
    presence: Presence, activityStats: seq<Entry>)

  const NO_HOUR: HourTables := HourTables([], [], [], NO_PRESENCE, [])

  predicate InVoice(a: Activity)
  {
    a.currentVoiceChannel.Some?
  }

  /** `activity.activity?.name` is a non-empty name. */
  predicate Named(a: Activity)
  {
    a.activityName.Some? && a.activityName.value != ""
  }

  /**
   * One sample: a minute of its status; in a voice channel, a minute of that channel and
   * a minute with each listed companion; its message counts; a minute of its activity.
   */
  function HourStep(h: HourTables, a: Activity): HourTables
  {
    var vc := a.currentVoiceChannel;
    HourTables(
      if InVoice(a) then Bump(h.voiceChannels, vc.value.channelId, vc.value.friendlyName, 1) else h.voiceChannels,
      AddEntries(h.messageChannels, MapSeq(a.messageChannels, Posted)),
      if InVoice(a) then AddEntries(h.voiceInteractions, MapSeq(a.voiceInteractions, Heard)) else h.voiceInteractions,
      h.presence.Plus(a.status, 1),
      if Named(a) then Bump(h.activityStats, a.activityName.value, a.activityName.value, 1) else h.activityStats)
  }

  /** `activities.forEach(...)`, first to last. */
  function HourFold(h: HourTables, acts: seq<Activity>): HourTables
    decreases acts
  {
    if acts == [] then h else HourFold(HourStep(h, acts[0]), acts[1..])
  }

  /** The `UserHourlyStats` document. */
  datatype HourlyDoc = HourlyDoc(
    friendlyName: string, date: int,
    voiceTotal: int, voiceByChannel: seq<Entry>,
    messagesTotal: int, messagesByChannel: seq<Entry>,
    voiceInteractions: seq<Entry>, presence: Presence, activities: seq<Entry>)

  function HourlyFromTables(friendlyName: string, date: int, h: HourTables): HourlyDoc
  {
    HourlyDoc(friendlyName, date, Sum(h.voiceChannels), h.voiceChannels, Sum(h.messageChannels), h.messageChannels,
              h.voiceInteractions, h.presence, h.activityStats)
  }

  /** The document written for the hour starting at `date`, none without samples. */
  function HourlyRollup(acts: seq<Activity>, date: int): Option<HourlyDoc>
  {
    if acts == [] then None else Some(HourlyFromTables(acts[0].friendlyName, date, HourFold(NO_HOUR, acts)))
  }

  /** Number of samples spent in a voice channel. */
  function VoiceMinutes(acts: seq<Activity>): int
  {
    if acts == [] then 0 else (if InVoice(acts[0]) then 1 else 0) + VoiceMinutes(acts[1..])
  }

  /** Number of samples spent in voice channel c. */
  function ChannelMinutes(acts: seq<Activity>, c: string): int
  {
    if acts == [] then 0
    else (if InVoice(acts[0]) && acts[0].currentVoiceChannel.value.channelId == c then 1 else 0) + ChannelMinutes(acts[1..], c)
  }

  /** Number of samples in a voice channel that list k among the companions, counted once per listing. */
  function InteractionMinutes(acts: seq<Activity>, k: string): int
  {
    if acts == [] then 0
    else (if InVoice(acts[0]) then Listed(acts[0].voiceInteractions, k) else 0) + InteractionMinutes(acts[1..], k)
  }

  function Listed(xs: seq<Interaction>, k: string): nat
  {
    if xs == [] then 0 else (if xs[0].userId == k then 1 else 0) + Listed(xs[1..], k)
  }

  /** Messages sent, over every sample and channel. */
  function MessageCount(acts: seq<Activity>): int
  {
    if acts == [] then 0 else Sum(MapSeq(acts[0].messageChannels, Posted)) + MessageCount(acts[1..])
  }

  /** Samples with the activity name n. */
  function ActivityMinutes(acts: seq<Activity>, n: string): int
  {
    if acts == [] then 0 else (if Named(acts[0]) && acts[0].activityName.value == n then 1 else 0) + ActivityMinutes(acts[1..], n)
  }

  lemma {:induction false} ListedSum(xs: seq<Interaction>, k: string)
    ensures EntrySum(MapSeq(xs, Heard), k) == Listed(xs, k)
  {
    if xs != [] {
      assert MapSeq(xs, Heard)[1..] == MapSeq(xs[1..], Heard);
      ListedSum(xs[1..], k);
    }
  }

  /** Every sample is a minute of exactly one status. */
  lemma {:induction false} PresenceCountsSamples(h: HourTables, acts: seq<Activity>)
    ensures HourFold(h, acts).presence.Total() == h.presence.Total() + |acts|
    decreases acts
  {
    if acts != [] {
      PresenceCountsSamples(HourStep(h, acts[0]), acts[1..]);
    }
  }

  /** The voice tables: a minute per sample in voice, per channel and in total. */
  lemma {:induction false} VoiceCountsSamples(h: HourTables, acts: seq<Activity>, c: string)
    ensures Sum(HourFold(h, acts).voiceChannels) == Sum(h.voiceChannels) + VoiceMinutes(acts)
    ensures Get(HourFold(h, acts).voiceChannels, c) == Get(h.voiceChannels, c) + ChannelMinutes(acts, c)
    decreases acts
  {
    if acts != [] {
      var a := acts[0];
      if InVoice(a) {
        BumpSum(h.voiceChannels, a.currentVoiceChannel.value.channelId, a.currentVoiceChannel.value.friendlyName, 1);
        BumpGet(h.voiceChannels, a.currentVoiceChannel.value.channelId, a.currentVoiceChannel.value.friendlyName, 1, c);
      }
      VoiceCountsSamples(HourStep(h, a), acts[1..], c);
    }
  }

  /** Companion k gains a minute per listing, and only from samples in a voice channel. */
  lemma {:induction false} InteractionsCountListings(h: HourTables, acts: seq<Activity>, k: string)
    ensures Get(HourFold(h, acts).voiceInteractions, k) == Get(h.voiceInteractions, k) + InteractionMinutes(acts, k)
    decreases acts
  {
    if acts != [] {
      var a := acts[0];
      if InVoice(a) {
        AddEntriesGet(h.voiceInteractions, MapSeq(a.voiceInteractions, Heard), k);
        ListedSum(a.voiceInteractions, k);
      }
      InteractionsCountListings(HourStep(h, a), acts[1..], k);
    }
  }

  /** The message table totals every sample's message counts. */
  lemma {:induction false} MessagesCountAll(h: HourTables, acts: seq<Activity>)
    ensures Sum(HourFold(h, acts).messageChannels) == Sum(h.messageChannels) + MessageCount(acts)
    decreases acts
  {
    if acts != [] {
      AddEntriesSum(h.messageChannels, MapSeq(acts[0].messageChannels, Posted));
      MessagesCountAll(HourStep(h, acts[0]), acts[1..]);
    }
  }

  /** An activity gains a minute per sample that names it. */
  lemma {:induction false} ActivitiesCountSamples(h: HourTables, acts: seq<Activity>, n: string)
    ensures Get(HourFold(h, acts).activityStats, n) == Get(h.activityStats, n) + ActivityMinutes(acts, n)
    decreases acts
  {
    if acts != [] {
      var a := acts[0];
      if Named(a) {
        BumpGet(h.activityStats, a.activityName.value, a.activityName.value, 1, n);
      }
      ActivitiesCountSamples(HourStep(h, a), acts[1..], n);
    }
  }

  /** The Maps of the hour have one entry per key. */
  lemma {:induction false} HourFoldDistinct(h: HourTables, acts: seq<Activity>)
    requires DistinctKeys(h.voiceChannels) && DistinctKeys(h.messageChannels)
    requires DistinctKeys(h.voiceInteractions) && DistinctKeys(h.activityStats)
    ensures var r := HourFold(h, acts);
            DistinctKeys(r.voiceChannels) && DistinctKeys(r.messageChannels)
            && DistinctKeys(r.voiceInteractions) && DistinctKeys(r.activityStats)
    decreases acts
  {
    if acts != [] {
      var a := acts[0];
      if InVoice(a) {
        BumpDistinct(h.voiceChannels, a.currentVoiceChannel.value.channelId, a.currentVoiceChannel.value.friendlyName, 1);
        AddEntriesDistinct(h.voiceInteractions, MapSeq(a.voiceInteractions, Heard));
      }
      AddEntriesDistinct(h.messageChannels, MapSeq(a.messageChannels, Posted));
      if Named(a) {
        BumpDistinct(h.activityStats, a.activityName.value, a.activityName.value, 1);
      }
      HourFoldDistinct(HourStep(h, a), acts[1..]);
    }
  }

  /** Without samples there is no hourly document. */
  lemma HourlyNoneIff(acts: seq<Activity>, date: int)
    ensures HourlyRollup(acts, date).None? <==> acts == []
  {
  }

  /**
   * The hourly document: one presence minute per sample, a voice minute per sample in a
   * voice channel (per channel and in total), a companion minute per listing in voice,
   * every message counted, and an activity minute per sample naming it.
   */
  lemma HourlyContents(acts: seq<Activity>, date: int, c: string, k: string, n: string)
    requires acts != []
    ensures var d := HourlyRollup(acts, date).value;
            && d.friendlyName == acts[0].friendlyName && d.date == date
            && d.presence.Total() == |acts|
            && d.voiceTotal == VoiceMinutes(acts)
            && Get(d.voiceByChannel, c) == ChannelMinutes(acts, c)
            && Get(d.voiceInteractions, k) == InteractionMinutes(acts, k)
            && d.messagesTotal == MessageCount(acts)
            && Get(d.activities, n) == ActivityMinutes(acts, n)
  {
    PresenceCountsSamples(NO_HOUR, acts);
    VoiceCountsSamples(NO_HOUR, acts, c);
    InteractionsCountListings(NO_HOUR, acts, k);
    MessagesCountAll(NO_HOUR, acts);
    ActivitiesCountSamples(NO_HOUR, acts, n);
  }

  /** The per-channel lists of an hourly document have one entry per channel, and the totals are their sums. */
  lemma HourlyConsistent(acts: seq<Activity>, date: int)
    requires acts != []
    ensures Consistent(HourlyRollup(acts, date).value)
  {
    HourFoldDistinct(NO_HOUR, acts);
  }

  /** The totals are the sums of the per-channel lists, and each list has one entry per key. */
  predicate Consistent(d: HourlyDoc)
  {
    && d.voiceTotal == Sum(d.voiceByChannel) && d.messagesTotal == Sum(d.messagesByChannel)
    && DistinctKeys(d.voiceByChannel) && DistinctKeys(d.messagesByChannel)
    && DistinctKeys(d.voiceInteractions) && DistinctKeys(d.activities)
  }

  // ----- aggregateToDaily -----

  type Hour = h: int | 0 <= h < 24

  /** One of the `hourlyDistribution` arrays. */
  type Distribution = s: seq<int> | |s| == 24 witness [0, 0, 0, 0, 0, 0, 0, 0, 0, 0, 0, 0, 0, 0, 0, 0, 0, 0, 0, 0, 0, 0, 0, 0]

  const NO_DISTRIBUTION: Distribution := [0, 0, 0, 0, 0, 0, 0, 0, 0, 0, 0, 0, 0, 0, 0, 0, 0, 0, 0, 0, 0, 0, 0, 0]

  /** An hourly document of the day, with the local hour of its `date`. */
  datatype HourStat = HourStat(hour: Hour, doc: HourlyDoc)

  /** The day's Maps and presence sums. */
  datatype DayTables = DayTables(
    voiceChannels: seq<Entry>, messageChannels: seq<Entry>, voiceInteractions: seq<Entry>,
    presence: Presence, activityStats: seq<Entry>)

  const NO_DAY: DayTables := DayTables([], [], [], NO_PRESENCE, [])

  /** Everything the loop over the hourly documents updates. */
  datatype DayTally = DayTally(voiceDistribution: Distribution, messageDistribution: Distribution, tables: DayTables)

  const DAY_START: DayTally := DayTally(NO_DISTRIBUTION, NO_DISTRIBUTION, NO_DAY)

  /** An hourly document adds its per-channel minutes and counts, companion minutes, presence and activities. */
  function TablesStep(t: DayTables, d: HourlyDoc): DayTables
  {
    DayTables(AddEntries(t.voiceChannels, d.voiceByChannel), AddEntries(t.messageChannels, d.messagesByChannel),
              AddEntries(t.voiceInteractions, d.voiceInteractions), t.presence.Add(d.presence),
              AddEntries(t.activityStats, d.activities))
  }

  /** One hourly document: its totals overwrite its hour's slots, its lists are added. */
  function DayStep(t: DayTally, x: HourStat): DayTally
  {
    DayTally(t.voiceDistribution[x.hour := x.doc.voiceTotal], t.messageDistribution[x.hour := x.doc.messagesTotal],
             TablesStep(t.tables, x.doc))
  }

  /** `hourlyStats.forEach(...)`, first to last. */
  function DayFold(t: DayTally, hs: seq<HourStat>): DayTally
    decreases hs
  {
    if hs == [] then t else DayFold(DayStep(t, hs[0]), hs[1..])
  }

  const MAX_INTERACTIONS: nat := 10
  const MAX_ACTIVITIES: nat := 5

  /** The `UserDailyStats` document. */
  datatype DailyDoc = DailyDoc(
    friendlyName: string, date: int,
    voiceTotal: int, voiceByChannel: seq<Entry>, voiceHourly: Distribution,
    messagesTotal: int, messagesByChannel: seq<Entry>, messagesHourly: Distribution,
    topInteractions: seq<Entry>, presence: Presence, topActivities: seq<Entry>)

  function DailyFromTally(friendlyName: string, date: int, t: DayTally): DailyDoc
  {
    DailyDoc(friendlyName, date,
             Sum(t.tables.voiceChannels), t.tables.voiceChannels, t.voiceDistribution,
             Sum(t.tables.messageChannels), t.tables.messageChannels, t.messageDistribution,
             Top(t.tables.voiceInteractions, MAX_INTERACTIONS), t.tables.presence,
             Top(t.tables.activityStats, MAX_ACTIVITIES))
  }

  /** The document written for the day starting at `date`, none without hourly documents. */
  function DailyRollup(hs: seq<HourStat>, date: int): Option<DailyDoc>
  {
    if hs == [] then None else Some(DailyFromTally(hs[0].doc.friendlyName, date, DayFold(DAY_START, hs)))
  }

  /** Slot h holds the total of the last document of hour h. */
  lemma {:induction false} DistributionLast(t: DayTally, hs: seq<HourStat>, h: Hour, i: nat)
    requires i < |hs| && hs[i].hour == h
    requires forall j :: i < j < |hs| ==> hs[j].hour != h
    ensures DayFold(t, hs).voiceDistribution[h] == hs[i].doc.voiceTotal
    ensures DayFold(t, hs).messageDistribution[h] == hs[i].doc.messagesTotal
    decreases hs
  {
    if i == 0 {
      DistributionUntouched(DayStep(t, hs[0]), hs[1..], h);
    } else {
      DistributionLast(DayStep(t, hs[0]), hs[1..], h, i - 1);
    }
  }

  /** A slot no document names keeps its value. */
  lemma {:induction false} DistributionUntouched(t: DayTally, hs: seq<HourStat>, h: Hour)
    requires forall j :: 0 <= j < |hs| ==> hs[j].hour != h
    ensures DayFold(t, hs).voiceDistribution[h] == t.voiceDistribution[h]
    ensures DayFold(t, hs).messageDistribution[h] == t.messageDistribution[h]
    decreases hs
  {
    if hs != [] {
      DistributionUntouched(DayStep(t, hs[0]), hs[1..], h);
    }
  }

  /** Sum of a key's amounts over the hourly documents' voice lists. */
  function VoiceOver(hs: seq<HourStat>, c: string): int
  {
    if hs == [] then 0 else EntrySum(hs[0].doc.voiceByChannel, c) + VoiceOver(hs[1..], c)
  }

  function MessagesOver(hs: seq<HourStat>, c: string): int
  {
    if hs == [] then 0 else EntrySum(hs[0].doc.messagesByChannel, c) + MessagesOver(hs[1..], c)
  }

  function InteractionsOver(hs: seq<HourStat>, k: string): int
  {
    if hs == [] then 0 else EntrySum(hs[0].doc.voiceInteractions, k) + InteractionsOver(hs[1..], k)
  }

  function ActivitiesOver(hs: seq<HourStat>, n: string): int
  {
    if hs == [] then 0 else EntrySum(hs[0].doc.activities, n) + ActivitiesOver(hs[1..], n)
  }

  function PresenceOver(hs: seq<HourStat>, s: Status): int
  {
    if hs == [] then 0 else hs[0].doc.presence.Of(s) + PresenceOver(hs[1..], s)
  }

  /** Sum of the hourly documents' voice and message totals. */
  function VoiceTotalOver(hs: seq<HourStat>): int
  {
    if hs == [] then 0 else Sum(hs[0].doc.voiceByChannel) + VoiceTotalOver(hs[1..])
  }

  function MessagesTotalOver(hs: seq<HourStat>): int
  {
    if hs == [] then 0 else Sum(hs[0].doc.messagesByChannel) + MessagesTotalOver(hs[1..])
  }

  /** The day's tables are the sums, key by key, of the hourly documents. */
  lemma {:induction false} DayTablesAreSums(t: DayTally, hs: seq<HourStat>, c: string, s: Status)
    ensures var r := DayFold(t, hs).tables;
            && Get(r.voiceChannels, c) == Get(t.tables.voiceChannels, c) + VoiceOver(hs, c)
            && Get(r.messageChannels, c) == Get(t.tables.messageChannels, c) + MessagesOver(hs, c)
            && Get(r.voiceInteractions, c) == Get(t.tables.voiceInteractions, c) + InteractionsOver(hs, c)
            && Get(r.activityStats, c) == Get(t.tables.activityStats, c) + ActivitiesOver(hs, c)
            && r.presence.Of(s) == t.tables.presence.Of(s) + PresenceOver(hs, s)
    decreases hs
  {
    if hs != [] {
      var d := hs[0].doc;
      AddEntriesGet(t.tables.voiceChannels, d.voiceByChannel, c);
      AddEntriesGet(t.tables.messageChannels, d.messagesByChannel, c);
      AddEntriesGet(t.tables.voiceInteractions, d.voiceInteractions, c);
      AddEntriesGet(t.tables.activityStats, d.activities, c);
      DayTablesAreSums(DayStep(t, hs[0]), hs[1..], c, s);
    }
  }

  /** The day's totals are the sums of the hourly lists' totals. */
  lemma {:induction false} DayTotalsAreSums(t: DayTally, hs: seq<HourStat>)
    ensures Sum(DayFold(t, hs).tables.voiceChannels) == Sum(t.tables.voiceChannels) + VoiceTotalOver(hs)
    ensures Sum(DayFold(t, hs).tables.messageChannels) == Sum(t.tables.messageChannels) + MessagesTotalOver(hs)
    decreases hs
  {
    if hs != [] {
      AddEntriesSum(t.tables.voiceChannels, hs[0].doc.voiceByChannel);
      AddEntriesSum(t.tables.messageChannels, hs[0].doc.messagesByChannel);
      DayTotalsAreSums(DayStep(t, hs[0]), hs[1..]);
    }
  }

  /** Without hourly documents there is no daily document. */
  lemma DailyNoneIff(hs: seq<HourStat>, date: int)
    ensures DailyRollup(hs, date).None? <==> hs == []
  {
  }

  /** Both distributions have 24 slots; slot h holds the last hourly total of hour h, or 0 without one. */
  lemma DailyDistributions(hs: seq<HourStat>, date: int, h: Hour)
    requires hs != []
    ensures var d := DailyRollup(hs, date).value;
            && |d.voiceHourly| == 24 && |d.messagesHourly| == 24
            && ((forall j :: 0 <= j < |hs| ==> hs[j].hour != h) ==> d.voiceHourly[h] == 0 && d.messagesHourly[h] == 0)
            && forall i :: 0 <= i < |hs| && hs[i].hour == h && (forall j :: i < j < |hs| ==> hs[j].hour != h) ==>
                 d.voiceHourly[h] == hs[i].doc.voiceTotal && d.messagesHourly[h] == hs[i].doc.messagesTotal
  {
    if forall j :: 0 <= j < |hs| ==> hs[j].hour != h {
      DistributionUntouched(DAY_START, hs, h);
    }
    forall i | 0 <= i < |hs| && hs[i].hour == h && (forall j :: i < j < |hs| ==> hs[j].hour != h)
      ensures DayFold(DAY_START, hs).voiceDistribution[h] == hs[i].doc.voiceTotal
      ensures DayFold(DAY_START, hs).messageDistribution[h] == hs[i].doc.messagesTotal
    {
      DistributionLast(DAY_START, hs, h, i);
    }
  }

  /** The daily tables and totals are the sums over the hourly documents. */
  lemma DailySums(hs: seq<HourStat>, date: int, c: string, s: Status)
    requires hs != []
    ensures var d := DailyRollup(hs, date).value;
            && d.friendlyName == hs[0].doc.friendlyName && d.date == date
            && Get(d.voiceByChannel, c) == VoiceOver(hs, c)
            && Get(d.messagesByChannel, c) == MessagesOver(hs, c)
            && d.presence.Of(s) == PresenceOver(hs, s)
            && d.voiceTotal == VoiceTotalOver(hs)
            && d.messagesTotal == MessagesTotalOver(hs)
  {
    DayTablesAreSums(DAY_START, hs, c, s);
    DayTotalsAreSums(DAY_START, hs);
  }

  /** The tops: at most ten interactions and five activities, longest first, each the day's sum for its key. */
  lemma DailyTops(hs: seq<HourStat>, date: int)
    requires hs != []
    ensures var d := DailyRollup(hs, date).value;
            && |d.topInteractions| <= MAX_INTERACTIONS && |d.topActivities| <= MAX_ACTIVITIES
            && (forall i, j :: 0 <= i < j < |d.topInteractions| ==> d.topInteractions[i].amount >= d.topInteractions[j].amount)
            && (forall i, j :: 0 <= i < j < |d.topActivities| ==> d.topActivities[i].amount >= d.topActivities[j].amount)
            && (forall i :: 0 <= i < |d.topInteractions| ==> d.topInteractions[i].amount == InteractionsOver(hs, d.topInteractions[i].key))
            && (forall i :: 0 <= i < |d.topActivities| ==> d.topActivities[i].amount == ActivitiesOver(hs, d.topActivities[i].key))
            && var t := DayFold(DAY_START, hs).tables;
               && |d.topInteractions| == (if |t.voiceInteractions| < MAX_INTERACTIONS then |t.voiceInteractions| else MAX_INTERACTIONS)
               && |d.topActivities| == (if |t.activityStats| < MAX_ACTIVITIES then |t.activityStats| else MAX_ACTIVITIES)
  {
    var t := DayFold(DAY_START, hs).tables;
    TopShape(t.voiceInteractions, MAX_INTERACTIONS);
    TopShape(t.activityStats, MAX_ACTIVITIES);
    DayFoldDistinct(DAY_START, hs);
    var ti := Top(t.voiceInteractions, MAX_INTERACTIONS);
    forall i | 0 <= i < |ti| ensures ti[i].amount == InteractionsOver(hs, ti[i].key) {
      TableEntryIsGet(t.voiceInteractions, ti[i]);
      DayTablesAreSums(DAY_START, hs, ti[i].key, Online);
    }
    var ta := Top(t.activityStats, MAX_ACTIVITIES);
    forall i | 0 <= i < |ta| ensures ta[i].amount == ActivitiesOver(hs, ta[i].key) {
      TableEntryIsGet(t.activityStats, ta[i]);
      DayTablesAreSums(DAY_START, hs, ta[i].key, Online);
    }
  }

  /**
   * The tops are the longest: an interaction or activity of the day that is not listed
   * has no more minutes than any listed one.
   */
  lemma DailyTopsLongest(hs: seq<HourStat>, date: int, e: Entry)
    requires hs != []
    ensures var d := DailyRollup(hs, date).value;
            var t := DayFold(DAY_START, hs).tables;
            && (e in t.voiceInteractions && e !in d.topInteractions ==>
                  forall i :: 0 <= i < |d.topInteractions| ==> e.amount <= d.topInteractions[i].amount)
            && (e in t.activityStats && e !in d.topActivities ==>
                  forall i :: 0 <= i < |d.topActivities| ==> e.amount <= d.topActivities[i].amount)
  {
    var t := DayFold(DAY_START, hs).tables;
    if e in t.voiceInteractions && e !in Top(t.voiceInteractions, MAX_INTERACTIONS) {
      TopIsTop(t.voiceInteractions, MAX_INTERACTIONS, e);
    }
    if e in t.activityStats && e !in Top(t.activityStats, MAX_ACTIVITIES) {
      TopIsTop(t.activityStats, MAX_ACTIVITIES, e);
    }
  }

  /** An entry of a table with one entry per key holds that key's amount. */
  lemma TableEntryIsGet(t: seq<Entry>, e: Entry)
    requires DistinctKeys(t) && e in t
    ensures Get(t, e.key) == e.amount
  {
    var j :| 0 <= j < |t| && t[j] == e;
    GetFirst(t, e.key, j);
  }

  lemma {:induction false} DayFoldDistinct(t: DayTally, hs: seq<HourStat>)
    requires DistinctKeys(t.tables.voiceInteractions) && DistinctKeys(t.tables.activityStats)
    ensures DistinctKeys(DayFold(t, hs).tables.voiceInteractions) && DistinctKeys(DayFold(t, hs).tables.activityStats)
    decreases hs
  {
    if hs != [] {
      AddEntriesDistinct(t.tables.voiceInteractions, hs[0].doc.voiceInteractions);
      AddEntriesDistinct(t.tables.activityStats, hs[0].doc.activities);
      DayFoldDistinct(DayStep(t, hs[0]), hs[1..]);
    }
  }

  /**
   * With consistent hourly documents, one per hour, the day's voice total is the sum of
   * the voice distribution's slots.
   */
  lemma DailyVoiceTotalIsDistributionSum(hs: seq<HourStat>, date: int)
    requires hs != []
    requires forall i :: 0 <= i < |hs| ==> Consistent(hs[i].doc)
    requires forall i, j :: 0 <= i < j < |hs| ==> hs[i].hour != hs[j].hour
    ensures DailyRollup(hs, date).value.voiceTotal == SlotSum(DailyRollup(hs, date).value.voiceHourly, 24)
  {
    DayTotalsAreSums(DAY_START, hs);
    OneDocPerHourSlots(DAY_START, hs, 24);
    EmptySlotSum(24);
  }

  lemma {:induction false} EmptySlotSum(n: nat)
    requires n <= 24
    ensures SlotSum(NO_DISTRIBUTION, n) == 0
  {
    if n > 0 {
      EmptySlotSum(n - 1);
    }
  }

  /** Sum of the first n slots. */
  function SlotSum(s: seq<int>, n: nat): int
    requires n <= |s|
  {
    if n == 0 then 0 else SlotSum(s, n - 1) + s[n - 1]
  }

  /** Sum over the documents of the voice totals of those with an hour below n. */
  function VoiceBelow(hs: seq<HourStat>, n: nat): int
  {
    if hs == [] then 0 else (if hs[0].hour < n then hs[0].doc.voiceTotal else 0) + VoiceBelow(hs[1..], n)
  }

  /** Writing v into slot h changes the sum of the first n slots by the difference when h < n. */
  lemma {:induction false} SlotSumUpdate(s: Distribution, h: Hour, v: int, n: nat)
    requires n <= 24
    ensures SlotSum(s[h := v], n) == SlotSum(s, n) + if h < n then v - s[h] else 0
  {
    if n > 0 {
      SlotSumUpdate(s, h, v, n - 1);
    }
  }

  /** One document per hour: the first n slots sum the voice totals of hours below n, added to what was there. */
  lemma {:induction false} OneDocPerHourSlots(t: DayTally, hs: seq<HourStat>, n: nat)
    requires n <= 24
    requires forall i :: 0 <= i < |hs| ==> Consistent(hs[i].doc)
    requires forall i, j :: 0 <= i < j < |hs| ==> hs[i].hour != hs[j].hour
    requires forall i :: 0 <= i < |hs| ==> t.voiceDistribution[hs[i].hour] == 0
    ensures SlotSum(DayFold(t, hs).voiceDistribution, n) == SlotSum(t.voiceDistribution, n) + VoiceBelow(hs, n)
    ensures VoiceBelow(hs, 24) == VoiceTotalOver(hs)
    decreases hs
  {
    if hs != [] {
      var x := hs[0];
      var t1 := DayStep(t, x);
      SlotSumUpdate(t.voiceDistribution, x.hour, x.doc.voiceTotal, n);
      assert forall i :: 0 <= i < |hs[1..]| ==> hs[1..][i] == hs[i + 1];
      forall i | 0 <= i < |hs[1..]| ensures t1.voiceDistribution[hs[1..][i].hour] == 0 {
        assert hs[i + 1].hour != x.hour;
      }
      OneDocPerHourSlots(t1, hs[1..], n);
    }
  }

  // ----- The store -----

  /** Documents are keyed by guild, user and the start of their hour or day. */
  type RollupKey = (string, string, int)

  /** The `UserHourlyStats` and `UserDailyStats` collections. */
  class RollupStore {
    var hourly: map<RollupKey, HourlyDoc>
    var daily: map<RollupKey, DailyDoc>

    constructor()
      ensures hourly == map[] && daily == map[]
    {
      hourly := map[];
      daily := map[];
    }

    /** `aggregateToHourly(guildId, userId, date)` over the samples of the hour starting at `startOfHour`. */
    method AggregateToHourly(g: string, u: string, startOfHour: int, activities: seq<Activity>) returns (r: Option<HourlyDoc>)
      modifies this
      ensures r == HourlyRollup(activities, startOfHour)
      ensures hourly == if r.None? then old(hourly) else old(hourly)[(g, u, startOfHour) := r.value]
      ensures daily == old(daily)
    {
      if |activities| == 0 {
        return None;
      }
      var h := FoldActivities(activities);
      var doc := HourlyDoc(activities[0].friendlyName, startOfHour, Sum(h.voiceChannels), h.voiceChannels,
                           Sum(h.messageChannels), h.messageChannels, h.voiceInteractions, h.presence, h.activityStats);
      hourly := hourly[(g, u, startOfHour) := doc];
      r := Some(doc);
    }

    /** `aggregateToDaily(guildId, userId, date)` over the hourly documents of the day starting at `startOfDay`. */
    method AggregateToDaily(g: string, u: string, startOfDay: int, hourlyStats: seq<HourStat>) returns (r: Option<DailyDoc>)
      modifies this
      ensures r == DailyRollup(hourlyStats, startOfDay)
      ensures daily == if r.None? then old(daily) else old(daily)[(g, u, startOfDay) := r.value]
      ensures hourly == old(hourly)
    {
      if |hourlyStats| == 0 {
        return None;
      }
      var voiceDistribution, messageDistribution, t := FoldHours(hourlyStats);
      var doc := DailyDoc(hourlyStats[0].doc.friendlyName, startOfDay,
                          Sum(t.voiceChannels), t.voiceChannels, voiceDistribution[..],
                          Sum(t.messageChannels), t.messageChannels, messageDistribution[..],
                          Top(t.voiceInteractions, MAX_INTERACTIONS), t.presence, Top(t.activityStats, MAX_ACTIVITIES));
      daily := daily[(g, u, startOfDay) := doc];
      r := Some(doc);
    }
  }

  /** `activities.forEach(...)`. */
  method FoldActivities(activities: seq<Activity>) returns (h: HourTables)
    ensures h == HourFold(NO_HOUR, activities)
  {
    h := NO_HOUR;
    var i := 0;
    while i < |activities|
      invariant 0 <= i <= |activities|
      invariant HourFold(h, activities[i..]) == HourFold(NO_HOUR, activities)
    {
      assert activities[i..][1..] == activities[i + 1..];
      h := AddActivity(h, activities[i]);
      i := i + 1;
    }
  }

  /** `hourlyStats.forEach(...)` over the two `Array(24).fill(0)` distributions and the Maps. */
  method FoldHours(hourlyStats: seq<HourStat>) returns (voiceDistribution: array<int>, messageDistribution: array<int>, t: DayTables)
    ensures fresh(voiceDistribution) && fresh(messageDistribution)
    ensures voiceDistribution.Length == 24 && messageDistribution.Length == 24
    ensures DayTally(voiceDistribution[..], messageDistribution[..], t) == DayFold(DAY_START, hourlyStats)
  {
    voiceDistribution := new int[24](_ => 0);
    messageDistribution := new int[24](_ => 0);
    assert voiceDistribution[..] == NO_DISTRIBUTION && messageDistribution[..] == NO_DISTRIBUTION;
    t := NO_DAY;
    var i := 0;
    while i < |hourlyStats|
      invariant 0 <= i <= |hourlyStats|
      invariant DayFold(DayTally(voiceDistribution[..], messageDistribution[..], t), hourlyStats[i..])
             == DayFold(DAY_START, hourlyStats)
    {
      assert hourlyStats[i..][1..] == hourlyStats[i + 1..];
      var x := hourlyStats[i];
      voiceDistribution[x.hour] := x.doc.voiceTotal;
      messageDistribution[x.hour] := x.doc.messagesTotal;
      t := AddHour(t, x.doc);
      i := i + 1;
    }
  }

  /** The loop body for one sample. */
  method AddActivity(h: HourTables, a: Activity) returns (r: HourTables)
    ensures r == HourStep(h, a)
  {
    var presence := h.presence.Plus(a.status, 1);
    var voiceChannels := h.voiceChannels;
    var voiceInteractions := h.voiceInteractions;
    if a.currentVoiceChannel.Some? {
      var channel := a.currentVoiceChannel.value;
      voiceChannels := Bump(voiceChannels, channel.channelId, channel.friendlyName, 1);
      voiceInteractions := AddAll(voiceInteractions, MapSeq(a.voiceInteractions, Heard));
    }
    var messageChannels := AddAll(h.messageChannels, MapSeq(a.messageChannels, Posted));
    var activityStats := h.activityStats;
    if a.activityName.Some? && a.activityName.value != "" {
      activityStats := Bump(activityStats, a.activityName.value, a.activityName.value, 1);
    }
    r := HourTables(voiceChannels, messageChannels, voiceInteractions, presence, activityStats);
  }

  /** The loop body for one hourly document, apart from the distribution slots. */
  method AddHour(t: DayTables, d: HourlyDoc) returns (r: DayTables)
    ensures r == TablesStep(t, d)
  {
    var voiceChannels := AddAll(t.voiceChannels, d.voiceByChannel);
    var messageChannels := AddAll(t.messageChannels, d.messagesByChannel);
    var voiceInteractions := AddAll(t.voiceInteractions, d.voiceInteractions);
    var presence := t.presence.Add(d.presence);
    var activityStats := AddAll(t.activityStats, d.activities);
    r := DayTables(voiceChannels, messageChannels, voiceInteractions, presence, activityStats);
  }
}
