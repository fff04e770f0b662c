/**
 * The change detector and session store (src/controllers/voiceController.js).
 *
 * A bot posts the full voice state of a guild periodically. The state is reduced to a
 * canonical signature (active channels only, members and channels sorted by id, ids
 * only) and compared with the signature of the guild's latest record: an equal state
 * is a heartbeat, a different state closes the latest record (when still open) and,
 * unless every channel is empty, opens a new record at the current minute.
 *
 * The signature is the normalized value itself; `JSON.stringify` is injective on
 * values of that shape, so comparing the strings is comparing the values.
 */
module VoiceController {
  import opened Wrappers
  import opened Ordering
  import opened GuildVoice

  const MINUTE_MS: int := 60000

  /** `roundToMinute`: seconds and milliseconds set to zero. */
  function RoundToMinute(ms: int): (r: int)
    ensures r <= ms < r + MINUTE_MS
    ensures r % MINUTE_MS == 0
  {
    ms - ms % MINUTE_MS
  }

  lemma RoundToMinuteProperties(a: int, b: int)
    ensures RoundToMinute(RoundToMinute(a)) == RoundToMinute(a)
    ensures a <= b ==> RoundToMinute(a) <= RoundToMinute(b)
  {
  }

  // ----- The canonical signature (createStateSignature) -----

  datatype SigChannel = SigChannel(channelId: string, memberIds: seq<string>)

  predicate IsActive(c: Channel)
  {
    |c.members| > 0
  }

  predicate MemberLt(a: Member, b: Member)
  {
    StrLt(a.userId, b.userId)
  }

  function UserIdOf(m: Member): string
  {
    m.userId
  }

  predicate SigChannelLt(a: SigChannel, b: SigChannel)
  {
    StrLt(a.channelId, b.channelId)
  }

  /** One active channel: its id and its members' ids, members sorted by id. */
  function NormalizeChannel(c: Channel): SigChannel
  {
    SigChannel(c.channelId, MapSeq(Sort(c.members, MemberLt), UserIdOf))
  }

  /** `createStateSignature`: drop empty channels, normalize, sort channels by id. */
  function Signature(channels: seq<Channel>): seq<SigChannel>
  {
    Sort(MapSeq(Filter(channels, IsActive), NormalizeChannel), SigChannelLt)
  }

  lemma SigChannelLtIsStrictWeakOrder()
    ensures StrictWeakOrder(SigChannelLt)
  {
    forall x: SigChannel, y: SigChannel ensures SigChannelLt(x, y) ==> !SigChannelLt(y, x) {
      StrLtAsymmetric(x.channelId, y.channelId);
    }
    forall x: SigChannel, y: SigChannel, z: SigChannel
      ensures SigChannelLt(x, z) ==> SigChannelLt(x, y) || SigChannelLt(y, z)
    {
      StrLtNegTransitive(x.channelId, y.channelId, z.channelId);
    }
  }

  /** The normalized member list is the sorted list of the members' ids. */
  lemma NormalizeChannelSortsIds(c: Channel)
    ensures NormalizeChannel(c).memberIds == Sort(MemberIds(c.members), StrLt)
    ensures Sorted(NormalizeChannel(c).memberIds, StrLt)
  {
    SortMapCommutes(c.members, MemberLt, UserIdOf, StrLt);
    assert MapSeq(c.members, UserIdOf) == MemberIds(c.members);
    StrLtIsStrictWeakOrder();
    SortSorted(MemberIds(c.members), StrLt);
  }

  lemma SignatureChannelSorted(channels: seq<Channel>, i: nat)
    requires i < |Signature(channels)|
    ensures Sorted(Signature(channels)[i].memberIds, StrLt)
  {
    var fa := Filter(channels, IsActive);
    var n := MapSeq(fa, NormalizeChannel);
    SortElement(n, SigChannelLt, i);
    var k :| 0 <= k < |n| && n[k] == Signature(channels)[i];
    NormalizeChannelSortsIds(fa[k]);
  }

  /** The signature is canonical: channels in id order, each member list in id order. */
  lemma SignatureCanonical(channels: seq<Channel>)
    ensures Sorted(Signature(channels), SigChannelLt)
    ensures forall i :: 0 <= i < |Signature(channels)| ==> Sorted(Signature(channels)[i].memberIds, StrLt)
  {
    SigChannelLtIsStrictWeakOrder();
    SortSorted(MapSeq(Filter(channels, IsActive), NormalizeChannel), SigChannelLt);
    forall i | 0 <= i < |Signature(channels)| ensures Sorted(Signature(channels)[i].memberIds, StrLt) {
      SignatureChannelSorted(channels, i);
    }
  }

  /** The signature is empty exactly when every channel is empty (in particular for no channels). */
  lemma SignatureEmpty(channels: seq<Channel>)
    ensures Signature(channels) == [] <==> forall i :: 0 <= i < |channels| ==> !IsActive(channels[i])
  {
    var f := Filter(channels, IsActive);
    if exists i :: 0 <= i < |channels| && IsActive(channels[i]) {
      var i :| 0 <= i < |channels| && IsActive(channels[i]);
      assert channels[i] in f;
    }
  }

  /** Two channels with the same id and the same multiset of member ids normalize alike. */
  lemma NormalizeChannelIgnoresOrderAndNames(c: Channel, d: Channel)
    requires c.channelId == d.channelId
    requires multiset(MemberIds(c.members)) == multiset(MemberIds(d.members))
    ensures NormalizeChannel(c) == NormalizeChannel(d)
    ensures IsActive(c) == IsActive(d)
  {
    NormalizeChannelSortsIds(c);
    NormalizeChannelSortsIds(d);
    StrLtIsStrictWeakOrder();
    forall x: string, y: string | x != y ensures StrLt(x, y) || StrLt(y, x) {
      StrLtTotal(x, y);
    }
    SortPermutationInvariant(MemberIds(c.members), MemberIds(d.members), StrLt);
    assert |multiset(MemberIds(c.members))| == |c.members|;
    assert |multiset(MemberIds(d.members))| == |d.members|;
  }

  lemma {:induction false} NormalizeAllPointwise(a: seq<Channel>, b: seq<Channel>)
    requires |a| == |b|
    requires forall i :: 0 <= i < |a| ==> IsActive(a[i]) == IsActive(b[i])
    requires forall i :: 0 <= i < |a| && IsActive(a[i]) ==> NormalizeChannel(a[i]) == NormalizeChannel(b[i])
    ensures MapSeq(Filter(a, IsActive), NormalizeChannel) == MapSeq(Filter(b, IsActive), NormalizeChannel)
  {
    if a != [] {
      NormalizeAllPointwise(a[1..], b[1..]);
      var ha := if IsActive(a[0]) then [a[0]] else [];
      var hb := if IsActive(b[0]) then [b[0]] else [];
      MapConcat(ha, Filter(a[1..], IsActive), NormalizeChannel);
      MapConcat(hb, Filter(b[1..], IsActive), NormalizeChannel);
    }
  }

  /**
   * Reordering the members of any channel, or changing usernames or channel names,
   * leaves the signature unchanged: only channel ids and member-id multisets matter.
   */
  lemma SignatureIgnoresMemberOrder(a: seq<Channel>, b: seq<Channel>)
    requires |a| == |b|
    requires forall i :: 0 <= i < |a| ==> a[i].channelId == b[i].channelId
    requires forall i :: 0 <= i < |a| ==> multiset(MemberIds(a[i].members)) == multiset(MemberIds(b[i].members))
    ensures Signature(a) == Signature(b)
  {
    forall i | 0 <= i < |a| ensures IsActive(a[i]) == IsActive(b[i]) && NormalizeChannel(a[i]) == NormalizeChannel(b[i]) {
      NormalizeChannelIgnoresOrderAndNames(a[i], b[i]);
    }
    NormalizeAllPointwise(a, b);
  }

  /** No two different active channels share an id (Discord channel ids are unique). */
  predicate DistinctActiveIds(channels: seq<Channel>)
  {
    forall c, d :: c in channels && d in channels && IsActive(c) && IsActive(d) && c.channelId == d.channelId ==> c == d
  }

  lemma NormalizedPair(a: seq<Channel>, i: nat, j: nat)
    requires DistinctActiveIds(a)
    requires i < |Filter(a, IsActive)| && j < |Filter(a, IsActive)|
    requires NormalizeChannel(Filter(a, IsActive)[i]) != NormalizeChannel(Filter(a, IsActive)[j])
    ensures Filter(a, IsActive)[i].channelId != Filter(a, IsActive)[j].channelId
  {
    var fa := Filter(a, IsActive);
    assert fa[i] in fa && fa[j] in fa;
  }

  /** Different normalized active channels of a list without shared active ids differ in their ids. */
  lemma NormalizedTotal(a: seq<Channel>)
    requires DistinctActiveIds(a)
    ensures TotalOn(multiset(MapSeq(Filter(a, IsActive), NormalizeChannel)), SigChannelLt)
  {
    var fa := Filter(a, IsActive);
    var na := MapSeq(fa, NormalizeChannel);
    forall i, j | 0 <= i < |na| && 0 <= j < |na| && na[i] != na[j] ensures SigChannelLt(na[i], na[j]) || SigChannelLt(na[j], na[i]) {
      NormalizedPair(a, i, j);
      StrLtTotal(na[i].channelId, na[j].channelId);
    }
    TotalOnFromSeq(na, SigChannelLt);
  }

  /** Reordering the channels leaves the signature unchanged. */
  lemma SignatureIgnoresChannelOrder(a: seq<Channel>, b: seq<Channel>)
    requires multiset(a) == multiset(b)
    requires DistinctActiveIds(a)
    ensures Signature(a) == Signature(b)
  {
    var fa, fb := Filter(a, IsActive), Filter(b, IsActive);
    FilterPermutation(a, b, IsActive);
    MapPermutation(fa, fb, NormalizeChannel);
    SigChannelLtIsStrictWeakOrder();
    NormalizedTotal(a);
    SortPermutationInvariant(MapSeq(fa, NormalizeChannel), MapSeq(fb, NormalizeChannel), SigChannelLt);
  }

  /** Empty channels, wherever they appear, do not contribute to the signature. */
  lemma SignatureIgnoresEmptyChannel(a: seq<Channel>, c: Channel, b: seq<Channel>)
    requires !IsActive(c)
    ensures Signature(a + [c] + b) == Signature(a + b)
  {
    FilterConcat(a + [c], b, IsActive);
    FilterConcat(a, [c], IsActive);
    FilterConcat(a, b, IsActive);
    assert Filter([c], IsActive) == [];
    assert Filter(a, IsActive) + [] == Filter(a, IsActive);
  }

  /** Keeping only the active channels does not change the signature. */
  lemma SignatureOfActive(channels: seq<Channel>)
    ensures Signature(Filter(channels, IsActive)) == Signature(channels)
  {
    FilterIdempotent(channels, IsActive);
  }

  // ----- The ingest payload -----

  /** A member as posted: `username` is None when absent. */
  datatype InMember = InMember(memberId: string, username: Option<string>)

  /** A channel as posted: `channelName` is None when absent. */
  datatype InChannel = InChannel(channelId: string, channelName: Option<string>, members: seq<InMember>)

  /** JavaScript truthiness of an optional string. */
  predicate Truthy(s: Option<string>)
  {
    s.Some? && s.value != ""
  }

  /** `memberId` becomes `userId`; a missing or empty username becomes `User <memberId>`. */
  function ToMember(m: InMember): (r: Member)
    ensures r.userId == m.memberId
    ensures Truthy(m.username) ==> r.username == m.username.value
    ensures !Truthy(m.username) ==> r.username == "User " + m.memberId
  {
    Member(m.memberId, if Truthy(m.username) then m.username.value else "User " + m.memberId)
  }

  /**
   * A posted channel as stored: a missing or empty name is sent as null, and the
   * schema default only replaces an undefined name, so it is stored as null.
   */
  function ToChannel(c: InChannel): (r: Channel)
    ensures r.channelId == c.channelId
    ensures r.channelName == if Truthy(c.channelName) then c.channelName else None
    ensures |r.members| == |c.members|
    ensures forall j :: 0 <= j < |c.members| ==> r.members[j] == ToMember(c.members[j])
  {
    var name := if Truthy(c.channelName) then Value(c.channelName.value) else Null;
    Channel(c.channelId, StoredChannelName(c.channelId, name), MapSeq(c.members, ToMember))
  }

  // ----- The store and recordGuildActivity -----

  /**
   * `findOne({ guildId }).sort({ sessionStart: -1 })`: the guild's record with the
   * greatest start; among equal starts, the one appended last.
   */
  function LatestIndex(rs: seq<Session>, g: string): (r: Option<nat>)
    ensures r.Some? ==> r.value < |rs| && rs[r.value].guildId == g
  {
    if rs == [] then None
    else
      var n := |rs| - 1;
      var p := LatestIndex(rs[..n], g);
      if rs[n].guildId != g then p
      else if p.None? || rs[p.value].sessionStart <= rs[n].sessionStart then Some(n)
      else p
  }

  /**
   * The latest record is the guild's record with the greatest start that no later
   * record of the guild equals; there is none exactly when the guild has no record.
   */
  lemma {:induction false} LatestIndexSpec(rs: seq<Session>, g: string)
    ensures var r := LatestIndex(rs, g);
            && (r.None? <==> forall i :: 0 <= i < |rs| ==> rs[i].guildId != g)
            && (r.Some? ==> forall i :: 0 <= i < |rs| && rs[i].guildId == g ==> rs[i].sessionStart <= rs[r.value].sessionStart)
            && (r.Some? ==> forall i :: r.value < i < |rs| && rs[i].guildId == g ==> rs[i].sessionStart < rs[r.value].sessionStart)
  {
    if rs != [] {
      var n := |rs| - 1;
      LatestIndexSpec(rs[..n], g);
      assert forall i :: 0 <= i < n ==> rs[..n][i] == rs[i];
    }
  }

  datatype IngestResult =
    | BadRequest                 // 400: `channels` is not an array
    | Unchanged(record: Session) // 200: same state as the latest record, which is returned
    | Created(record: Session)   // 201: a new session was opened
    | AllEmpty                   // 200: every channel is empty, no new session
    | InvalidRecord              // 500: the new record fails the schema, after the previous one was closed

  datatype IngestOutcome = IngestOutcome(records: seq<Session>, result: IngestResult)

  /** The store after one ingest call, and the answer; `channels` is None when it is not an array. */
  function Ingest(rs: seq<Session>, g: string, channels: Option<seq<InChannel>>, clock: int): IngestOutcome
  {
    if channels.None? then IngestOutcome(rs, BadRequest)
    else IngestChannels(rs, g, MapSeq(channels.value, ToChannel), RoundToMinute(clock))
  }

  /** The posted state `data` differs from the latest record's state, or there is no record. */
  predicate Changed(rs: seq<Session>, g: string, data: seq<Channel>)
  {
    var li := LatestIndex(rs, g);
    li.None? || Signature(rs[li.value].channels) != Signature(data)
  }

  /** The latest record closed at `now` when it is open; the store as is otherwise. */
  function CloseLatest(rs: seq<Session>, g: string, now: int): seq<Session>
  {
    var li := LatestIndex(rs, g);
    if li.Some? && rs[li.value].sessionEnd.None?
    then rs[li.value := rs[li.value].(sessionEnd := Some(now))]
    else rs
  }

  /**
   * The schema's `required: true` on `channelId` and `userId`: a stored channel needs a
   * non-empty id, and so does each of its members.
   */
  predicate StorableChannels(cs: seq<Channel>)
  {
    forall i :: 0 <= i < |cs| ==> Storable(cs[i])
  }

  predicate Storable(c: Channel)
  {
    c.channelId != "" && forall j :: 0 <= j < |c.members| ==> c.members[j].userId != ""
  }

  /** The decision once the payload is mapped and the time rounded. */
  function IngestChannels(rs: seq<Session>, g: string, data: seq<Channel>, now: int): IngestOutcome
  {
    if !Changed(rs, g, data) then IngestOutcome(rs, Unchanged(rs[LatestIndex(rs, g).value]))
    else
      var active := Filter(data, IsActive);
      if |active| > 0 && !StorableChannels(active) then
        IngestOutcome(CloseLatest(rs, g, now), InvalidRecord)
      else if |active| > 0 then
        var s := NewSession(g, now, active);
        IngestOutcome(CloseLatest(rs, g, now) + [s], Created(s))
      else
        IngestOutcome(CloseLatest(rs, g, now), AllEmpty)
  }

  /** The voice-session collection. */
  class SessionStore {
    var records: seq<Session>

    constructor()
      ensures records == []
    {
      records := [];
    }

    /** Scan for the latest record of a guild. */
    method FindLatest(g: string) returns (r: Option<nat>)
      ensures r == LatestIndex(records, g)
    {
      r := None;
      var i := 0;
      while i < |records|
        invariant 0 <= i <= |records|
        invariant r == LatestIndex(records[..i], g)
      {
        assert records[..i + 1][..i] == records[..i];
        if records[i].guildId == g && (r.None? || records[r.value].sessionStart <= records[i].sessionStart) {
          r := Some(i);
        }
        i := i + 1;
      }
      assert records[..i] == records;
    }

    /** `recordGuildActivity` at wall-clock time `clock`. */
    method RecordGuildActivity(g: string, channels: Option<seq<InChannel>>, clock: int) returns (res: IngestResult)
      modifies this
      ensures IngestOutcome(records, res) == Ingest(old(records), g, channels, clock)
    {
      var now := RoundToMinute(clock);
      if channels.None? {
        return BadRequest;
      }
      var data := MapSeq(channels.value, ToChannel);
      var newSignature := Signature(data);
      var li := FindLatest(g);
      if li.Some? {
        var last := records[li.value];
        if Signature(last.channels) == newSignature {
          return Unchanged(last);
        }
        if last.sessionEnd.None? {
          records := records[li.value := last.(sessionEnd := Some(now))];
        }
      }
      var active := Filter(data, IsActive);
      if |active| > 0 && !StorableChannels(active) {
        res := InvalidRecord;
      } else if |active| > 0 {
        var s := NewSession(g, now, active);
        records := records + [s];
        res := Created(s);
      } else {
        res := AllEmpty;
      }
    }
  }

  // ----- What an ingest call does -----

  /** A non-array `channels` is answered with 400 and the store is not touched. */
  lemma IngestRejectsNonArray(rs: seq<Session>, g: string, clock: int)
    ensures Ingest(rs, g, None, clock) == IngestOutcome(rs, BadRequest)
  {
  }

  /** The same state as the latest record: nothing is written and that record is returned. */
  lemma IngestUnchanged(rs: seq<Session>, g: string, cs: seq<InChannel>, clock: int)
    requires LatestIndex(rs, g).Some?
    requires Signature(rs[LatestIndex(rs, g).value].channels) == Signature(MapSeq(cs, ToChannel))
    ensures Ingest(rs, g, Some(cs), clock) == IngestOutcome(rs, Unchanged(rs[LatestIndex(rs, g).value]))
  {
  }

  /**
   * Closing touches only the latest record: it gets `sessionEnd = now` if it was open
   * and is otherwise left as is. Guilds and starts are unchanged, so every guild keeps
   * its latest record.
   */
  lemma CloseLatestSpec(rs: seq<Session>, g: string, now: int, h: string)
    ensures var r := CloseLatest(rs, g, now);
            && |r| == |rs|
            && (forall i :: 0 <= i < |rs| && Some(i) != LatestIndex(rs, g) ==> r[i] == rs[i])
            && (LatestIndex(rs, g).Some? ==>
                  var k := LatestIndex(rs, g).value;
                  r[k] == if rs[k].sessionEnd.None? then rs[k].(sessionEnd := Some(now)) else rs[k])
            && LatestIndex(r, h) == LatestIndex(rs, h)
  {
    var li := LatestIndex(rs, g);
    if li.Some? && rs[li.value].sessionEnd.None? {
      LatestIndexUpdate(rs, li.value, rs[li.value].(sessionEnd := Some(now)), h);
    }
  }

  /**
   * On a change, the latest record gets `sessionEnd = now` if it was open and is
   * otherwise left as is; no other existing record changes.
   */
  lemma IngestClosesLatest(rs: seq<Session>, g: string, cs: seq<InChannel>, clock: int)
    requires Changed(rs, g, MapSeq(cs, ToChannel))
    ensures var o := Ingest(rs, g, Some(cs), clock);
            && |rs| <= |o.records|
            && (forall i :: 0 <= i < |rs| && Some(i) != LatestIndex(rs, g) ==> o.records[i] == rs[i])
            && (LatestIndex(rs, g).Some? ==>
                  var k := LatestIndex(rs, g).value;
                  o.records[k] == if rs[k].sessionEnd.None? then rs[k].(sessionEnd := Some(RoundToMinute(clock))) else rs[k])
  {
    var now := RoundToMinute(clock);
    var o := IngestChannels(rs, g, MapSeq(cs, ToChannel), now);
    CloseLatestSpec(rs, g, now, g);
    assert o.records[..|rs|] == CloseLatest(rs, g, now);
  }

  /** Some posted channel has members. */
  predicate AnyMembers(cs: seq<InChannel>)
  {
    exists i :: 0 <= i < |cs| && |cs[i].members| > 0
  }

  lemma ActiveIffAnyMembers(cs: seq<InChannel>)
    ensures |Filter(MapSeq(cs, ToChannel), IsActive)| > 0 <==> AnyMembers(cs)
  {
    var data := MapSeq(cs, ToChannel);
    var f := Filter(data, IsActive);
    if AnyMembers(cs) {
      var i :| 0 <= i < |cs| && |cs[i].members| > 0;
      assert data[i] in f;
    }
    if |f| > 0 {
      var i :| 0 <= i < |data| && data[i] == f[0];
      assert |cs[i].members| > 0;
    }
  }

  /** Every posted channel with members has a non-empty `channelId` and non-empty `memberId`s. */
  predicate StorablePayload(cs: seq<InChannel>)
  {
    forall i :: 0 <= i < |cs| && |cs[i].members| > 0 ==> PostedStorable(cs[i])
  }

  predicate PostedStorable(ic: InChannel)
  {
    ic.channelId != "" && forall j :: 0 <= j < |ic.members| ==> ic.members[j].memberId != ""
  }

  /** The channels `create` is given pass the schema exactly when the payload's non-empty channels carry their ids. */
  lemma StorableIffPayload(cs: seq<InChannel>)
    ensures StorableChannels(Filter(MapSeq(cs, ToChannel), IsActive)) <==> StorablePayload(cs)
  {
    var data := MapSeq(cs, ToChannel);
    var f := Filter(data, IsActive);
    if StorableChannels(f) {
      forall i | 0 <= i < |cs| && |cs[i].members| > 0 ensures PostedStorable(cs[i]) {
        assert data[i] in f;
        var k :| 0 <= k < |f| && f[k] == data[i];
        StorableChannel(cs[i]);
      }
    }
    if StorablePayload(cs) {
      forall k | 0 <= k < |f| ensures Storable(f[k]) {
        assert f[k] in data;
        var i :| 0 <= i < |data| && data[i] == f[k];
        StorableChannel(cs[i]);
      }
    }
  }

  /** A posted channel passes the schema exactly when its stored form does. */
  lemma StorableChannel(ic: InChannel)
    ensures Storable(ToChannel(ic)) <==> PostedStorable(ic)
  {
    var c := ToChannel(ic);
    assert forall j :: 0 <= j < |c.members| ==> c.members[j].userId == ic.members[j].memberId;
  }

  /**
   * On a change, a session is appended exactly when some posted channel has members
   * and those channels carry their ids; it belongs to the guild, starts at the current
   * minute, is open, and holds exactly the non-empty posted channels, in order. With
   * members but a missing id the answer is 500, after the close; with no members it
   * is "all empty".
   */
  lemma IngestAppendsIffActive(rs: seq<Session>, g: string, cs: seq<InChannel>, clock: int)
    requires Changed(rs, g, MapSeq(cs, ToChannel))
    ensures var o := Ingest(rs, g, Some(cs), clock);
            && (|o.records| == |rs| + 1 <==> AnyMembers(cs) && StorablePayload(cs))
            && (AnyMembers(cs) && StorablePayload(cs) ==>
                  && o.result == Created(o.records[|rs|])
                  && o.records[|rs|] == Session(g, RoundToMinute(clock), None, Filter(MapSeq(cs, ToChannel), IsActive)))
            && (AnyMembers(cs) && !StorablePayload(cs) ==> |o.records| == |rs| && o.result == InvalidRecord)
            && (!AnyMembers(cs) ==> |o.records| == |rs| && o.result == AllEmpty)
  {
    var now := RoundToMinute(clock);
    var data := MapSeq(cs, ToChannel);
    var active := Filter(data, IsActive);
    ActiveIffAnyMembers(cs);
    StorableIffPayload(cs);
    CloseLatestSpec(rs, g, now, g);
    var o := IngestChannels(rs, g, data, now);
    if |active| > 0 && !StorableChannels(active) {
      assert o == IngestOutcome(CloseLatest(rs, g, now), InvalidRecord);
    } else if |active| > 0 {
      assert o == IngestOutcome(CloseLatest(rs, g, now) + [NewSession(g, now, active)], Created(NewSession(g, now, active)));
    } else {
      assert o == IngestOutcome(CloseLatest(rs, g, now), AllEmpty);
    }
  }

  /** Every stored channel of a created session has members and comes from the payload. */
  lemma IngestCreatedChannels(rs: seq<Session>, g: string, cs: seq<InChannel>, clock: int)
    requires Ingest(rs, g, Some(cs), clock).result.Created?
    ensures var s := Ingest(rs, g, Some(cs), clock).result.record;
            forall c :: c in s.channels ==> |c.members| > 0 && exists ic :: ic in cs && c == ToChannel(ic)
  {
    var data := MapSeq(cs, ToChannel);
    forall c | c in Filter(data, IsActive) ensures exists ic :: ic in cs && c == ToChannel(ic) {
      var i :| 0 <= i < |data| && data[i] == c;
      assert cs[i] in cs;
    }
  }

  // ----- The one open session per guild -----

  /** Every open record of guild g is the guild's latest record. */
  predicate OpenIsLatest(rs: seq<Session>, g: string)
  {
    forall i :: 0 <= i < |rs| && rs[i].guildId == g && rs[i].sessionEnd.None? ==> LatestIndex(rs, g) == Some(i)
  }

  /** No record of guild g starts after `now`. */
  predicate StartsNotAfter(rs: seq<Session>, g: string, now: int)
  {
    forall i :: 0 <= i < |rs| && rs[i].guildId == g ==> rs[i].sessionStart <= now
  }

  /** Changing a record without changing its guild or start does not move any guild's latest record. */
  lemma {:induction false} LatestIndexUpdate(rs: seq<Session>, k: nat, s: Session, h: string)
    requires k < |rs| && s.guildId == rs[k].guildId && s.sessionStart == rs[k].sessionStart
    ensures LatestIndex(rs[k := s], h) == LatestIndex(rs, h)
  {
    var n := |rs| - 1;
    if k == n {
      assert rs[k := s][..n] == rs[..n];
    } else {
      assert rs[k := s][..n] == rs[..n][k := s];
      LatestIndexUpdate(rs[..n], k, s, h);
    }
  }

  /** Appending a record of another guild does not move h's latest record. */
  lemma LatestIndexAppendOther(rs: seq<Session>, s: Session, h: string)
    requires s.guildId != h
    ensures LatestIndex(rs + [s], h) == LatestIndex(rs, h)
  {
    assert (rs + [s])[..|rs|] == rs;
  }

  /** Appending a record that starts no earlier than every record of its guild makes it the latest. */
  lemma LatestIndexAppendSame(rs: seq<Session>, s: Session)
    requires StartsNotAfter(rs, s.guildId, s.sessionStart)
    ensures LatestIndex(rs + [s], s.guildId) == Some(|rs|)
  {
    assert (rs + [s])[..|rs|] == rs;
  }

  /** Closing keeps every guild's open records confined to its latest record. */
  lemma CloseLatestKeepsOpenIsLatest(rs: seq<Session>, g: string, now: int, h: string)
    requires OpenIsLatest(rs, h)
    ensures OpenIsLatest(CloseLatest(rs, g, now), h)
    ensures h == g ==> forall i :: 0 <= i < |rs| && CloseLatest(rs, g, now)[i].guildId == g ==> CloseLatest(rs, g, now)[i].sessionEnd.Some?
  {
    CloseLatestSpec(rs, g, now, h);
  }

  /** Appending keeps the property when the new record is another guild's, or its guild has nothing open and nothing later. */
  lemma AppendKeepsOpenIsLatest(rs: seq<Session>, s: Session, h: string)
    requires OpenIsLatest(rs, h)
    requires s.guildId == h ==> StartsNotAfter(rs, h, s.sessionStart)
    requires s.guildId == h ==> forall i :: 0 <= i < |rs| && rs[i].guildId == h ==> rs[i].sessionEnd.Some?
    ensures OpenIsLatest(rs + [s], h)
  {
    if s.guildId == h {
      LatestIndexAppendSame(rs, s);
    } else {
      LatestIndexAppendOther(rs, s, h);
    }
  }

  /**
   * With a clock that does not go backwards, ingesting for any guild keeps every
   * guild's open records confined to its latest record, as `LatestIndex` picks it.
   * Among equal starts that pick is the model's (`SameMinuteTie` shows a database
   * choosing otherwise); when the guild's starts are distinct and each call is at a
   * later minute, `IngestKeepsStartsDistinct` and `NewestIsLatest` leave no tie, and
   * with `OpenIsLatestOneOpen` a guild then never has two open sessions.
   */
  lemma IngestKeepsOpenIsLatest(rs: seq<Session>, g: string, cs: Option<seq<InChannel>>, clock: int, h: string)
    requires OpenIsLatest(rs, h)
    requires StartsNotAfter(rs, g, RoundToMinute(clock))
    ensures OpenIsLatest(Ingest(rs, g, cs, clock).records, h)
  {
    if cs.Some? {
      var now := RoundToMinute(clock);
      var data := MapSeq(cs.value, ToChannel);
      if Changed(rs, g, data) {
        var rs1 := CloseLatest(rs, g, now);
        var active := Filter(data, IsActive);
        CloseLatestKeepsOpenIsLatest(rs, g, now, h);
        CloseLatestSpec(rs, g, now, g);
        if |active| > 0 && StorableChannels(active) {
          var s := NewSession(g, now, active);
          assert IngestChannels(rs, g, data, now).records == rs1 + [s];
          AppendKeepsOpenIsLatest(rs1, s, h);
        } else {
          assert IngestChannels(rs, g, data, now).records == rs1;
        }
      }
    }
  }

  // ----- Equal starts -----

  /** At most one record of guild h is open. */
  predicate AtMostOneOpen(rs: seq<Session>, h: string)
  {
    forall i, j ::
      (0 <= i < |rs| && 0 <= j < |rs| && rs[i].guildId == h && rs[j].guildId == h && rs[i].sessionEnd.None? && rs[j].sessionEnd.None?) ==> i == j
  }

  /** Confining the open records to the latest one leaves at most one open. */
  lemma OpenIsLatestOneOpen(rs: seq<Session>, h: string)
    requires OpenIsLatest(rs, h)
    ensures AtMostOneOpen(rs, h)
  {
  }

  /** No two records of guild g start at the same time. */
  predicate StartsDistinct(rs: seq<Session>, g: string)
  {
    forall i, j :: 0 <= i < j < |rs| && rs[i].guildId == g && rs[j].guildId == g ==> rs[i].sessionStart != rs[j].sessionStart
  }

  /** Every record of guild g starts strictly before `now`. */
  predicate StartsBefore(rs: seq<Session>, g: string, now: int)
  {
    forall i :: 0 <= i < |rs| && rs[i].guildId == g ==> rs[i].sessionStart < now
  }

  /**
   * With distinct starts, the guild's greatest start is held by one record only, so
   * whatever order the database gives equal keys, `findOne` returns the model's record.
   */
  lemma NewestIsLatest(rs: seq<Session>, g: string, k: nat)
    requires StartsDistinct(rs, g)
    requires k < |rs| && rs[k].guildId == g
    requires forall i :: 0 <= i < |rs| && rs[i].guildId == g ==> rs[i].sessionStart <= rs[k].sessionStart
    ensures LatestIndex(rs, g) == Some(k)
  {
    LatestIndexSpec(rs, g);
  }

  /** Appending a record that starts after every record of its guild keeps the starts distinct. */
  lemma AppendKeepsStartsDistinct(rs: seq<Session>, s: Session, h: string)
    requires StartsDistinct(rs, h)
    requires s.guildId == h ==> StartsBefore(rs, h, s.sessionStart)
    ensures StartsDistinct(rs + [s], h)
  {
    var w := rs + [s];
    forall i, j | 0 <= i < j < |w| && w[i].guildId == h && w[j].guildId == h
      ensures w[i].sessionStart != w[j].sessionStart
    {
      assert w[i] == rs[i];
      if j < |rs| {
        assert w[j] == rs[j];
      }
    }
  }

  /** Closing changes no record's guild or start. */
  lemma CloseLatestKeepsStarts(rs: seq<Session>, g: string, now: int)
    ensures var r := CloseLatest(rs, g, now);
            && |r| == |rs|
            && forall i :: 0 <= i < |rs| ==> r[i].guildId == rs[i].guildId && r[i].sessionStart == rs[i].sessionStart
  {
    CloseLatestSpec(rs, g, now, g);
  }

  /**
   * When every call is at a later minute than the guild's stored starts, the starts stay
   * distinct and none is later than the call's minute: no call then meets a tie, and
   * `IngestKeepsOpenIsLatest`, `IngestIdempotent` and `RepeatAfterCreated` hold whatever
   * the database does with equal keys.
   */
  lemma IngestKeepsStartsDistinct(rs: seq<Session>, g: string, cs: Option<seq<InChannel>>, clock: int, h: string)
    requires StartsDistinct(rs, h)
    requires StartsBefore(rs, g, RoundToMinute(clock))
    ensures StartsDistinct(Ingest(rs, g, cs, clock).records, h)
    ensures StartsNotAfter(Ingest(rs, g, cs, clock).records, g, RoundToMinute(clock))
  {
    if cs.Some? {
      var now := RoundToMinute(clock);
      var data := MapSeq(cs.value, ToChannel);
      var rs1 := CloseLatest(rs, g, now);
      CloseLatestKeepsStarts(rs, g, now);
      assert StartsDistinct(rs1, h) by {
        forall i, j | 0 <= i < j < |rs1| && rs1[i].guildId == h && rs1[j].guildId == h
          ensures rs1[i].sessionStart != rs1[j].sessionStart
        {
          assert rs[i].guildId == h && rs[j].guildId == h;
        }
      }
      assert StartsBefore(rs1, g, now);
      var active := Filter(data, IsActive);
      if !Changed(rs, g, data) {
        assert Ingest(rs, g, cs, clock).records == rs;
      } else if |active| > 0 && StorableChannels(active) {
        var s := NewSession(g, now, active);
        assert Ingest(rs, g, cs, clock).records == rs1 + [s];
        AppendKeepsStartsDistinct(rs1, s, h);
        assert StartsNotAfter(rs1 + [s], g, now) by {
          forall i | 0 <= i < |rs1 + [s]| && (rs1 + [s])[i].guildId == g ensures (rs1 + [s])[i].sessionStart <= now {
            if i < |rs1| {
              assert (rs1 + [s])[i] == rs1[i];
            }
          }
        }
      } else {
        assert Ingest(rs, g, cs, clock).records == rs1;
      }
    }
  }

  const T1 := Session("g", 0, Some(0), [C1Alice])
  const T2 := Session("g", 0, None, [C1Both])

  lemma ScenarioStorable()
    ensures StorableChannels([C1Alice]) && StorableChannels([C1Both]) && StorableChannels([C1Bob])
  {
    assert Storable(C1Alice) && Storable(C1Both) && Storable(C1Bob);
  }

  lemma TieClose()
    ensures CloseLatest([S1], "g", 0) == [T1]
  {
    ScenarioLatest();
  }

  lemma TieCreateChannels()
    ensures IngestChannels([S1], "g", [C1Both], 0) == IngestOutcome([T1, T2], Created(T2))
  {
    ScenarioChanged3();
    TieClose();
    SignatureOneChannel(C1Both);
    ScenarioStorable();
  }

  lemma TieCreate()
    ensures Ingest([S1], "g", Some(AliceAndBob), 10000) == IngestOutcome([T1, T2], Created(T2))
  {
    ScenarioChannels();
    TieCreateChannels();
  }

  lemma TieLatest()
    ensures LatestIndex([T1, T2], "g") == Some(1)
  {
    var t := [T1, T2];
    assert t[..1] == [T1];
    assert t[..1][..0] == [];
  }

  lemma TieChanged()
    ensures Changed([T1, T2], "g", [C1Bob])
    ensures CloseLatest([T1, T2], "g", 0) == [T1, T2.(sessionEnd := Some(0))]
  {
    TieLatest();
    ScenarioSignatures();
  }

  lemma TieThird()
    ensures Ingest([T1, T2], "g", Some(BobAlone), 20000).records == [T1, T2.(sessionEnd := Some(0)), NewSession("g", 0, [C1Bob])]
  {
    ScenarioChannels();
    TieChanged();
    SignatureOneChannel(C1Bob);
    ScenarioStorable();
  }

  /**
   * Two changed posts of one guild within a minute leave two records with the same
   * start, the earlier closed and the later open. Both have the greatest start, and if
   * the database returns the earlier one, a third changed post in that minute finds
   * it closed, closes nothing and appends a record beside the open one: two open
   * sessions. The model's choice, the record appended last, closes the open one.
   */
  lemma SameMinuteTie()
    ensures var t := Ingest(Ingest([], "g", Some(AliceAlone), 0).records, "g", Some(AliceAndBob), 10000).records;
            && t == [T1, T2]
            && !StartsDistinct(t, "g")
            && Signature(t[0].channels) != Signature(MapSeq(BobAlone, ToChannel))
            && t[0].sessionEnd.Some?
            && !AtMostOneOpen(t + [NewSession("g", 0, [C1Bob])], "g")
            && AtMostOneOpen(Ingest(t, "g", Some(BobAlone), 20000).records, "g")
  {
    ScenarioStep1();
    TieCreate();
    TieThird();
    ScenarioChannels();
    ScenarioSignatures();
    TieOpenCounts();
  }

  lemma TieOpenCounts()
    ensures !StartsDistinct([T1, T2], "g")
    ensures !AtMostOneOpen([T1, T2] + [NewSession("g", 0, [C1Bob])], "g")
    ensures AtMostOneOpen([T1, T2.(sessionEnd := Some(0)), NewSession("g", 0, [C1Bob])], "g")
  {
    var t := [T1, T2];
    assert t[0].guildId == t[1].guildId == "g" && t[0].sessionStart == t[1].sessionStart;
    var w := [T1, T2] + [NewSession("g", 0, [C1Bob])];
    assert w[1].sessionEnd.None? && w[2].sessionEnd.None?;
    var u := [T1, T2.(sessionEnd := Some(0)), NewSession("g", 0, [C1Bob])];
    forall i, j | 0 <= i < |u| && 0 <= j < |u| && u[i].guildId == "g" && u[j].guildId == "g"
      && u[i].sessionEnd.None? && u[j].sessionEnd.None? ensures i == j
    {
      assert i == 2 && j == 2;
    }
  }

  // ----- Repeating a state -----

  /**
   * Posting the same state twice writes nothing the second time, whatever the first
   * call did: the store after both calls is the store after the first.
   */
  lemma IngestIdempotent(rs: seq<Session>, g: string, cs: seq<InChannel>, t1: int, t2: int)
    requires StartsNotAfter(rs, g, RoundToMinute(t1))
    ensures var o1 := Ingest(rs, g, Some(cs), t1);
            var o2 := Ingest(o1.records, g, Some(cs), t2);
            o2.records == o1.records && !o2.result.Created?
  {
    IngestChannelsIdempotent(rs, g, MapSeq(cs, ToChannel), RoundToMinute(t1), RoundToMinute(t2));
  }

  lemma IngestChannelsIdempotent(rs: seq<Session>, g: string, data: seq<Channel>, now: int, now2: int)
    requires StartsNotAfter(rs, g, now)
    ensures IngestChannels(IngestChannels(rs, g, data, now).records, g, data, now2).records == IngestChannels(rs, g, data, now).records
    ensures !IngestChannels(IngestChannels(rs, g, data, now).records, g, data, now2).result.Created?
  {
    if Changed(rs, g, data) {
      var active := Filter(data, IsActive);
      if |active| > 0 && !StorableChannels(active) {
        RepeatAfterInvalid(rs, g, data, now, now2);
      } else if |active| > 0 {
        RepeatAfterCreated(rs, g, data, now);
      } else {
        RepeatAfterAllEmpty(rs, g, data, now, now2);
      }
    }
  }

  lemma RepeatAfterCreated(rs: seq<Session>, g: string, data: seq<Channel>, now: int)
    requires StartsNotAfter(rs, g, now)
    requires |Filter(data, IsActive)| > 0 && StorableChannels(Filter(data, IsActive))
    ensures !Changed(CloseLatest(rs, g, now) + [NewSession(g, now, Filter(data, IsActive))], g, data)
  {
    var rs1 := CloseLatest(rs, g, now);
    var s := NewSession(g, now, Filter(data, IsActive));
    CloseLatestSpec(rs, g, now, g);
    assert StartsNotAfter(rs1, g, now);
    LatestIndexAppendSame(rs1, s);
    assert (rs1 + [s])[|rs1|] == s;
    SignatureOfActive(data);
  }

  lemma RepeatAfterInvalid(rs: seq<Session>, g: string, data: seq<Channel>, now: int, now2: int)
    requires Changed(rs, g, data)
    requires |Filter(data, IsActive)| > 0 && !StorableChannels(Filter(data, IsActive))
    ensures IngestChannels(CloseLatest(rs, g, now), g, data, now2) == IngestOutcome(CloseLatest(rs, g, now), InvalidRecord)
  {
    var rs1 := CloseLatest(rs, g, now);
    CloseLatestSpec(rs, g, now, g);
    var li := LatestIndex(rs1, g);
    assert li.Some? ==> rs1[li.value].sessionEnd.Some?;
    assert li.Some? ==> rs1[li.value].channels == rs[li.value].channels;
    assert Changed(rs1, g, data);
    assert CloseLatest(rs1, g, now2) == rs1;
  }

  lemma RepeatAfterAllEmpty(rs: seq<Session>, g: string, data: seq<Channel>, now: int, now2: int)
    requires |Filter(data, IsActive)| == 0
    ensures IngestChannels(CloseLatest(rs, g, now), g, data, now2).records == CloseLatest(rs, g, now)
  {
    var rs1 := CloseLatest(rs, g, now);
    CloseLatestSpec(rs, g, now, g);
    var li := LatestIndex(rs1, g);
    assert li.Some? ==> rs1[li.value].sessionEnd.Some?;
    if Changed(rs1, g, data) {
      assert CloseLatest(rs1, g, now2) == rs1;
    }
  }

  /**
   * After an all-empty snapshot closed the latest record, posting that record's state
   * again is answered "unchanged" with the closed record: no new session is opened.
   */
  lemma ReopenAfterEmptyIsUnchanged(rs: seq<Session>, g: string, empty: seq<InChannel>, cs: seq<InChannel>, t1: int, t2: int)
    requires LatestIndex(rs, g).Some?
    requires rs[LatestIndex(rs, g).value].sessionEnd.None?
    requires Signature(rs[LatestIndex(rs, g).value].channels) != []
    requires forall i :: 0 <= i < |empty| ==> empty[i].members == []
    requires Signature(MapSeq(cs, ToChannel)) == Signature(rs[LatestIndex(rs, g).value].channels)
    ensures var k := LatestIndex(rs, g).value;
            var o1 := Ingest(rs, g, Some(empty), t1);
            var closed := rs[k].(sessionEnd := Some(RoundToMinute(t1)));
            var o2 := Ingest(o1.records, g, Some(cs), t2);
            && o1 == IngestOutcome(rs[k := closed], AllEmpty)
            && o2 == IngestOutcome(o1.records, Unchanged(closed))
  {
    var k := LatestIndex(rs, g).value;
    var closed := rs[k].(sessionEnd := Some(RoundToMinute(t1)));
    SignatureEmpty(MapSeq(empty, ToChannel));
    ActiveIffAnyMembers(empty);
    LatestIndexUpdate(rs, k, closed, g);
  }

  // ----- getGuildActivity -----

  /** A date query parameter: absent or empty, present but not a date, or a date in ms. */
  datatype DateParam = Absent | Unparsable | At(ms: int)

  datatype ActivityAnswer = InvalidDate | Docs(docs: seq<Session>)

  predicate StartLt(a: Session, b: Session)
  {
    a.sessionStart < b.sessionStart
  }

  /** The query filter: the guild, and the closed start range when both bounds are dates. */
  predicate Selected(x: Session, g: string, start: DateParam, end: DateParam)
  {
    x.guildId == g && (start.At? && end.At? ==> start.ms <= x.sessionStart <= end.ms)
  }

  /** `getGuildActivity`: the date range applies only when both bounds are given. */
  function GetGuildActivity(rs: seq<Session>, g: string, start: DateParam, end: DateParam): ActivityAnswer
  {
    if !start.Absent? && !end.Absent? && (start.Unparsable? || end.Unparsable?) then InvalidDate
    else Docs(Sort(Filter(rs, x => Selected(x, g, start, end)), StartLt))
  }

  lemma StartLtIsStrictWeakOrder()
    ensures StrictWeakOrder(StartLt)
  {
  }

  /**
   * A range with a bound that is not a date is refused; otherwise the answer is every
   * selected record, each as often as it is stored, in ascending start order.
   */
  lemma GetGuildActivitySpec(rs: seq<Session>, g: string, start: DateParam, end: DateParam)
    ensures var a := GetGuildActivity(rs, g, start, end);
            && (a.InvalidDate? <==> !start.Absent? && !end.Absent? && (start.Unparsable? || end.Unparsable?))
            && (a.Docs? ==> Sorted(a.docs, StartLt))
            && (a.Docs? ==> forall x :: x in a.docs <==> x in rs && Selected(x, g, start, end))
            && (a.Docs? ==> forall x :: multiset(a.docs)[x] == if Selected(x, g, start, end) then multiset(rs)[x] else 0)
  {
    var p := x => Selected(x, g, start, end);
    var f := Filter(rs, p);
    StartLtIsStrictWeakOrder();
    SortSorted(f, StartLt);
    forall x ensures multiset(Sort(f, StartLt))[x] == if Selected(x, g, start, end) then multiset(rs)[x] else 0 {
      FilterCount(rs, p, x);
    }
    assert forall x :: x in Sort(f, StartLt) <==> x in multiset(f);
  }

  // ----- A sequence of snapshots at one-minute spacing -----

  const Alice := InMember("alice", Some("Alice"))
  const Bob := InMember("bob", Some("Bob"))
  const AliceAlone: seq<InChannel> := [InChannel("c1", Some("General"), [Alice])]
  const AliceAndBob: seq<InChannel> := [InChannel("c1", Some("General"), [Alice, Bob])]
  const BobAlone: seq<InChannel> := [InChannel("c1", Some("General"), [Bob])]

  const C1Alice := Channel("c1", Some("General"), [Member("alice", "Alice")])
  const C1Both := Channel("c1", Some("General"), [Member("alice", "Alice"), Member("bob", "Bob")])
  const C1Bob := Channel("c1", Some("General"), [Member("bob", "Bob")])

  lemma ScenarioChannels()
    ensures MapSeq(AliceAlone, ToChannel) == [C1Alice]
    ensures MapSeq(AliceAndBob, ToChannel) == [C1Both]
    ensures MapSeq(BobAlone, ToChannel) == [C1Bob]
  {
    assert MapSeq(AliceAlone[0].members, ToMember) == C1Alice.members;
    assert MapSeq(AliceAndBob[0].members, ToMember) == C1Both.members;
    assert MapSeq(BobAlone[0].members, ToMember) == C1Bob.members;
  }

  lemma NormalizeOneMember(c: Channel)
    requires |c.members| == 1
    ensures NormalizeChannel(c) == SigChannel(c.channelId, [c.members[0].userId])
  {
    SortSingleton(c.members[0], MemberLt);
    assert c.members == [c.members[0]];
  }

  lemma SignatureOneChannel(c: Channel)
    requires IsActive(c)
    ensures Signature([c]) == [NormalizeChannel(c)]
    ensures Filter([c], IsActive) == [c]
  {
    assert [c][1..] == [];
    SortSingleton(NormalizeChannel(c), SigChannelLt);
  }

  lemma NormalizeBoth()
    ensures NormalizeChannel(C1Both) == SigChannel("c1", ["alice", "bob"])
  {
    var a, b := C1Both.members[0], C1Both.members[1];
    assert StrLt("alice", "bob");
    assert C1Both.members[1..] == [b];
    SortSingleton(b, MemberLt);
    assert Sort(C1Both.members, MemberLt) == C1Both.members;
  }

  lemma ScenarioSignatures()
    ensures Signature([C1Alice]) == [SigChannel("c1", ["alice"])]
    ensures Signature([C1Both]) == [SigChannel("c1", ["alice", "bob"])]
    ensures Signature([C1Bob]) == [SigChannel("c1", ["bob"])]
    ensures Filter([C1Alice], IsActive) == [C1Alice]
    ensures Filter([C1Both], IsActive) == [C1Both]
    ensures Filter([C1Bob], IsActive) == [C1Bob]
  {
    NormalizeOneMember(C1Alice);
    NormalizeOneMember(C1Bob);
    NormalizeBoth();
    SignatureOneChannel(C1Alice);
    SignatureOneChannel(C1Both);
    SignatureOneChannel(C1Bob);
  }

  const S1 := Session("g", 0, None, [C1Alice])
  const S2 := Session("g", 120000, None, [C1Both])
  const S3 := Session("g", 180000, None, [C1Bob])
  const R3 := [S1.(sessionEnd := Some(120000)), S2]
  const R4 := [S1.(sessionEnd := Some(120000)), S2.(sessionEnd := Some(180000)), S3]
  const R5 := [S1.(sessionEnd := Some(120000)), S2.(sessionEnd := Some(180000)), S3.(sessionEnd := Some(240000))]

  lemma ScenarioLatest()
    ensures LatestIndex([S1], "g") == Some(0)
    ensures LatestIndex(R3, "g") == Some(1)
    ensures LatestIndex(R4, "g") == Some(2)
    ensures LatestIndex(R5, "g") == Some(2)
  {
    assert [S1][..0] == [];
    assert R3[..1] == [R3[0]];
    assert R4[..2][..1] == [R4[0]];
    assert R4[..2] == [R4[0], R4[1]];
    assert R5[..2][..1] == [R5[0]];
    assert R5[..2] == [R5[0], R5[1]];
  }

  // The steps below, in order: first connection (created), the same state a minute
  // later (unchanged), a second user joins (closed and created), one leaves (closed and
  // created), everybody leaves (closed only), the empty state again ("all empty").

  lemma ScenarioStep1()
    ensures Ingest([], "g", Some(AliceAlone), 0) == IngestOutcome([S1], Created(S1))
  {
    ScenarioChannels();
    ScenarioCreate1();
  }

  lemma ScenarioCreate1()
    ensures IngestChannels([], "g", [C1Alice], 0) == IngestOutcome([S1], Created(S1))
  {
    SignatureOneChannel(C1Alice);
    ScenarioStorable();
  }

  lemma ScenarioStep2()
    ensures Ingest([S1], "g", Some(AliceAlone), 60000) == IngestOutcome([S1], Unchanged(S1))
  {
    ScenarioChannels();
    ScenarioSame2();
  }

  lemma ScenarioSame2()
    ensures IngestChannels([S1], "g", [C1Alice], 60000) == IngestOutcome([S1], Unchanged(S1))
  {
    ScenarioLatest();
  }

  lemma ScenarioStep3()
    ensures Ingest([S1], "g", Some(AliceAndBob), 120000) == IngestOutcome(R3, Created(S2))
  {
    ScenarioChannels();
    ScenarioJoin3();
  }

  lemma ScenarioJoin3()
    ensures IngestChannels([S1], "g", [C1Both], 120000) == IngestOutcome(R3, Created(S2))
  {
    ScenarioChanged3();
    ScenarioClose3();
    SignatureOneChannel(C1Both);
    ScenarioStorable();
    ScenarioNewSessions();
  }

  lemma ScenarioClose3()
    ensures CloseLatest([S1], "g", 120000) == [R3[0]]
  {
    ScenarioLatest();
  }

  lemma ScenarioNewSessions()
    ensures NewSession("g", 120000, [C1Both]) == S2
    ensures NewSession("g", 180000, [C1Bob]) == S3
  {
  }

  lemma ScenarioChanged3()
    ensures Changed([S1], "g", [C1Both])
  {
    ScenarioLatest();
    ScenarioSignatures();
  }

  lemma ScenarioStep4()
    ensures Ingest(R3, "g", Some(BobAlone), 180000) == IngestOutcome(R4, Created(S3))
  {
    ScenarioChannels();
    ScenarioLeave4();
  }

  lemma ScenarioLeave4()
    ensures IngestChannels(R3, "g", [C1Bob], 180000) == IngestOutcome(R4, Created(S3))
  {
    ScenarioChanged4();
    ScenarioClose4();
    SignatureOneChannel(C1Bob);
    ScenarioStorable();
    ScenarioNewSessions();
  }

  lemma ScenarioClose4()
    ensures CloseLatest(R3, "g", 180000) == [R4[0], R4[1]]
  {
    ScenarioLatest();
  }

  lemma ScenarioChanged4()
    ensures Changed(R3, "g", [C1Bob])
  {
    ScenarioLatest();
    ScenarioSignatures();
  }

  lemma ScenarioStep5()
    ensures Ingest(R4, "g", Some([]), 240000) == IngestOutcome(R5, AllEmpty)
    ensures Ingest(R5, "g", Some([]), 300000) == IngestOutcome(R5, AllEmpty)
    ensures Duration(R5[0]) == Some(120) && Duration(R5[1]) == Some(60) && Duration(R5[2]) == Some(60)
  {
    ScenarioLatest();
    SignatureEmpty([]);
    SignatureOneChannel(C1Bob);
  }
}
