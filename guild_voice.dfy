/** The persisted voice-session record (src/models/GuildVoice.js). */
module GuildVoice {
  import opened Wrappers
  import JsMath

  datatype Member = Member(userId: string, username: string)

  /** A channel of a record; `channelName` is None when the stored value is null. */
  datatype Channel = Channel(channelId: string, channelName: Option<string>, members: seq<Member>)

  /** One configuration of a guild's voice channels; `sessionEnd` is None while the session is open. */
  datatype Session = Session(guildId: string, sessionStart: int, sessionEnd: Option<int>, channels: seq<Channel>)

  /** How a field arrives at the schema: absent (undefined), explicitly null, or a value. */
  datatype Field<T> = Undefined | Null | Value(value: T)

  /**
   * The stored `channelName`: Mongoose applies the schema default `Canal <channelId>`
   * only when the field is undefined; an explicit null is stored as null.
   */
  function StoredChannelName(channelId: string, given: Field<string>): (r: Option<string>)
    ensures given.Undefined? ==> r == Some("Canal " + channelId)
    ensures given.Null? ==> r.None?
    ensures given.Value? ==> r == Some(given.value)
  {
    match given
    case Undefined => Some("Canal " + channelId)
    case Null => None
    case Value(n) => Some(n)
  }

  /** A new record is open: `sessionEnd` defaults to null. */
  function NewSession(guildId: string, sessionStart: int, channels: seq<Channel>): (s: Session)
    ensures s.sessionEnd.None?
    ensures s.guildId == guildId && s.sessionStart == sessionStart && s.channels == channels
  {
    Session(guildId, sessionStart, None, channels)
  }

  /** The `duration` virtual: null while open, else the length rounded to whole seconds. */
  function Duration(s: Session): (r: Option<int>)
    ensures r.None? <==> s.sessionEnd.None?
    ensures r.Some? ==> 1000 * r.value - 500 <= s.sessionEnd.value - s.sessionStart < 1000 * r.value + 500
  {
    match s.sessionEnd
    case None => None
    case Some(end) => Some(JsMath.RoundDiv(end - s.sessionStart, 1000))
  }

  lemma DurationExamples()
    ensures Duration(Session("g", 0, Some(1500), [])) == Some(2)
    ensures Duration(Session("g", 0, Some(1499), [])) == Some(1)
    ensures Duration(Session("g", 0, None, [])) == None
  {
  }

  /** `channels.find(ch => ch.channelId === channelId)`. */
  function FindChannelById(channels: seq<Channel>, channelId: string): (r: Option<nat>)
    ensures r.None? <==> forall i :: 0 <= i < |channels| ==> channels[i].channelId != channelId
    ensures r.Some? ==> r.value < |channels| && channels[r.value].channelId == channelId
    ensures r.Some? ==> forall j :: 0 <= j < r.value ==> channels[j].channelId != channelId
  {
    if channels == [] then None
    else if channels[0].channelId == channelId then Some(0)
    else
      var r := FindChannelById(channels[1..], channelId);
      if r.None? then None else Some(r.value + 1)
  }

  /** `getChannelMemberCount`: members of the first channel with that id, 0 if there is none. */
  function GetChannelMemberCount(s: Session, channelId: string): (r: nat)
    ensures (forall i :: 0 <= i < |s.channels| ==> s.channels[i].channelId != channelId) ==> r == 0
    ensures forall i :: 0 <= i < |s.channels| && s.channels[i].channelId == channelId
                        && (forall j :: 0 <= j < i ==> s.channels[j].channelId != channelId)
                        ==> r == |s.channels[i].members|
  {
    var i := FindChannelById(s.channels, channelId);
    if i.None? then 0 else |s.channels[i.value].members|
  }

  // ----- Membership helpers shared by the detector, the sweeper and the statistics -----

  predicate HasMember(c: Channel, userId: string)
  {
    exists m :: m in c.members && m.userId == userId
  }

  /** `channels.find(c => c.members.some(m => m.userId === userId))`. */
  function FindUserChannel(channels: seq<Channel>, userId: string): (r: Option<nat>)
    ensures r.None? <==> forall i :: 0 <= i < |channels| ==> !HasMember(channels[i], userId)
    ensures r.Some? ==> r.value < |channels| && HasMember(channels[r.value], userId)
    ensures r.Some? ==> forall j :: 0 <= j < r.value ==> !HasMember(channels[j], userId)
  {
    if channels == [] then None
    else if HasMember(channels[0], userId) then Some(0)
    else
      var r := FindUserChannel(channels[1..], userId);
      if r.None? then None else Some(r.value + 1)
  }

  /** The user ids of a channel's members, in order. */
  function MemberIds(ms: seq<Member>): (r: seq<string>)
    ensures |r| == |ms|
    ensures forall i :: 0 <= i < |ms| ==> r[i] == ms[i].userId
  {
    if ms == [] then [] else [ms[0].userId] + MemberIds(ms[1..])
  }

  /** `channels.flatMap(ch => ch.members.map(m => m.userId))`. */
  function AllMemberIds(channels: seq<Channel>): (r: seq<string>)
    ensures forall u :: u in r <==> exists i :: 0 <= i < |channels| && HasMember(channels[i], u)
  {
    if channels == [] then []
    else
      var rest := AllMemberIds(channels[1..]);
      assert forall u :: u in MemberIds(channels[0].members) <==> HasMember(channels[0], u) by {
        forall u ensures u in MemberIds(channels[0].members) <==> HasMember(channels[0], u) {
          var ms := channels[0].members;
          if u in MemberIds(ms) {
            var k :| 0 <= k < |ms| && MemberIds(ms)[k] == u;
            assert ms[k] in ms;
          }
          if HasMember(channels[0], u) {
            var m :| m in ms && m.userId == u;
            var k :| 0 <= k < |ms| && ms[k] == m;
            assert MemberIds(ms)[k] == u;
          }
        }
      }
      assert forall u :: (exists i :: 0 <= i < |channels| && HasMember(channels[i], u))
                      <==> HasMember(channels[0], u) || (exists i :: 0 <= i < |channels[1..]| && HasMember(channels[1..][i], u)) by {
        forall u ensures (exists i :: 0 <= i < |channels| && HasMember(channels[i], u))
                      <==> HasMember(channels[0], u) || (exists i :: 0 <= i < |channels[1..]| && HasMember(channels[1..][i], u)) {
          if exists i :: 0 <= i < |channels| && HasMember(channels[i], u) {
            var i :| 0 <= i < |channels| && HasMember(channels[i], u);
            if i > 0 { assert channels[1..][i - 1] == channels[i]; }
          }
          if exists i :: 0 <= i < |channels[1..]| && HasMember(channels[1..][i], u) {
            var i :| 0 <= i < |channels[1..]| && HasMember(channels[1..][i], u);
            assert channels[i + 1] == channels[1..][i];
          }
        }
      }
      MemberIds(channels[0].members) + rest
  }

  /** Each user occupies at most one member slot of one channel (what a live snapshot gives). */
  predicate UniqueMembership(s: Session)
  {
    forall i, j, a, b :: 0 <= i < |s.channels| && 0 <= j < |s.channels|
                      && 0 <= a < |s.channels[i].members| && 0 <= b < |s.channels[j].members|
                      && s.channels[i].members[a].userId == s.channels[j].members[b].userId
                      ==> i == j && a == b
  }
}
