/**
 * The dashboard's user list (public/script.js, `extractUsers`).
 */
module DashboardUsers {
  import opened Wrappers
  import opened Ordering
  import opened GuildVoice
  import opened JsCollections

  // ---------------------------------------------------------------------------
  // extractUsers
  // ---------------------------------------------------------------------------

  /** A user of the side list: id, name and the time of their latest activity. */
  datatype UserEntry = UserEntry(id: string, name: string, lastActivity: int)

  function UserId(u: UserEntry): string
  {
    u.id
  }

  /** The ids of the list, position by position. */
  function UserIds(us: seq<UserEntry>): (r: seq<string>)
    ensures |r| == |us|
    ensures forall i :: 0 <= i < |us| ==> r[i] == us[i].id
  {
    MapSeq(us, UserId)
  }

  /** A record's latest activity: its end, or its start while it is still open. */
  function LastActivityTime(rec: Session): int
  {
    if rec.sessionEnd.Some? then rec.sessionEnd.value else rec.sessionStart
  }

  /** All member entries of a record, channel after channel. */
  function RecordMembers(cs: seq<Channel>): seq<Member>
  {
    if cs == [] then [] else cs[0].members + RecordMembers(cs[1..])
  }

  /** The first member entry with a given user id. */
  function FirstMember(ms: seq<Member>, id: string): (r: Option<Member>)
    ensures r.Some? ==> r.value.userId == id
    ensures r.Some? <==> id in MemberIds(ms)
  {
    if ms == [] then None
    else if ms[0].userId == id then Some(ms[0])
    else
      assert MemberIds(ms) == [ms[0].userId] + MemberIds(ms[1..]);
      FirstMember(ms[1..], id)
  }

  /** `if (!seenUserIds.has(id)) { seenUserIds.add(id); users.push(...) }`. */
  function NoteMember(users: seq<UserEntry>, m: Member, t: int): seq<UserEntry>
  {
    if m.userId in UserIds(users) then users else users + [UserEntry(m.userId, m.username, t)]
  }

  function NoteMembers(users: seq<UserEntry>, ms: seq<Member>, t: int): seq<UserEntry>
    decreases ms
  {
    if ms == [] then users else NoteMembers(NoteMember(users, ms[0], t), ms[1..], t)
  }

  /** The list after the records from i to the end, visited from the last one back. */
  function UsersFrom(data: seq<Session>, i: nat): seq<UserEntry>
    requires i <= |data|
    decreases |data| - i
  {
    if i == |data| then [] else NoteMembers(UsersFrom(data, i + 1), RecordMembers(data[i].channels), LastActivityTime(data[i]))
  }

  /** `extractUsers`. */
  function ExtractedUsers(data: seq<Session>): seq<UserEntry>
  {
    UsersFrom(data, 0)
  }

  lemma {:induction false} NoteMembersConcat(users: seq<UserEntry>, a: seq<Member>, b: seq<Member>, t: int)
    ensures NoteMembers(users, a + b, t) == NoteMembers(NoteMembers(users, a, t), b, t)
    decreases a
  {
    if a == [] {
      assert a + b == b;
    } else {
      assert (a + b)[1..] == a[1..] + b;
      NoteMembersConcat(NoteMember(users, a[0], t), a[1..], b, t);
    }
  }

  lemma UserIdsSnoc(users: seq<UserEntry>, u: UserEntry)
    ensures UserIds(users + [u]) == UserIds(users) + [u.id]
  {
  }

  /** Noting members keeps the entries already listed and adds each new id once, for its first entry. */
  lemma {:induction false} NoteMembersPrefix(users: seq<UserEntry>, ms: seq<Member>, t: int)
    ensures |NoteMembers(users, ms, t)| >= |users|
    ensures NoteMembers(users, ms, t)[..|users|] == users
    decreases ms
  {
    if ms != [] {
      var next := NoteMember(users, ms[0], t);
      NoteMembersPrefix(next, ms[1..], t);
      assert next[..|users|] == users;
    }
  }

  lemma {:induction false} NoteMembersIds(users: seq<UserEntry>, ms: seq<Member>, t: int, id: string)
    ensures id in UserIds(NoteMembers(users, ms, t)) <==> id in UserIds(users) || id in MemberIds(ms)
    decreases ms
  {
    if ms != [] {
      var next := NoteMember(users, ms[0], t);
      NoteMembersIds(next, ms[1..], t, id);
      assert MemberIds(ms) == [ms[0].userId] + MemberIds(ms[1..]);
      if ms[0].userId !in UserIds(users) {
        UserIdsSnoc(users, UserEntry(ms[0].userId, ms[0].username, t));
      }
    }
  }

  lemma {:induction false} NoteMembersDistinct(users: seq<UserEntry>, ms: seq<Member>, t: int)
    requires Distinct(UserIds(users))
    ensures Distinct(UserIds(NoteMembers(users, ms, t)))
    decreases ms
  {
    if ms != [] {
      var next := NoteMember(users, ms[0], t);
      if ms[0].userId !in UserIds(users) {
        UserIdsSnoc(users, UserEntry(ms[0].userId, ms[0].username, t));
        DistinctParts(UserIds(users), [ms[0].userId]);
      }
      NoteMembersDistinct(next, ms[1..], t);
    }
  }

  /** An entry added while noting ms was new, carries time t, and is the first entry for its id in ms. */
  predicate AddedFrom(users: seq<UserEntry>, ms: seq<Member>, t: int, u: UserEntry)
  {
    u.id !in UserIds(users) && u.lastActivity == t && FirstMember(ms, u.id) == Some(Member(u.id, u.name))
  }

  lemma {:induction false} NoteMembersAdded(users: seq<UserEntry>, ms: seq<Member>, t: int)
    ensures forall k :: |users| <= k < |NoteMembers(users, ms, t)| ==> AddedFrom(users, ms, t, NoteMembers(users, ms, t)[k])
    decreases ms
  {
    if ms != [] {
      var next := NoteMember(users, ms[0], t);
      var r := NoteMembers(users, ms, t);
      assert r == NoteMembers(next, ms[1..], t);
      NoteMembersAdded(next, ms[1..], t);
      NoteMembersPrefix(next, ms[1..], t);
      forall k | |users| <= k < |r| ensures AddedFrom(users, ms, t, r[k]) {
        if k < |next| {
          assert r[k] == next[k];
        } else {
          assert AddedFrom(next, ms[1..], t, r[k]);
          if ms[0].userId !in UserIds(users) {
            UserIdsSnoc(users, UserEntry(ms[0].userId, ms[0].username, t));
          }
          assert r[k].id != ms[0].userId;
        }
      }
    }
  }

  /** The index of the latest record, from i on, in which the user appears. */
  function LatestFrom(data: seq<Session>, id: string, i: nat): (r: Option<nat>)
    requires i <= |data|
    ensures r.Some? ==> i <= r.value < |data|
    decreases |data| - i
  {
    if i == |data| then None
    else
      var later := LatestFrom(data, id, i + 1);
      if later.Some? then later
      else if id in MemberIds(RecordMembers(data[i].channels)) then Some(i)
      else None
  }

  /** An entry describes the user's latest record from i on: its activity time and the user's first entry in it. */
  predicate Describes(data: seq<Session>, i: nat, u: UserEntry)
    requires i <= |data|
  {
    && LatestFrom(data, u.id, i).Some?
    && u.lastActivity == LastActivityTime(data[LatestFrom(data, u.id, i).value])
    && FirstMember(RecordMembers(data[LatestFrom(data, u.id, i).value].channels), u.id) == Some(Member(u.id, u.name))
  }

  lemma {:induction false} UsersFromDistinct(data: seq<Session>, i: nat)
    requires i <= |data|
    ensures Distinct(UserIds(UsersFrom(data, i)))
    decreases |data| - i
  {
    if i < |data| {
      UsersFromDistinct(data, i + 1);
      NoteMembersDistinct(UsersFrom(data, i + 1), RecordMembers(data[i].channels), LastActivityTime(data[i]));
    }
  }

  lemma {:induction false} UsersFromIds(data: seq<Session>, i: nat, id: string)
    requires i <= |data|
    ensures id in UserIds(UsersFrom(data, i)) <==> LatestFrom(data, id, i).Some?
    decreases |data| - i
  {
    if i < |data| {
      UsersFromIds(data, i + 1, id);
      NoteMembersIds(UsersFrom(data, i + 1), RecordMembers(data[i].channels), LastActivityTime(data[i]), id);
    }
  }

  /** Record i keeps the entries of the later records and adds the users whose latest record it is. */
  lemma UsersFromStep(data: seq<Session>, i: nat, k: nat)
    requires i < |data| && k < |UsersFrom(data, i)|
    ensures k < |UsersFrom(data, i + 1)| ==>
              && UsersFrom(data, i)[k] == UsersFrom(data, i + 1)[k]
              && LatestFrom(data, UsersFrom(data, i)[k].id, i) == LatestFrom(data, UsersFrom(data, i)[k].id, i + 1)
    ensures k >= |UsersFrom(data, i + 1)| ==>
              && LatestFrom(data, UsersFrom(data, i)[k].id, i) == Some(i)
              && Describes(data, i, UsersFrom(data, i)[k])
  {
    var prev := UsersFrom(data, i + 1);
    var ms := RecordMembers(data[i].channels);
    var t := LastActivityTime(data[i]);
    var r := UsersFrom(data, i);
    assert r == NoteMembers(prev, ms, t);
    NoteMembersPrefix(prev, ms, t);
    UsersFromIds(data, i + 1, r[k].id);
    if k < |prev| {
      assert r[k] == r[..|prev|][k];
    } else {
      NoteMembersAdded(prev, ms, t);
      assert AddedFrom(prev, ms, t, r[k]);
    }
  }

  lemma {:induction false} UsersFromDescribe(data: seq<Session>, i: nat)
    requires i <= |data|
    ensures forall k :: 0 <= k < |UsersFrom(data, i)| ==> Describes(data, i, UsersFrom(data, i)[k])
    decreases |data| - i
  {
    if i < |data| {
      UsersFromDescribe(data, i + 1);
      forall k | 0 <= k < |UsersFrom(data, i)| ensures Describes(data, i, UsersFrom(data, i)[k]) {
        UsersFromStep(data, i, k);
      }
    }
  }

  lemma {:induction false} UsersFromOrder(data: seq<Session>, i: nat)
    requires i <= |data|
    ensures forall k :: 0 <= k < |UsersFrom(data, i)| ==> LatestFrom(data, UsersFrom(data, i)[k].id, i).Some?
    ensures forall k, m :: 0 <= k < m < |UsersFrom(data, i)| ==>
              LatestFrom(data, UsersFrom(data, i)[m].id, i).value <= LatestFrom(data, UsersFrom(data, i)[k].id, i).value
    decreases |data| - i
  {
    if i < |data| {
      UsersFromOrder(data, i + 1);
      var r := UsersFrom(data, i);
      var prev := UsersFrom(data, i + 1);
      forall k | 0 <= k < |r| ensures LatestFrom(data, r[k].id, i).Some? {
        UsersFromStep(data, i, k);
      }
      forall k, m | 0 <= k < m < |r| ensures LatestFrom(data, r[m].id, i).value <= LatestFrom(data, r[k].id, i).value {
        UsersFromStep(data, i, k);
        UsersFromStep(data, i, m);
      }
    }
  }

  /** `extractUsers`: every user who appears in the data, once, with their latest record's time and name. */
  lemma ExtractedUsersSpec(data: seq<Session>)
    ensures Distinct(UserIds(ExtractedUsers(data)))
    ensures forall id :: id in UserIds(ExtractedUsers(data)) <==> LatestFrom(data, id, 0).Some?
    ensures forall k :: 0 <= k < |ExtractedUsers(data)| ==> Describes(data, 0, ExtractedUsers(data)[k])
    ensures forall k, m :: 0 <= k < m < |ExtractedUsers(data)| ==>
              LatestFrom(data, ExtractedUsers(data)[m].id, 0).value <= LatestFrom(data, ExtractedUsers(data)[k].id, 0).value
  {
    UsersFromDistinct(data, 0);
    forall id ensures id in UserIds(ExtractedUsers(data)) <==> LatestFrom(data, id, 0).Some? {
      UsersFromIds(data, 0, id);
    }
    UsersFromDescribe(data, 0);
    UsersFromOrder(data, 0);
  }

  /** A user appears somewhere in the data exactly when some record lists them. */
  lemma {:induction false} LatestFromFound(data: seq<Session>, id: string, i: nat)
    requires i <= |data|
    ensures LatestFrom(data, id, i).Some? <==> exists j :: i <= j < |data| && id in MemberIds(RecordMembers(data[j].channels))
    ensures LatestFrom(data, id, i).Some? ==> forall j :: LatestFrom(data, id, i).value < j < |data| ==> id !in MemberIds(RecordMembers(data[j].channels))
    decreases |data| - i
  {
    if i < |data| {
      LatestFromFound(data, id, i + 1);
    }
  }

  method ExtractUsers(data: seq<Session>) returns (users: seq<UserEntry>)
    ensures users == ExtractedUsers(data)
  {
    users := [];
    var seenUserIds: set<string> := {};
    var i := |data|;
    while i > 0
      invariant 0 <= i <= |data|
      invariant users == UsersFrom(data, i)
      invariant forall id :: id in seenUserIds <==> id in UserIds(users)
    {
      i := i - 1;
      var record := data[i];
      var lastActivityTime := if record.sessionEnd.Some? then record.sessionEnd.value else record.sessionStart;
      users, seenUserIds := AddRecordUsers(users, seenUserIds, record.channels, lastActivityTime);
    }
  }

  /** The two inner loops of `extractUsers` for one record. */
  method AddRecordUsers(users0: seq<UserEntry>, seen0: set<string>, cs: seq<Channel>, t: int)
    returns (users: seq<UserEntry>, seenUserIds: set<string>)
    requires forall id :: id in seen0 <==> id in UserIds(users0)
    ensures users == NoteMembers(users0, RecordMembers(cs), t)
    ensures forall id :: id in seenUserIds <==> id in UserIds(users)
  {
    users, seenUserIds := users0, seen0;
    var c := 0;
    while c < |cs|
      invariant 0 <= c <= |cs|
      invariant NoteMembers(users, RecordMembers(cs[c..]), t) == NoteMembers(users0, RecordMembers(cs), t)
      invariant forall id :: id in seenUserIds <==> id in UserIds(users)
    {
      assert cs[c..][1..] == cs[c + 1..];
      NoteMembersConcat(users, cs[c].members, RecordMembers(cs[c + 1..]), t);
      var ms := cs[c].members;
      var k := 0;
      ghost var start := users;
      while k < |ms|
        invariant 0 <= k <= |ms|
        invariant NoteMembers(users, ms[k..], t) == NoteMembers(start, ms, t)
        invariant forall id :: id in seenUserIds <==> id in UserIds(users)
      {
        assert ms[k..][1..] == ms[k + 1..];
        var member := ms[k];
        if member.userId !in seenUserIds {
          seenUserIds := seenUserIds + {member.userId};
          UserIdsSnoc(users, UserEntry(member.userId, member.username, t));
          users := users + [UserEntry(member.userId, member.username, t)];
        }
        k := k + 1;
      }
      c := c + 1;
    }
  }
}
