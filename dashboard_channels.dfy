/**
 * The dashboard's channel list (public/script.js): the channels seen in the data,
 * named from the names map, and `extractChannels`, which puts the known channels first.
 */
module DashboardChannels {
  import opened Wrappers
  import opened Ordering
  import opened GuildVoice
  import opened JsCollections

  // ---------------------------------------------------------------------------
  // The channels seen in the data (step 1 of extractChannels and of processOverviewData)
  // ---------------------------------------------------------------------------

  /** A channel the dashboard lists: its id and the name it is shown under. */
  datatype ChannelInfo = ChannelInfo(id: string, name: string)

  function InfoId(ci: ChannelInfo): string
  {
    ci.id
  }

  /** The ids of a list of listed channels. */
  function InfoIds(cs: seq<ChannelInfo>): (r: seq<string>)
    ensures |r| == |cs|
    ensures forall i :: 0 <= i < |cs| ==> r[i] == cs[i].id
  {
    MapSeq(cs, InfoId)
  }

  /** `a || b` where a may be undefined: an absent or empty string falls through to b. */
  function OrElse(a: Option<string>, b: string): string
  {
    if a.Some? && a.value != "" then a.value else b
  }

  /** `m.get(k)` on a `Map` of strings. */
  function Lookup(m: map<string, string>, k: string): Option<string>
  {
    if k in m then Some(m[k]) else None
  }

  /** `channelNamesMap.get(id) || channel.channelName || `Canal ${id}``. */
  function ChannelTitle(names: map<string, string>, c: Channel): string
  {
    OrElse(Lookup(names, c.channelId), OrElse(c.channelName, "Canal " + c.channelId))
  }

  /** Every channel entry of every record, in order (what the nested `forEach` visits). */
  function AllChannels(data: seq<Session>): seq<Channel>
  {
    if data == [] then [] else data[0].channels + AllChannels(data[1..])
  }

  function ChannelId(c: Channel): string
  {
    c.channelId
  }

  /** The ids of a list of channel entries. */
  function ChannelIds(cs: seq<Channel>): (r: seq<string>)
    ensures |r| == |cs|
    ensures forall i :: 0 <= i < |cs| ==> r[i] == cs[i].channelId
  {
    MapSeq(cs, ChannelId)
  }

  lemma ChannelIdsConcat(a: seq<Channel>, b: seq<Channel>)
    ensures ChannelIds(a + b) == ChannelIds(a) + ChannelIds(b)
  {
    MapConcat(a, b, ChannelId);
  }

  /** The first channel entry with a given id. */
  function FirstWithId(cs: seq<Channel>, id: string): (r: Option<Channel>)
    ensures r.Some? ==> r.value.channelId == id
  {
    if cs == [] then None else if cs[0].channelId == id then Some(cs[0]) else FirstWithId(cs[1..], id)
  }

  /** `if (!map.has(id)) map.set(id, { id, name })`. */
  function NoteChannel(seen: seq<ChannelInfo>, names: map<string, string>, c: Channel): seq<ChannelInfo>
  {
    if c.channelId in InfoIds(seen) then seen else seen + [ChannelInfo(c.channelId, ChannelTitle(names, c))]
  }

  /** The seen table after a list of channel entries, one entry at a time. */
  function SeenOf(names: map<string, string>, cs: seq<Channel>): seq<ChannelInfo>
  {
    if cs == [] then [] else NoteChannel(SeenOf(names, cs[..|cs| - 1]), names, cs[|cs| - 1])
  }

  /** The `Map` of channels in insertion order: each id once, named at its first appearance. */
  function SeenChannels(data: seq<Session>, names: map<string, string>): seq<ChannelInfo>
  {
    SeenOf(names, AllChannels(data))
  }

  lemma SeenOfSnoc(names: map<string, string>, a: seq<Channel>, c: Channel)
    ensures SeenOf(names, a + [c]) == NoteChannel(SeenOf(names, a), names, c)
  {
    assert (a + [c])[..|a|] == a;
  }

  /** The seen table after noting more channel entries, one at a time. */
  function NoteAll(seen: seq<ChannelInfo>, names: map<string, string>, cs: seq<Channel>): seq<ChannelInfo>
  {
    if cs == [] then seen else NoteChannel(NoteAll(seen, names, cs[..|cs| - 1]), names, cs[|cs| - 1])
  }

  /** Noting b after the table of a gives the table of a + b. */
  lemma {:induction false} NoteAllAfter(names: map<string, string>, a: seq<Channel>, b: seq<Channel>)
    ensures NoteAll(SeenOf(names, a), names, b) == SeenOf(names, a + b)
  {
    if b == [] {
      assert a + b == a;
    } else {
      var n := |b| - 1;
      calc {
        NoteAll(SeenOf(names, a), names, b);
        NoteChannel(NoteAll(SeenOf(names, a), names, b[..n]), names, b[n]);
        { NoteAllAfter(names, a, b[..n]); }
        NoteChannel(SeenOf(names, a + b[..n]), names, b[n]);
        { SeenOfSnoc(names, a + b[..n], b[n]); }
        SeenOf(names, (a + b[..n]) + [b[n]]);
        { assert (a + b[..n]) + [b[n]] == a + b; }
        SeenOf(names, a + b);
      }
    }
  }

  /** The records' channel entries end with the last record's. */
  lemma {:induction false} AllChannelsSnoc(data: seq<Session>, n: nat)
    requires n < |data|
    ensures AllChannels(data[..n + 1]) == AllChannels(data[..n]) + data[n].channels
  {
    if n == 0 {
      assert data[..1][1..] == [];
      assert data[..1][0].channels + [] == data[0].channels;
    } else {
      assert data[..n + 1][1..] == data[1..][..n];
      assert data[..n][1..] == data[1..][..n - 1];
      AllChannelsSnoc(data[1..], n - 1);
    }
  }

  lemma FirstWithIdAppend(a: seq<Channel>, c: Channel, id: string)
    ensures FirstWithId(a + [c], id) == if FirstWithId(a, id).Some? then FirstWithId(a, id)
                                        else if c.channelId == id then Some(c) else None
  {
    if a != [] {
      assert (a + [c])[1..] == a[1..] + [c];
      FirstWithIdAppend(a[1..], c, id);
    } else {
      assert [c][1..] == [];
    }
  }

  lemma FirstWithIdFound(a: seq<Channel>, id: string)
    ensures FirstWithId(a, id).Some? <==> id in ChannelIds(a)
  {
    if a != [] {
      FirstWithIdFound(a[1..], id);
      assert ChannelIds(a) == [a[0].channelId] + ChannelIds(a[1..]);
    }
  }

  /** After a prefix of the channel entries, the seen table holds its distinct ids in order. */
  predicate IdsAfter(seen: seq<ChannelInfo>, prefix: seq<Channel>)
  {
    InfoIds(seen) == JsCollections.Dedup(ChannelIds(prefix))
  }

  /** ... and each entry carries the name of the first entry with its id. */
  predicate NamesAfter(seen: seq<ChannelInfo>, names: map<string, string>, prefix: seq<Channel>)
  {
    forall k :: 0 <= k < |seen| ==>
      FirstWithId(prefix, seen[k].id).Some? && seen[k].name == ChannelTitle(names, FirstWithId(prefix, seen[k].id).value)
  }

  lemma InfoIdsSnoc(seen: seq<ChannelInfo>, ci: ChannelInfo)
    ensures InfoIds(seen + [ci]) == InfoIds(seen) + [ci.id]
  {
    assert |InfoIds(seen + [ci])| == |seen| + 1;
  }

  lemma NoteChannelIds(seen: seq<ChannelInfo>, names: map<string, string>, prefix: seq<Channel>, c: Channel)
    requires IdsAfter(seen, prefix)
    ensures IdsAfter(NoteChannel(seen, names, c), prefix + [c])
  {
    var ids, id := ChannelIds(prefix), c.channelId;
    assert ChannelIds(prefix + [c]) == ids + [id];
    JsCollections.DedupSnoc(ids, id);
    if id in InfoIds(seen) {
      assert NoteChannel(seen, names, c) == seen;
    } else {
      var ci := ChannelInfo(id, ChannelTitle(names, c));
      assert NoteChannel(seen, names, c) == seen + [ci];
      InfoIdsSnoc(seen, ci);
    }
  }

  lemma NoteChannelNames(seen: seq<ChannelInfo>, names: map<string, string>, prefix: seq<Channel>, c: Channel)
    requires IdsAfter(seen, prefix) && NamesAfter(seen, names, prefix)
    ensures NamesAfter(NoteChannel(seen, names, c), names, prefix + [c])
  {
    var next := NoteChannel(seen, names, c);
    forall k | 0 <= k < |next|
      ensures FirstWithId(prefix + [c], next[k].id).Some?
      ensures next[k].name == ChannelTitle(names, FirstWithId(prefix + [c], next[k].id).value)
    {
      FirstWithIdAppend(prefix, c, next[k].id);
      if k == |seen| {
        FirstWithIdFound(prefix, c.channelId);
      }
    }
  }

  lemma {:induction false} SeenOfIds(names: map<string, string>, cs: seq<Channel>)
    ensures IdsAfter(SeenOf(names, cs), cs)
  {
    if cs != [] {
      var init, last := cs[..|cs| - 1], cs[|cs| - 1];
      assert init + [last] == cs;
      assert SeenOf(names, cs) == NoteChannel(SeenOf(names, init), names, last);
      SeenOfIds(names, init);
      NoteChannelIds(SeenOf(names, init), names, init, last);
    }
  }

  lemma {:induction false} SeenOfNames(names: map<string, string>, cs: seq<Channel>)
    ensures NamesAfter(SeenOf(names, cs), names, cs)
  {
    if cs != [] {
      var init, last := cs[..|cs| - 1], cs[|cs| - 1];
      assert init + [last] == cs;
      assert SeenOf(names, cs) == NoteChannel(SeenOf(names, init), names, last);
      SeenOfIds(names, init);
      SeenOfNames(names, init);
      NoteChannelNames(SeenOf(names, init), names, init, last);
    }
  }

  /**
   * The seen channels are the distinct ids of the data in order of first
   * appearance, each under the name computed from its first entry.
   */
  lemma SeenChannelsSpec(data: seq<Session>, names: map<string, string>)
    ensures InfoIds(SeenChannels(data, names)) == JsCollections.Dedup(ChannelIds(AllChannels(data)))
    ensures forall k :: 0 <= k < |SeenChannels(data, names)| ==>
              var ci := SeenChannels(data, names)[k];
              FirstWithId(AllChannels(data), ci.id).Some? && ci.name == ChannelTitle(names, FirstWithId(AllChannels(data), ci.id).value)
  {
    SeenOfIds(names, AllChannels(data));
    SeenOfNames(names, AllChannels(data));
  }

  /** Step 1 of `extractChannels` and `processOverviewData`: the nested `forEach` filling the `Map`. */
  method CollectChannels(data: seq<Session>, names: map<string, string>) returns (seen: seq<ChannelInfo>)
    ensures seen == SeenChannels(data, names)
  {
    seen := [];
    var i := 0;
    while i < |data|
      invariant 0 <= i <= |data|
      invariant seen == SeenOf(names, AllChannels(data[..i]))
    {
      AllChannelsSnoc(data, i);
      NoteAllAfter(names, AllChannels(data[..i]), data[i].channels);
      seen := CollectFromRecord(seen, names, data[i].channels);
      i := i + 1;
    }
    assert data[..i] == data;
  }

  /** One record's channel entries, noted one at a time. */
  method CollectFromRecord(seen0: seq<ChannelInfo>, names: map<string, string>, cs: seq<Channel>) returns (seen: seq<ChannelInfo>)
    ensures seen == NoteAll(seen0, names, cs)
  {
    seen := seen0;
    var j := 0;
    while j < |cs|
      invariant 0 <= j <= |cs|
      invariant seen == NoteAll(seen0, names, cs[..j])
    {
      var channel := cs[j];
      assert cs[..j + 1][..j] == cs[..j];
      if channel.channelId !in InfoIds(seen) {
        seen := seen + [ChannelInfo(channel.channelId, ChannelTitle(names, channel))];
      }
      j := j + 1;
    }
    assert cs[..j] == cs;
  }

  // ---------------------------------------------------------------------------
  // extractChannels
  // ---------------------------------------------------------------------------

  /** The channels the dashboard shows first, in this order. */
  const CHANNEL_ORDER: seq<string> := [
    "355052157709320193", "959744073634304020", "1356734541787697314", "1224975207396151316",
    "797014090488872989", "1399789953700991047", "893642766184247296", "1358552538160562497",
    "1356332046066122794", "845046675382730773"
  ]

  lemma ChannelOrderDistinct()
    ensures Distinct(CHANNEL_ORDER)
  {
  }


  lemma InfoIdsConcat(a: seq<ChannelInfo>, b: seq<ChannelInfo>)
    ensures InfoIds(a + b) == InfoIds(a) + InfoIds(b)
  {
    MapConcat(a, b, InfoId);
  }

  /** The first entry with a given id. */
  function FindInfo(cs: seq<ChannelInfo>, id: string): (r: Option<ChannelInfo>)
    ensures r.Some? ==> r.value in cs && r.value.id == id
    ensures r.None? <==> id !in InfoIds(cs)
  {
    if cs == [] then None else if cs[0].id == id then Some(cs[0]) else FindInfo(cs[1..], id)
  }

  /** `existingChannel || { id, name: channelNamesMap.get(id) || `Canal ${id}` }`. */
  function OrderedSlot(seen: seq<ChannelInfo>, names: map<string, string>, id: string): (r: ChannelInfo)
    ensures r.id == id
  {
    match FindInfo(seen, id)
    case Some(ci) => ci
    case None => ChannelInfo(id, OrElse(Lookup(names, id), "Canal " + id))
  }

  /** `order.map(id => ...)`: one slot per ordered id. */
  function OrderedSlots(seen: seq<ChannelInfo>, names: map<string, string>, order: seq<string>): (r: seq<ChannelInfo>)
    ensures InfoIds(r) == order
    ensures forall i :: 0 <= i < |order| ==> r[i] == OrderedSlot(seen, names, order[i])
  {
    if order == [] then [] else [OrderedSlot(seen, names, order[0])] + OrderedSlots(seen, names, order[1..])
  }

  /** The seen channels whose id is not an ordered one, in order of appearance. */
  function Unlisted(seen: seq<ChannelInfo>, order: seq<string>): seq<ChannelInfo>
  {
    if seen == [] then [] else (if seen[0].id in order then [] else [seen[0]]) + Unlisted(seen[1..], order)
  }

  /** Only seen channels outside the order are kept. */
  lemma {:induction false} UnlistedMembers(seen: seq<ChannelInfo>, order: seq<string>)
    ensures forall x :: x in Unlisted(seen, order) ==> x in seen && x.id !in order
  {
    if seen != [] {
      UnlistedMembers(seen[1..], order);
      assert forall x :: x in seen[1..] ==> x in seen;
    }
  }

  lemma {:induction false} UnlistedIds(seen: seq<ChannelInfo>, order: seq<string>, id: string)
    ensures id in InfoIds(Unlisted(seen, order)) <==> id in InfoIds(seen) && id !in order
  {
    if seen != [] {
      UnlistedIds(seen[1..], order, id);
      var head := if seen[0].id in order then [] else [seen[0]];
      InfoIdsConcat(head, Unlisted(seen[1..], order));
      assert InfoIds(seen) == [seen[0].id] + InfoIds(seen[1..]);
    }
  }

  lemma {:induction false} UnlistedConcat(a: seq<ChannelInfo>, b: seq<ChannelInfo>, order: seq<string>)
    ensures Unlisted(a + b, order) == Unlisted(a, order) + Unlisted(b, order)
  {
    if a == [] {
      assert a + b == b;
    } else {
      assert (a + b)[1..] == a[1..] + b;
      UnlistedConcat(a[1..], b, order);
    }
  }

  lemma {:induction false} UnlistedDistinct(seen: seq<ChannelInfo>, order: seq<string>)
    requires Distinct(InfoIds(seen))
    ensures Distinct(InfoIds(Unlisted(seen, order)))
  {
    if seen != [] {
      var ids := InfoIds(seen);
      assert InfoIds(seen[1..]) == ids[1..];
      UnlistedDistinct(seen[1..], order);
      var rest := Unlisted(seen[1..], order);
      if seen[0].id !in order {
        InfoIdsConcat([seen[0]], rest);
        UnlistedIds(seen[1..], order, seen[0].id);
        assert seen[0].id !in ids[1..];
        DistinctParts([seen[0].id], InfoIds(rest));
      }
    }
  }

  /** `extractChannels`: the ordered channels, then the other seen ones in order of appearance. */
  function ChannelList(data: seq<Session>, names: map<string, string>, order: seq<string>): seq<ChannelInfo>
  {
    var seen := SeenChannels(data, names);
    OrderedSlots(seen, names, order) + Unlisted(seen, order)
  }

  method ExtractChannels(data: seq<Session>, names: map<string, string>) returns (finalChannelsList: seq<ChannelInfo>)
    ensures finalChannelsList == ChannelList(data, names, CHANNEL_ORDER)
  {
    var channelsFromData := CollectChannels(data, names);
    finalChannelsList := OrderedSlots(channelsFromData, names, CHANNEL_ORDER);
    finalChannelsList := AppendUnlisted(finalChannelsList, channelsFromData, CHANNEL_ORDER);
  }

  lemma UnlistedPrefix(seen: seq<ChannelInfo>, k: nat, order: seq<string>)
    requires k < |seen|
    ensures Unlisted(seen[..k + 1], order) == Unlisted(seen[..k], order) + if seen[k].id in order then [] else [seen[k]]
  {
    assert seen[..k + 1] == seen[..k] + [seen[k]];
    UnlistedConcat(seen[..k], [seen[k]], order);
    assert [seen[k]][1..] == [];
  }

  /** Step 3: push every seen channel that is not an ordered one. */
  method AppendUnlisted(head: seq<ChannelInfo>, seen: seq<ChannelInfo>, order: seq<string>) returns (list: seq<ChannelInfo>)
    ensures list == head + Unlisted(seen, order)
  {
    list := head;
    var k := 0;
    while k < |seen|
      invariant 0 <= k <= |seen|
      invariant list == head + Unlisted(seen[..k], order)
    {
      var channel := seen[k];
      UnlistedPrefix(seen, k, order);
      if channel.id !in order {
        list := list + [channel];
      }
      k := k + 1;
    }
    assert seen[..k] == seen;
  }

  lemma SeenChannelsDistinct(data: seq<Session>, names: map<string, string>)
    ensures Distinct(InfoIds(SeenChannels(data, names)))
    ensures forall id :: id in InfoIds(SeenChannels(data, names)) <==> id in ChannelIds(AllChannels(data))
  {
    SeenChannelsSpec(data, names);
  }

  /** `extractChannels` starts with every ordered id, in that order (a placeholder if it never appeared). */
  lemma ChannelListOrderedFirst(data: seq<Session>, names: map<string, string>, order: seq<string>)
    ensures InfoIds(ChannelList(data, names, order))[..|order|] == order
  {
    var seen := SeenChannels(data, names);
    InfoIdsConcat(OrderedSlots(seen, names, order), Unlisted(seen, order));
  }

  /** `extractChannels` lists every channel id at most once. */
  lemma ChannelListDistinct(data: seq<Session>, names: map<string, string>, order: seq<string>)
    requires Distinct(order)
    ensures Distinct(InfoIds(ChannelList(data, names, order)))
  {
    var seen := SeenChannels(data, names);
    var tail := Unlisted(seen, order);
    InfoIdsConcat(OrderedSlots(seen, names, order), tail);
    SeenChannelsDistinct(data, names);
    UnlistedDistinct(seen, order);
    forall x | x in order ensures x !in InfoIds(tail) {
      UnlistedIds(seen, order, x);
    }
    DistinctParts(order, InfoIds(tail));
  }

  /** `extractChannels` lists exactly the ordered ids and the ids that appear in the data. */
  lemma ChannelListComplete(data: seq<Session>, names: map<string, string>, order: seq<string>, id: string)
    ensures id in InfoIds(ChannelList(data, names, order)) <==> id in order || id in ChannelIds(AllChannels(data))
  {
    var seen := SeenChannels(data, names);
    InfoIdsConcat(OrderedSlots(seen, names, order), Unlisted(seen, order));
    SeenChannelsDistinct(data, names);
    UnlistedIds(seen, order, id);
  }

  /** The dashboard's own list: CHANNEL_ORDER first, then the rest, each id once. */
  lemma ExtractedChannels(data: seq<Session>, names: map<string, string>)
    ensures InfoIds(ChannelList(data, names, CHANNEL_ORDER))[..|CHANNEL_ORDER|] == CHANNEL_ORDER
    ensures Distinct(InfoIds(ChannelList(data, names, CHANNEL_ORDER)))
  {
    ChannelListOrderedFirst(data, names, CHANNEL_ORDER);
    ChannelOrderDistinct();
    ChannelListDistinct(data, names, CHANNEL_ORDER);
  }

  /** A seen channel keeps the name of its first entry, in the ordered part as well as after it. */
  lemma ChannelListNames(data: seq<Session>, names: map<string, string>, order: seq<string>, k: nat)
    requires k < |ChannelList(data, names, order)|
    requires ChannelList(data, names, order)[k].id in ChannelIds(AllChannels(data))
    ensures FirstWithId(AllChannels(data), ChannelList(data, names, order)[k].id).Some?
    ensures ChannelList(data, names, order)[k].name
            == ChannelTitle(names, FirstWithId(AllChannels(data), ChannelList(data, names, order)[k].id).value)
  {
    var seen := SeenChannels(data, names);
    var head := OrderedSlots(seen, names, order);
    var tail := Unlisted(seen, order);
    var ci := ChannelList(data, names, order)[k];
    SeenChannelsSpec(data, names);
    SeenChannelsDistinct(data, names);
    assert |head| == |order|;
    if k < |head| {
      assert ci == OrderedSlot(seen, names, order[k]);
      var f := FindInfo(seen, ci.id);
      var m :| 0 <= m < |seen| && seen[m] == f.value;
    } else {
      assert ci == tail[k - |head|] && ci in tail;
      UnlistedMembers(seen, order);
      var m :| 0 <= m < |seen| && seen[m] == ci;
    }
  }
}
