/** `GiveawayResults._parse`: the outcome of a giveaway, with the winners
    and the extra channels resolved from the tables of the answer. */
module GiveawayResultsDecoding {
  import opened Wrappers
  import opened Raw
  import Users
  import Chats

  /** The wire results. The attributes the decoder reads with `hasattr`
      are optional here: None stands for an absent attribute. */
  datatype RawGiveawayResults = RawGiveawayResults(
    channelId: int, launchMsgId: int, winnersCount: int, unclaimedCount: int,
    winners: seq<int>, additionalPeers: Option<seq<int>>,
    startDate: Option<int>, untilDate: Option<int>,
    months: Option<int>, stars: Option<int>, prizeDescription: Option<string>,
    onlyNewSubscribers: Option<bool>, refunded: Option<bool>)

  datatype GiveawayResults = GiveawayResults(
    chat: Option<Chats.Chat>,
    giveawayMessageId: int, winnersCount: int, unclaimedCount: int,
    winners: Option<seq<Option<Users.User>>>,
    launchMessageId: int,
    additionalChats: Option<seq<Chats.Chat>>,
    date: Option<Stamp>, untilDate: Option<Stamp>,
    months: Option<int>, stars: Option<int>, prizeDescription: Option<string>,
    isOnlyNewSubscribers: Option<bool>, isRefunded: Option<bool>)

  /** The giveaway's own channel: decoded only for a non-zero id present in
      `chats`; decoding an empty channel raises. */
  function MainChat(channelId: int, chats: map<int, RawChat>): (r: Result<Option<Chats.Chat>>)
    ensures channelId == 0 || channelId !in chats ==> r == Ok(None)
    ensures channelId != 0 && channelId in chats ==>
      var c := Chats.ChannelChat(chats[channelId]);
      (r.Err? <==> c.Err?) && (c.Ok? ==> r == Ok(Some(c.value)))
  {
    if channelId != 0 && channelId in chats then
      var c :- Chats.ChannelChat(chats[channelId]);
      Ok(Some(c))
    else Ok(None)
  }

  /** One winner id: kept when the user is in the table, as what the user
      decoder makes of that entry (None for an empty user). */
  function WinnerOf(users: map<int, RawUser>): int -> Option<Option<Users.User>> {
    id => if id in users then Some(Users.Parse(Some(users[id]))) else None
  }

  function Winners(ids: seq<int>, users: map<int, RawUser>): seq<Option<Users.User>> {
    FilterMap(WinnerOf(users), ids)
  }

  /** One extra peer id: kept when the chat is in the table. */
  function Present(chats: map<int, RawChat>): int -> Option<RawChat> {
    id => if id in chats then Some(chats[id]) else None
  }

  /** The extra channels: the present ids' chats, each decoded as a channel;
      the first that raises ends the decoding. */
  function AdditionalChats(ids: seq<int>, chats: map<int, RawChat>): Result<seq<Chats.Chat>> {
    Traverse(Chats.ChannelChat, FilterMap(Present(chats), ids))
  }

  /** `if ts` for an optional timestamp: absent and zero both give None. */
  function TruthyStamp(ts: Option<int>): (r: Option<Stamp>)
    ensures r.Some? <==> ts.Some? && ts.value != 0
    ensures r.Some? ==> r.value == StampOf(ts.value)
  {
    if ts.Some? && ts.value != 0 then Some(StampOf(ts.value)) else None
  }

  /** `GiveawayResults._parse`: the channel first, then the winners, then the
      extra channels; empty lists read as None; the launch message id fills
      both message-id fields; the flags are copied as they are. */
  function Parse(g: RawGiveawayResults, users: map<int, RawUser>, chats: map<int, RawChat>)
    : (r: Result<GiveawayResults>)
    ensures MainChat(g.channelId, chats).Err? ==> r == Err(MainChat(g.channelId, chats).error)
    ensures MainChat(g.channelId, chats).Ok? ==>
      var extra := AdditionalChats(Items(g.additionalPeers), chats);
      && (r.Err? <==> extra.Err?) && (extra.Err? ==> r.error == extra.error)
      && (r.Ok? ==> r.value.chat == MainChat(g.channelId, chats).value
                    && r.value.additionalChats == NonEmpty(extra.value))
    ensures r.Ok? ==> var v := r.value;
      && v.winners == NonEmpty(Winners(g.winners, users))
      && v.giveawayMessageId == g.launchMsgId && v.launchMessageId == g.launchMsgId
      && v.winnersCount == g.winnersCount && v.unclaimedCount == g.unclaimedCount
      && v.date == TruthyStamp(g.startDate) && v.untilDate == TruthyStamp(g.untilDate)
      && v.months == g.months && v.stars == g.stars && v.prizeDescription == g.prizeDescription
      && v.isOnlyNewSubscribers == g.onlyNewSubscribers && v.isRefunded == g.refunded
  {
    var chat :- MainChat(g.channelId, chats);
    var winners := Winners(g.winners, users);
    var extra :- AdditionalChats(Items(g.additionalPeers), chats);
    Ok(GiveawayResults(
      chat, g.launchMsgId, g.winnersCount, g.unclaimedCount, NonEmpty(winners), g.launchMsgId,
      NonEmpty(extra), TruthyStamp(g.startDate), TruthyStamp(g.untilDate),
      g.months, g.stars, g.prizeDescription, g.onlyNewSubscribers, g.refunded))
  }

  /** The winners loop: each id found in `users` appended, in order. */
  method ParseWinners(ids: seq<int>, users: map<int, RawUser>) returns (winners: seq<Option<Users.User>>)
    ensures winners == Winners(ids, users)
  {
    winners := [];
    var i := 0;
    while i < |ids|
      invariant 0 <= i <= |ids|
      invariant winners == Winners(ids[..i], users)
      decreases |ids| - i
    {
      FilterMapStep(WinnerOf(users), ids, i);
      if ids[i] in users {
        winners := winners + [Users.Parse(Some(users[ids[i]]))];
      }
      i := i + 1;
    }
    assert ids[..i] == ids;
  }

  /** How the extra-chat decoding of a prefix extends by one id, and how an
      error in a prefix is the error of the whole list. */
  lemma AdditionalStep(ids: seq<int>, i: int, chats: map<int, RawChat>)
    requires 0 <= i < |ids|
    ensures ids[i] !in chats ==> AdditionalChats(ids[..i + 1], chats) == AdditionalChats(ids[..i], chats)
    ensures ids[i] in chats && AdditionalChats(ids[..i], chats).Ok? ==>
      var c := Chats.ChannelChat(chats[ids[i]]);
      AdditionalChats(ids[..i + 1], chats)
        == if c.Ok? then Ok(AdditionalChats(ids[..i], chats).value + [c.value]) else Err(c.error)
    ensures AdditionalChats(ids[..i + 1], chats).Err? ==>
      AdditionalChats(ids, chats) == AdditionalChats(ids[..i + 1], chats)
  {
    var present := Present(chats);
    FilterMapStep(present, ids, i);
    assert present(ids[i]) == if ids[i] in chats then Some(chats[ids[i]]) else None;
    if ids[i] in chats {
      TraverseSnoc(Chats.ChannelChat, FilterMap(present, ids[..i]), chats[ids[i]]);
    } else {
      assert FilterMap(present, ids[..i + 1]) == FilterMap(present, ids[..i]);
    }
    if AdditionalChats(ids[..i + 1], chats).Err? {
      assert ids == ids[..i + 1] + ids[i + 1..];
      FilterMapAppend(present, ids[..i + 1], ids[i + 1..]);
      TraverseErrorPersists(Chats.ChannelChat, FilterMap(present, ids[..i + 1]), FilterMap(present, ids[i + 1..]));
    }
  }

  /** The extra-chats loop: each id found in `chats` decoded as a channel and
      appended, in order; a decoding that raises propagates. */
  method ParseAdditionalChats(ids: seq<int>, chats: map<int, RawChat>) returns (r: Result<seq<Chats.Chat>>)
    ensures r == AdditionalChats(ids, chats)
  {
    var extra: seq<Chats.Chat> := [];
    var i := 0;
    while i < |ids|
      invariant 0 <= i <= |ids|
      invariant AdditionalChats(ids[..i], chats) == Ok(extra)
      decreases |ids| - i
    {
      AdditionalStep(ids, i, chats);
      if ids[i] in chats {
        var c := Chats.ChannelChat(chats[ids[i]]);
        if c.Err? {
          return Err(c.error);
        }
        extra := extra + [c.value];
      }
      i := i + 1;
    }
    assert ids[..i] == ids;
    return Ok(extra);
  }

  /** The decoder as written: the guarded channel lookup, then the two loops. */
  method ParseGiveawayResults(g: RawGiveawayResults, users: map<int, RawUser>, chats: map<int, RawChat>)
    returns (r: Result<GiveawayResults>)
    ensures r == Parse(g, users, chats)
  {
    var chat: Option<Chats.Chat> := None;
    if g.channelId != 0 && g.channelId in chats {
      var c := Chats.ChannelChat(chats[g.channelId]);
      if c.Err? {
        return Err(c.error);
      }
      chat := Some(c.value);
    }
    var winners := ParseWinners(g.winners, users);
    var extra := ParseAdditionalChats(Items(g.additionalPeers), chats);
    if extra.Err? {
      return Err(extra.error);
    }
    r := Ok(GiveawayResults(
      chat, g.launchMsgId, g.winnersCount, g.unclaimedCount, NonEmpty(winners), g.launchMsgId,
      NonEmpty(extra.value), TruthyStamp(g.startDate), TruthyStamp(g.untilDate),
      g.months, g.stars, g.prizeDescription, g.onlyNewSubscribers, g.refunded));
  }

  /** The winners are exactly the ids found in `users`: every entry comes
      from such an id, all ids found means one entry per id in order, and
      none found means no list at all. */
  lemma WinnersLaws(ids: seq<int>, users: map<int, RawUser>)
    ensures forall w :: w in Winners(ids, users) ==>
      exists id :: id in ids && id in users && w == Users.Parse(Some(users[id]))
    ensures (forall k :: 0 <= k < |ids| ==> ids[k] in users) ==>
      |Winners(ids, users)| == |ids|
      && forall k :: 0 <= k < |ids| ==> Winners(ids, users)[k] == Users.Parse(Some(users[ids[k]]))
    ensures (forall k :: 0 <= k < |ids| ==> ids[k] !in users) ==> NonEmpty(Winners(ids, users)).None?
  {
    FilterMapLaws(WinnerOf(users), ids);
    forall w | w in Winners(ids, users)
      ensures exists id :: id in ids && id in users && w == Users.Parse(Some(users[id]))
    {
      var k := FilterMapSource(WinnerOf(users), ids, w);
      var id := ids[k];
      assert WinnerOf(users)(id) == if id in users then Some(Users.Parse(Some(users[id]))) else None;
      assert id in ids;
    }
  }
}
