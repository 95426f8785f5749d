/** `GroupCallParticipant._parse`: one member of a voice chat, resolved to
    the user or chat behind its peer. */
module GroupCallParticipants {
  import opened Wrappers
  import opened Raw
  import Users
  import Chats

  /** A video or screen stream; its `audio_timestamp` is optional. */
  datatype RawStream = RawStream(audioTimestamp: Option<int>)

  /** The wire participant; attributes read with `hasattr` are None when
      absent, and a present stream object is always truthy. */
  datatype RawParticipant = RawParticipant(
    peer: Peer, date: int, source: int,
    volume: Option<int>,
    muted: Option<bool>, mutedByYou: Option<bool>, canSelfUnmute: Option<bool>,
    left: Option<bool>, justJoined: Option<bool>, versioned: Option<bool>,
    video: Option<RawStream>, presentation: Option<RawStream>,
    raiseHandRating: Option<int>)

  datatype GroupCallParticipant = GroupCallParticipant(
    user: Option<Users.User>, chat: Option<Chats.Chat>,
    date: Stamp, source: int, volume: Option<int>,
    isMuted: Option<bool>, isMutedByYou: Option<bool>, isCanSelfUnmute: Option<bool>,
    isLeft: Option<bool>, isJustJoined: Option<bool>, isVersioned: Option<bool>,
    isVideo: Option<bool>, isScreen: Option<bool>,
    raiseHandRating: Option<int>,
    videoTimestamp: Option<int>, presentationTimestamp: Option<int>)

  /** The peer's chat: decoded only for a channel or basic-group peer listed
      in `chats`; decoding an empty chat entry raises. */
  function PeerChat(p: Peer, chats: map<int, RawChat>): (r: Result<Option<Chats.Chat>>)
    ensures p.PeerUser? ==> r == Ok(None)
    ensures p.PeerChannel? && p.channelId !in chats ==> r == Ok(None)
    ensures p.PeerChat? && p.chatId !in chats ==> r == Ok(None)
    ensures p.PeerChannel? && p.channelId in chats ==> var c := Chats.ChannelChat(chats[p.channelId]);
      (r.Err? <==> c.Err?) && (c.Ok? ==> r == Ok(Some(c.value)))
    ensures p.PeerChat? && p.chatId in chats ==> var c := Chats.ChatChat(chats[p.chatId]);
      (r.Err? <==> c.Err?) && (c.Ok? ==> r == Ok(Some(c.value)))
  {
    match p
    case PeerUser(_) => Ok(None)
    case PeerChannel(id) =>
      if id in chats then var c :- Chats.ChannelChat(chats[id]); Ok(Some(c)) else Ok(None)
    case PeerChat(id) =>
      if id in chats then var c :- Chats.ChatChat(chats[id]); Ok(Some(c)) else Ok(None)
  }

  /** The peer's user: decoded only for a user peer listed in `users`. */
  function PeerUser(p: Peer, users: map<int, RawUser>): (r: Option<Users.User>)
    ensures r.Some? ==> p.PeerUser? && p.userId in users && r == Users.Parse(Some(users[p.userId]))
    ensures p.PeerUser? && p.userId in users ==> r == Users.Parse(Some(users[p.userId]))
  {
    if p.PeerUser? && p.userId in users then Users.Parse(Some(users[p.userId])) else None
  }

  /** `GroupCallParticipant._parse`: the user or the chat behind the peer (a
      missing entry leaves both None; only decoding an empty chat raises);
      the stream flags say whether a stream is present, and each stream's
      timestamp is its `audio_timestamp`. */
  function Parse(p: RawParticipant, users: map<int, RawUser>, chats: map<int, RawChat>)
    : (r: Result<GroupCallParticipant>)
    ensures r.Err? <==> PeerChat(p.peer, chats).Err?
    ensures r.Err? ==> r.error == PeerChat(p.peer, chats).error
    ensures r.Ok? ==> var v := r.value;
      && v.user == PeerUser(p.peer, users) && v.chat == PeerChat(p.peer, chats).value
      && v.date == StampOf(p.date) && v.source == p.source && v.volume == p.volume
      && v.isMuted == p.muted && v.isMutedByYou == p.mutedByYou && v.isCanSelfUnmute == p.canSelfUnmute
      && v.isLeft == p.left && v.isJustJoined == p.justJoined && v.isVersioned == p.versioned
      && v.isVideo == Some(p.video.Some?) && v.isScreen == Some(p.presentation.Some?)
      && v.raiseHandRating == p.raiseHandRating
      && v.videoTimestamp == (if p.video.Some? then p.video.value.audioTimestamp else None)
      && v.presentationTimestamp == (if p.presentation.Some? then p.presentation.value.audioTimestamp else None)
  {
    var chat :- PeerChat(p.peer, chats);
    Ok(GroupCallParticipant(
      PeerUser(p.peer, users), chat, StampOf(p.date), p.source, p.volume,
      p.muted, p.mutedByYou, p.canSelfUnmute, p.left, p.justJoined, p.versioned,
      Some(p.video.Some?), Some(p.presentation.Some?), p.raiseHandRating,
      if p.video.Some? then p.video.value.audioTimestamp else None,
      if p.presentation.Some? then p.presentation.value.audioTimestamp else None))
  }

  /** At most one of user and chat is set, each only for its own peer kind,
      and a peer missing from its table gives neither, without raising. */
  lemma PeerExclusive(p: RawParticipant, users: map<int, RawUser>, chats: map<int, RawChat>)
    ensures Parse(p, users, chats).Ok? ==> var v := Parse(p, users, chats).value;
      && (v.user.None? || v.chat.None?)
      && (v.user.Some? ==> p.peer.PeerUser?)
      && (v.chat.Some? ==> !p.peer.PeerUser?)
    ensures RawPeerId(Some(p.peer)).value !in (if p.peer.PeerUser? then users.Keys else chats.Keys) ==>
      && Parse(p, users, chats).Ok?
      && Parse(p, users, chats).value.user.None? && Parse(p, users, chats).value.chat.None?
  {
  }
}
