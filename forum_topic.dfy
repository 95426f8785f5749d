/** `ForumTopic._parse`: a topic of a forum supergroup, its creator looked
    up in the tables of the answer and its icon colour written in hex. */
module ForumTopics {
  import opened Wrappers
  import opened Text
  import opened Raw
  import Chats

  datatype RawForumTopic =
    | ForumTopic(
        id: int, date: int, title: string, iconColor: int, iconEmojiId: Option<int>,
        topMessage: int, readInboxMaxId: int, readOutboxMaxId: int,
        unreadCount: int, unreadMentionsCount: int, unreadReactionsCount: int,
        fromId: Peer,
        my: bool, closed: bool, pinned: bool, short: bool, hidden: bool)
    | ForumTopicDeleted(id: int)

  /** The decoded topic. `topMessage` is the entry the caller's `messages`
      table holds for the topic's top message id (messages are decoded
      outside this model). The two read marks are never filled in. */
  datatype Topic = Topic(
    id: int,
    title: string,
    date: Stamp,
    iconColor: Option<string>,
    iconEmojiId: Option<int>,
    creator: Option<Chats.Chat>,
    topMessage: Option<Blob>,
    readInboxMaxId: Option<int>, readOutboxMaxId: Option<int>,
    unreadCount: Option<int>, unreadMentionsCount: Option<int>, unreadReactionsCount: Option<int>,
    isMy: Option<bool>, isClosed: Option<bool>, isPinned: Option<bool>,
    isShort: Option<bool>, isHidden: Option<bool>)

  /** `getattr(forum_topic, "from_id", None)`: a deleted topic has none. */
  function FromIdAttr(t: RawForumTopic): Option<Peer> {
    if t.ForumTopic? then Some(t.fromId) else None
  }

  /** The creator: a user peer is looked up in `users` and decoded as a
      private chat, any other peer in `chats` and decoded as a channel;
      both lookups are `[]`, so a missing entry raises KeyError. */
  function Creator(peer: Option<Peer>, users: map<int, RawUser>, chats: map<int, RawChat>)
    : (r: Result<Option<Chats.Chat>>)
    ensures peer.None? ==> r == Ok(None)
    ensures peer.Some? && peer.value.PeerUser? ==>
      r == (if peer.value.userId !in users then Err(KeyError(Some(peer.value.userId)))
            else if Chats.UserChat(users[peer.value.userId]).Err? then Err(Chats.UserChat(users[peer.value.userId]).error)
            else Ok(Some(Chats.UserChat(users[peer.value.userId]).value)))
    ensures peer.Some? && !peer.value.PeerUser? ==> var id := RawPeerId(peer).value;
      r == (if id !in chats then Err(KeyError(Some(id)))
            else if Chats.ChannelChat(chats[id]).Err? then Err(Chats.ChannelChat(chats[id]).error)
            else Ok(Some(Chats.ChannelChat(chats[id]).value)))
  {
    match peer
    case None => Ok(None)
    case Some(PeerUser(id)) =>
      var u :- Lookup(users, Some(id));
      var c :- Chats.UserChat(u);
      Ok(Some(c))
    case Some(p) =>
      var raw :- Lookup(chats, RawPeerId(Some(p)));
      var c :- Chats.ChannelChat(raw);
      Ok(Some(c))
  }

  /** `format(icon_color, "x") if icon_color else None`. */
  function IconColor(color: int): (r: Option<string>)
    ensures r.Some? <==> color != 0
  {
    if color != 0 then Some(FormatInt(color, 16)) else None
  }

  /** `ForumTopic._parse`: the creator is resolved first (its lookup may
      raise); a deleted topic has no creator and raises on its missing
      `title`; otherwise the fields are copied, the counters and flags as
      they are (a false flag stays False). */
  function Parse(t: RawForumTopic, messages: map<int, Blob>, users: map<int, RawUser>, chats: map<int, RawChat>)
    : (r: Result<Topic>)
    ensures t.ForumTopicDeleted? ==> r == Err(AttributeError("title"))
    ensures t.ForumTopic? ==> (r.Err? <==> Creator(Some(t.fromId), users, chats).Err?)
    ensures t.ForumTopic? && r.Err? ==> r.error == Creator(Some(t.fromId), users, chats).error
    ensures r.Ok? ==> var v := r.value;
      && t.ForumTopic?
      && v.creator == Creator(Some(t.fromId), users, chats).value && v.creator.Some?
      && v.id == t.id && v.title == t.title && v.date == StampOf(t.date)
      && v.iconColor == IconColor(t.iconColor) && v.iconEmojiId == t.iconEmojiId
      && v.topMessage == Get(messages, Some(t.topMessage))
      && v.readInboxMaxId.None? && v.readOutboxMaxId.None?
      && v.unreadCount == Some(t.unreadCount) && v.unreadMentionsCount == Some(t.unreadMentionsCount)
      && v.unreadReactionsCount == Some(t.unreadReactionsCount)
      && v.isMy == Some(t.my) && v.isClosed == Some(t.closed) && v.isPinned == Some(t.pinned)
      && v.isShort == Some(t.short) && v.isHidden == Some(t.hidden)
  {
    var creator :- Creator(FromIdAttr(t), users, chats);
    if t.ForumTopicDeleted? then Err(AttributeError("title"))
    else
      Ok(Topic(
        t.id, t.title, StampOf(t.date), IconColor(t.iconColor), t.iconEmojiId, creator,
        Get(messages, Some(t.topMessage)), None, None,
        Some(t.unreadCount), Some(t.unreadMentionsCount), Some(t.unreadReactionsCount),
        Some(t.my), Some(t.closed), Some(t.pinned), Some(t.short), Some(t.hidden)))
  }

  /** The hex colour reads back as the raw colour, and distinct colours get
      distinct strings; a zero colour is dropped. */
  lemma IconColorRoundTrip(color: int, other: int)
    ensures IconColor(color).Some? ==> ParseInt(IconColor(color).value, 16) == Some(color)
    ensures IconColor(color).Some? && IconColor(color) == IconColor(other) ==> color == other
  {
    FormatIntRoundTrip(color, 16);
    FormatIntRoundTrip(other, 16);
  }

  /** The creator's kind follows the peer's kind: a user peer gives a private
      or bot chat, a channel or basic-group peer a channel or supergroup. */
  lemma CreatorKind(t: RawForumTopic, messages: map<int, Blob>, users: map<int, RawUser>, chats: map<int, RawChat>)
    requires Parse(t, messages, users, chats).Ok?
    ensures var c := Parse(t, messages, users, chats).value.creator.value;
      if t.fromId.PeerUser? then c.kind == Chats.PrivateType || c.kind == Chats.BotType
      else c.kind == Chats.ChannelType || c.kind == Chats.SupergroupType
  {
  }
}
