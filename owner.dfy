/** The peer dispatch that `PeerStories._parse` and `StarsSubscription._parse`
    share: a user peer resolved leniently, a channel or basic-group peer
    decoded from `chats.get`. */
module Owners {
  import opened Wrappers
  import opened Raw
  import Users
  import Chats

  /** The entity a peer resolves to: a user or a chat. */
  datatype Owner = UserOwner(user: Users.User) | ChatOwner(chat: Chats.Chat)

  /** The owner by peer kind: a user is looked up leniently (a missing user
      leaves it None), a channel or basic group is decoded from `chats.get`,
      which raises when the entry is missing. */
  function ParseOwner(p: Peer, users: map<int, RawUser>, chats: map<int, RawChat>): (r: Result<Option<Owner>>)
    ensures p.PeerUser? ==> var u := Users.Parse(Get(users, Some(p.userId)));
      r == Ok(if u.Some? then Some(UserOwner(u.value)) else None)
    ensures p.PeerChannel? ==> var c := Chats.ChannelChatOf(Get(chats, Some(p.channelId)));
      (r.Err? <==> c.Err?) && (c.Ok? ==> r == Ok(Some(ChatOwner(c.value))))
    ensures p.PeerChat? ==> var c := Chats.ChatChatOf(Get(chats, Some(p.chatId)));
      (r.Err? <==> c.Err?) && (c.Ok? ==> r == Ok(Some(ChatOwner(c.value))))
  {
    match p
    case PeerUser(id) =>
      var u := Users.Parse(Get(users, Some(id)));
      Ok(if u.Some? then Some(UserOwner(u.value)) else None)
    case PeerChannel(id) =>
      var c :- Chats.ChannelChatOf(Get(chats, Some(id)));
      Ok(Some(ChatOwner(c)))
    case PeerChat(id) =>
      var c :- Chats.ChatChatOf(Get(chats, Some(id)));
      Ok(Some(ChatOwner(c)))
  }

  /** Only a user peer can come back without an owner, and only a missing
      chat entry (or an empty one) raises; the owner's kind follows the
      peer's kind. */
  lemma OwnerKind(p: Peer, users: map<int, RawUser>, chats: map<int, RawChat>)
    ensures ParseOwner(p, users, chats).Ok? && ParseOwner(p, users, chats).value.None? ==> p.PeerUser?
    ensures ParseOwner(p, users, chats).Err? ==>
      && !p.PeerUser?
      && (RawPeerId(Some(p)).value !in chats || chats[RawPeerId(Some(p)).value].ChatEmpty?)
    ensures ParseOwner(p, users, chats).Ok? && ParseOwner(p, users, chats).value.Some? ==>
      (ParseOwner(p, users, chats).value.value.UserOwner? <==> p.PeerUser?)
  {
  }
}
