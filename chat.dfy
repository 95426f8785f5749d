/** The chat object: the three decoders from a raw user, basic group or
    channel, the id choice of `Chat._parse`, `_parse_dialog`, `_parse_chat`,
    `full_name`, and the field updates of `_parse_full`. */
module Chats {
  import opened Wrappers
  import opened Text
  import opened Raw
  import PeerColors
  import opened BusinessHours
  import opened BusinessMessages
  import opened BusinessInfos
  import Users

  datatype ChatType = PrivateType | BotType | GroupType | SupergroupType | ChannelType

  datatype Chat = Chat(
    id: ChatId,
    kind: ChatType,
    isVerified: Option<bool>, isRestricted: Option<bool>, isCreator: Option<bool>,
    isScam: Option<bool>, isFake: Option<bool>, isSupport: Option<bool>, isForum: Option<bool>,
    title: Option<string>,
    username: Option<string>,
    firstName: Option<string>,
    lastName: Option<string>,
    restrictions: Option<seq<Nested>>,
    restrictionReason: Option<seq<Nested>>,
    usernames: Option<seq<Nested>>,
    membersCount: Option<int>,
    hasProtectedContent: Option<bool>,
    accessHash: Option<int>,
    color: Option<PeerColors.PeerColor>,
    profileColor: Option<PeerColors.PeerColor>,
    permissions: Option<Nested>,
    adminPrivileges: Option<Nested>,
    bio: Option<string>,
    description: Option<string>,
    hasVisibleHistory: Option<bool>,
    hasHiddenMembers: Option<bool>,
    canSetStickerSet: Option<bool>,
    stickerSetName: Option<string>,
    inviteLink: Option<string>,
    availableReactions: Option<Nested>,
    wallpaper: Option<Nested>,
    birthday: Option<Nested>,
    businessIntro: Option<Nested>,
    businessLocation: Option<Nested>,
    businessWorkHours: Option<WorkHours>,
    businessGreetingMessage: Option<Greeting>,
    businessAwayMessage: Option<Away>,
    stargiftsCount: Option<int>,
    personalChat: Option<Chat>,
    linkedChat: Option<Chat>,
    sendAsChat: Option<Chat>)

  /** A chat with the given id and type and every other field None. */
  function Blank(id: ChatId, t: ChatType): Chat {
    Chat.Chat(id, t, None, None, None, None, None, None, None, None, None, None, None, None, None,
              None, None, None, None, None, None, None, None, None, None, None, None, None, None,
              None, None, None, None, None, None, None, None, None, None, None, None, None)
  }

  /** The id of a chat is channel-marked exactly when the chat is a
      supergroup or a channel, and a restriction list is never empty and is
      the same under both field names whenever both are set. */
  predicate WellFormed(c: Chat) {
    && (c.id.ChannelMarked? <==> c.kind == SupergroupType || c.kind == ChannelType)
    && (c.restrictionReason.Some? ==> |c.restrictionReason.value| > 0)
    && (c.restrictions.Some? ==> c.restrictions == c.restrictionReason)
  }

  // ------------------------------------------------------- the three decoders

  /** `_parse_user_chat`: a UserEmpty has no `restriction_reason`, which is
      the first attribute the decoder reads. */
  function UserChat(u: RawUser): (r: Result<Chat>)
    ensures r.Err? <==> u.UserEmpty?
    ensures r.Err? ==> r.error == AttributeError("restriction_reason")
    ensures r.Ok? ==> WellFormed(r.value)
    ensures r.Ok? ==> r.value.id == Bare(u.id)
    ensures r.Ok? ==> (r.value.kind == BotType <==> u.bot)
    ensures r.Ok? ==> r.value.kind == BotType || r.value.kind == PrivateType
    ensures r.Ok? ==> r.value.title.None? && r.value.description.None?
  {
    match u
    case UserEmpty(_) => Err(AttributeError("restriction_reason"))
    case User(_, _, _, _, _, _, _, _, _, _, _, _, _, _, _, _, _, _, _, _, _, _, _) =>
      var restrictions := NestedList(RestrictionParser, u.restrictionReason);
      Ok(Blank(Bare(u.id), if u.bot then BotType else PrivateType).(
        isVerified := Some(u.verified),
        isRestricted := Some(u.restricted),
        isScam := Some(u.scam),
        isFake := Some(u.fake),
        isSupport := Some(u.support),
        username := u.username,
        firstName := u.firstName,
        lastName := u.lastName,
        restrictions := restrictions,
        restrictionReason := restrictions,
        usernames := NestedList(UsernameParser, u.usernames),
        color := PeerColors.Parse(u.color),
        profileColor := PeerColors.Parse(u.profileColor),
        accessHash := u.accessHash))
  }

  /** `_parse_chat_chat`: any raw chat with a title decodes as a basic group
      under the negated id; only `restriction_reason` is set, never
      `restrictions`. A ChatEmpty has no title. */
  function ChatChat(c: RawChat): (r: Result<Chat>)
    ensures r.Err? <==> c.ChatEmpty?
    ensures r.Err? ==> r.error == AttributeError("title")
    ensures r.Ok? ==> WellFormed(r.value)
    ensures r.Ok? ==> r.value.id == Bare(0 - c.id) && r.value.kind == GroupType
    ensures r.Ok? ==> r.value.title == TitleAttr(c) && r.value.restrictions.None?
    ensures r.Ok? ==> r.value.membersCount == ParticipantsAttr(c)
  {
    if c.ChatEmpty? then Err(AttributeError("title"))
    else
      Ok(Blank(Bare(0 - c.id), GroupType).(
        title := Some(c.title),
        isCreator := CreatorAttr(c),
        permissions := NestedOpt(PermissionsParser, DefaultBannedAttr(c)),
        membersCount := ParticipantsAttr(c),
        hasProtectedContent := NoforwardsAttr(c),
        usernames := NestedList(UsernameParser, UsernamesAttr(c)),
        adminPrivileges := NestedOpt(PrivilegesParser, AdminRightsAttr(c)),
        color := PeerColors.Parse(if c.Channel? then c.color else None),
        profileColor := PeerColors.Parse(if c.Channel? then c.profileColor else None),
        accessHash := AccessHashAttr(c),
        restrictionReason := NestedList(RestrictionParser, RestrictionAttr(c))))
  }

  /** `_parse_channel_chat`: a supergroup exactly when the `megagroup`
      attribute is truthy, a channel otherwise, under the marked channel id. */
  function ChannelChat(c: RawChat): (r: Result<Chat>)
    ensures r.Err? <==> c.ChatEmpty?
    ensures r.Err? ==> r.error == AttributeError("title")
    ensures r.Ok? ==> WellFormed(r.value)
    ensures r.Ok? ==> r.value.id == ChannelMarked(c.id)
    ensures r.Ok? ==> (r.value.kind == SupergroupType <==> Truthy(MegagroupAttr(c)))
    ensures r.Ok? ==> r.value.kind == SupergroupType || r.value.kind == ChannelType
    ensures r.Ok? ==> r.value.title == TitleAttr(c)
    ensures r.Ok? ==> r.value.restrictionReason == NestedList(RestrictionParser, RestrictionAttr(c))
  {
    if c.ChatEmpty? then Err(AttributeError("title"))
    else
      var restrictions := NestedList(RestrictionParser, RestrictionAttr(c));
      Ok(Blank(ChannelMarked(c.id), if Truthy(MegagroupAttr(c)) then SupergroupType else ChannelType).(
        isVerified := if c.Channel? then Some(c.verified) else None,
        isRestricted := if c.Channel? then Some(c.restricted) else None,
        isCreator := CreatorAttr(c),
        isScam := if c.Channel? then Some(c.scam) else None,
        isFake := if c.Channel? then Some(c.fake) else None,
        title := Some(c.title),
        username := if c.Channel? then c.username else None,
        restrictions := restrictions,
        restrictionReason := restrictions,
        permissions := NestedOpt(PermissionsParser, DefaultBannedAttr(c)),
        membersCount := ParticipantsAttr(c),
        hasProtectedContent := NoforwardsAttr(c),
        usernames := NestedList(UsernameParser, UsernamesAttr(c)),
        adminPrivileges := NestedOpt(PrivilegesParser, AdminRightsAttr(c)),
        isForum := if c.Channel? then Some(c.forum) else None,
        color := PeerColors.Parse(if c.Channel? then c.color else None),
        profileColor := PeerColors.Parse(if c.Channel? then c.profileColor else None),
        accessHash := AccessHashAttr(c)))
  }

  /** `_parse_channel_chat` of a `chats.get(...)` result: None has no `id`. */
  function ChannelChatOf(c: Option<RawChat>): (r: Result<Chat>)
    ensures c.None? ==> r == Err(AttributeError("id"))
    ensures c.Some? ==> r == ChannelChat(c.value)
  {
    if c.None? then Err(AttributeError("id")) else ChannelChat(c.value)
  }

  /** `_parse_chat_chat` of a `chats.get(...)` result: None has no `id`. */
  function ChatChatOf(c: Option<RawChat>): (r: Result<Chat>)
    ensures c.None? ==> r == Err(AttributeError("id"))
    ensures c.Some? ==> r == ChatChat(c.value)
  {
    if c.None? then Err(AttributeError("id")) else ChatChat(c.value)
  }

  /** `_parse_chat`: only the raw `Chat` kind is a basic group and only the
      raw `User` kind a user chat; everything else (forbidden and empty
      chats, and an empty user) goes to the channel decoder, which fails on
      the `title` an empty user does not have. */
  function ParseChat(e: RawEntity): (r: Result<Chat>)
    ensures e.ChatEntity? && e.chat.Chat? ==> r == ChatChat(e.chat)
    ensures e.UserEntity? && e.user.User? ==> r == UserChat(e.user)
    ensures e.UserEntity? && e.user.UserEmpty? ==> r == Err(AttributeError("title"))
    ensures e.ChatEntity? && !e.chat.Chat? ==> r == ChannelChat(e.chat)
    ensures r.Ok? ==> WellFormed(r.value)
  {
    match e
    case ChatEntity(c) => if c.Chat? then ChatChat(c) else ChannelChat(c)
    case UserEntity(u) => if u.User? then UserChat(u) else Err(AttributeError("title"))
  }

  // ------------------------------------------------------- _parse, _parse_dialog

  /** The kind of chat each peer variant stands for. */
  predicate TypeOfPeer(p: Peer, t: ChatType) {
    match p
    case PeerUser(_) => t == PrivateType || t == BotType
    case PeerChat(_) => t == GroupType
    case PeerChannel(_) => t == SupergroupType || t == ChannelType
  }

  /** `_parse_dialog`: the table and the decoder follow the peer variant, and
      every lookup is strict. */
  function ParseDialog(p: Peer, users: map<int, RawUser>, chats: map<int, RawChat>): (r: Result<Chat>)
    ensures p.PeerUser? && p.userId !in users ==> r == Err(KeyError(Some(p.userId)))
    ensures p.PeerChat? && p.chatId !in chats ==> r == Err(KeyError(Some(p.chatId)))
    ensures p.PeerChannel? && p.channelId !in chats ==> r == Err(KeyError(Some(p.channelId)))
    ensures p.PeerUser? && p.userId in users ==> r == UserChat(users[p.userId])
    ensures p.PeerChat? && p.chatId in chats ==> r == ChatChat(chats[p.chatId])
    ensures p.PeerChannel? && p.channelId in chats ==> r == ChannelChat(chats[p.channelId])
    ensures r.Ok? ==> WellFormed(r.value) && TypeOfPeer(p, r.value.kind)
  {
    match p
    case PeerUser(id) => var u :- Lookup(users, Some(id)); UserChat(u)
    case PeerChat(id) => var c :- Lookup(chats, Some(id)); ChatChat(c)
    case PeerChannel(id) => var c :- Lookup(chats, Some(id)); ChannelChat(c)
  }

  /** The two peers of a message that `Chat._parse` reads. */
  datatype MessagePeers = MessagePeers(fromId: Option<Peer>, peerId: Peer)

  /** The key `_parse` looks up: the conversation peer first for a chat,
      the sender first otherwise, skipping a missing or zero id. */
  function ChosenId(m: MessagePeers, isChat: bool): (r: Option<int>)
    ensures isChat && RawPeerId(Some(m.peerId)) != Some(0) ==> r == RawPeerId(Some(m.peerId))
    ensures !isChat && TruthyInt(RawPeerId(m.fromId)) ==> r == RawPeerId(m.fromId)
    ensures !isChat && !TruthyInt(RawPeerId(m.fromId)) ==> r == RawPeerId(Some(m.peerId))
    ensures r.Some? ==> r == RawPeerId(Some(m.peerId)) || r == RawPeerId(m.fromId)
  {
    var fromId := RawPeerId(m.fromId);
    var peerId := RawPeerId(Some(m.peerId));
    if isChat then OrInt(peerId, fromId) else OrInt(fromId, peerId)
  }

  /** `Chat._parse`: the decoder follows the variant of the conversation
      peer, applied to the entry under the chosen key. */
  function Parse(m: MessagePeers, users: map<int, RawUser>, chats: map<int, RawChat>, isChat: bool): (r: Result<Chat>)
    ensures var k := ChosenId(m, isChat);
      m.peerId.PeerUser? && !(k.Some? && k.value in users) ==> r == Err(KeyError(k))
    ensures var k := ChosenId(m, isChat);
      !m.peerId.PeerUser? && !(k.Some? && k.value in chats) ==> r == Err(KeyError(k))
    ensures var k := ChosenId(m, isChat);
      m.peerId.PeerUser? && k.Some? && k.value in users ==> r == UserChat(users[k.value])
    ensures var k := ChosenId(m, isChat);
      m.peerId.PeerChat? && k.Some? && k.value in chats ==> r == ChatChat(chats[k.value])
    ensures var k := ChosenId(m, isChat);
      m.peerId.PeerChannel? && k.Some? && k.value in chats ==> r == ChannelChat(chats[k.value])
    ensures r.Ok? ==> WellFormed(r.value) && TypeOfPeer(m.peerId, r.value.kind)
  {
    var key := ChosenId(m, isChat);
    match m.peerId
    case PeerUser(_) => var u :- Lookup(users, key); UserChat(u)
    case PeerChat(_) => var c :- Lookup(chats, key); ChatChat(c)
    case PeerChannel(_) => var c :- Lookup(chats, key); ChannelChat(c)
  }

  /** The peer of the same variant as `p` carrying the id `k`. */
  function WithId(p: Peer, k: int): Peer {
    match p
    case PeerUser(_) => PeerUser(k)
    case PeerChat(_) => PeerChat(k)
    case PeerChannel(_) => PeerChannel(k)
  }

  /** `_parse` and `_parse_dialog` agree: for a chat (or a message with no
      sender id) whose peer id is non-zero, `_parse` decodes the conversation
      peer itself; for a private message with a sender, it decodes the
      sender's entry through the decoder of the conversation peer's kind. */
  lemma ParseAgreesWithDialog(m: MessagePeers, users: map<int, RawUser>, chats: map<int, RawChat>, isChat: bool)
    ensures RawPeerId(Some(m.peerId)) != Some(0) && (isChat || !TruthyInt(RawPeerId(m.fromId))) ==>
      Parse(m, users, chats, isChat) == ParseDialog(m.peerId, users, chats)
    ensures !isChat && TruthyInt(RawPeerId(m.fromId)) ==>
      Parse(m, users, chats, isChat) == ParseDialog(WithId(m.peerId, RawPeerId(m.fromId).value), users, chats)
  {
    match m.peerId
    case PeerUser(_) =>
    case PeerChat(_) =>
    case PeerChannel(_) =>
  }

  // ----------------------------------------------------------------- full_name

  /** `full_name`: the non-empty names joined by one space, or None. */
  function FullName(c: Chat): (r: Option<string>)
    ensures r.None? <==> !Filled(c.firstName) && !Filled(c.lastName)
    ensures Filled(c.firstName) && !Filled(c.lastName) ==> r == c.firstName
    ensures !Filled(c.firstName) && Filled(c.lastName) ==> r == c.lastName
    ensures Filled(c.firstName) && Filled(c.lastName) ==>
      r == Some(c.firstName.value + " " + c.lastName.value)
  {
    JoinNames(c.firstName, c.lastName)
  }

  /** A user decodes to the same names, colours, restrictions and usernames
      whether it is read as a user or as a private chat, so the two
      `full_name`s agree. */
  lemma UserChatAgreesWithUser(u: RawUser)
    requires u.User?
    ensures var c := UserChat(u).value; var v := Users.Parse(Some(u)).value;
      && FullName(c) == Users.FullName(v)
      && c.username == v.username
      && c.restrictionReason == v.restrictionReason
      && c.usernames == v.usernames
      && c.color == v.color && c.profileColor == v.profileColor
      && (c.kind == BotType <==> v.isBot)
  {
  }

  // ---------------------------------------------------------------- _parse_full

  /** An invite of a full chat: only an exported invite carries a link. */
  datatype RawInvite = ChatInviteExported(link: string) | ChatInvitePublicJoinRequests

  /** The fields of a raw full user that `_parse_full` reads. */
  datatype RawFullUser = RawFullUser(
    id: int,
    about: Option<string>,
    wallpaper: Option<Blob>,
    birthday: Option<Blob>,
    business: RawUserFull,
    stargiftsCount: Option<int>,
    personalChannelId: Option<int>)

  /** The fields of a raw full basic group or full channel that `_parse_full`
      reads. On a basic group the attributes read through `getattr` with a
      default are None when absent. */
  datatype RawFullChat =
    | ChatFull(
        id: int, about: string,
        participantsCount: Option<int>, hiddenPrehistory: Option<bool>, canViewParticipants: Option<bool>,
        defaultBannedRights: Option<Blob>, bannedRights: Option<Blob>, adminRights: Option<Blob>,
        restrictionReason: seq<Blob>,
        exportedInvite: Option<RawInvite>, availableReactions: Option<Blob>)
    | ChannelFull(
        id: int, about: string,
        participantsCount: Option<int>, canSetStickers: bool, stickerSetName: Option<string>,
        defaultBannedRights: Option<Blob>, bannedRights: Option<Blob>, adminRights: Option<Blob>,
        restrictionReason: seq<Blob>,
        linkedChatId: Option<int>, defaultSendAs: Option<Peer>, wallpaper: Option<Blob>,
        exportedInvite: Option<RawInvite>, availableReactions: Option<Blob>,
        color: Option<PeerColors.RawPeerColor>, profileColor: Option<PeerColors.RawPeerColor>,
        stargiftsCount: Option<int>)

  /** The two answers `_parse_full` accepts, with their user and chat lists. */
  datatype RawChatFull =
    | UserFull(fullUser: RawFullUser, users: seq<RawUser>, chats: seq<RawChat>)
    | ChatFullAnswer(fullChat: RawFullChat, users: seq<RawUser>, chats: seq<RawChat>)

  /** The permissions after the full chat's overrides: banned rights win over
      default banned rights, which win over the basic decoder's value. */
  function Permissions(f: RawFullChat, base: Option<Nested>): (r: Option<Nested>)
    ensures f.bannedRights.Some? ==> r == Some(Nested(PermissionsParser, f.bannedRights.value))
    ensures f.bannedRights.None? && f.defaultBannedRights.Some? ==>
      r == Some(Nested(PermissionsParser, f.defaultBannedRights.value))
    ensures f.bannedRights.None? && f.defaultBannedRights.None? ==> r == base
  {
    if f.bannedRights.Some? then NestedOpt(PermissionsParser, f.bannedRights)
    else if f.defaultBannedRights.Some? then NestedOpt(PermissionsParser, f.defaultBannedRights)
    else base
  }

  /** What the user half of `_parse_full` answers for a full user and its
      lists: a strict lookup of the user, its profile fields, and the
      personal channel only when its id is non-zero and listed. */
  ghost predicate FullUserDecoded(f: RawFullUser, userList: seq<RawUser>, chatList: seq<RawChat>, r: Result<Chat>) {
    && (f.id !in UserTable(userList) ==> r == Err(KeyError(Some(f.id))))
    && (f.id in UserTable(userList) ==>
      (r.Err? <==>
         || UserTable(userList)[f.id].UserEmpty?
         || (TruthyInt(f.personalChannelId) && f.personalChannelId.value in ChatTable(chatList)
             && ChatTable(chatList)[f.personalChannelId.value].ChatEmpty?)))
    && (r.Ok? ==>
      && r.value.id == Bare(f.id)
      && r.value.bio == f.about
      && r.value.wallpaper == NestedOpt(WallpaperParser, f.wallpaper)
      && r.value.birthday == NestedOpt(BirthdayParser, f.birthday)
      && r.value.businessWorkHours == Components(f.business).workHours
      && r.value.businessLocation == Components(f.business).location
      && r.value.businessIntro == Components(f.business).intro
      && r.value.businessGreetingMessage == Components(f.business).greeting
      && r.value.businessAwayMessage == Components(f.business).away
      && r.value.stargiftsCount == f.stargiftsCount
      && Ok(r.value.(bio := None, wallpaper := None, birthday := None, businessIntro := None,
                     businessLocation := None, businessWorkHours := None, businessGreetingMessage := None,
                     businessAwayMessage := None, stargiftsCount := None, personalChat := None))
         == UserChat(UserTable(userList)[f.id]))
    && (r.Ok? ==>
      && (r.value.personalChat.Some? <==> TruthyInt(f.personalChannelId) && f.personalChannelId.value in ChatTable(chatList))
      && (r.value.personalChat.Some? ==>
            Ok(r.value.personalChat.value) == ChannelChat(ChatTable(chatList)[f.personalChannelId.value])))
  }

  /** The user half of `_parse_full`: strict lookup of the user, then its
      profile fields; the personal channel only when its id is non-zero and
      listed. */
  method ParseFullUser(f: RawFullUser, userList: seq<RawUser>, chatList: seq<RawChat>)
    returns (r: Result<Chat>)
    ensures FullUserDecoded(f, userList, chatList, r)
  {
    var users := UserTable(userList);
    var chats := ChatTable(chatList);
    var entry := Lookup(users, Some(f.id));
    if entry.Err? {
      return Err(entry.error);
    }
    var parsed := UserChat(entry.value);
    if parsed.Err? {
      return parsed;
    }
    var chat := parsed.value;
    chat := chat.(bio := f.about);
    chat := chat.(wallpaper := NestedOpt(WallpaperParser, f.wallpaper));
    chat := chat.(birthday := NestedOpt(BirthdayParser, f.birthday));
    var business := Components(f.business);
    chat := chat.(businessIntro := business.intro);
    chat := chat.(businessLocation := business.location);
    chat := chat.(businessWorkHours := business.workHours);
    chat := chat.(businessGreetingMessage := business.greeting);
    chat := chat.(businessAwayMessage := business.away);
    chat := chat.(stargiftsCount := f.stargiftsCount);
    if TruthyInt(f.personalChannelId) {
      var personal := Get(chats, f.personalChannelId);
      if personal.Some? {
        var decoded := ChannelChat(personal.value);
        if decoded.Err? {
          return Err(decoded.error);
        }
        chat := chat.(personalChat := Some(decoded.value));
      }
    }
    return Ok(chat);
  }

  /** The kind-specific part of `_parse_full` for a chat: the basic decoder
      of the listed raw chat, then the fields only that kind of full chat
      sets. */
  method FullChatBase(f: RawFullChat, entry: RawChat) returns (r: Result<Chat>)
    ensures r.Err? <==> entry.ChatEmpty?
    ensures r.Err? ==> r == Err(AttributeError("title"))
    ensures r.Ok? ==> WellFormed(r.value) && r.value.description == StrOrNone(Some(f.about))
    ensures r.Ok? ==> r.value.linkedChat.None? && r.value.sendAsChat.None? && r.value.inviteLink.None?
    ensures r.Ok? ==> r.value.title == TitleAttr(entry)
    ensures r.Ok? ==> r.value.restrictionReason == NestedList(RestrictionParser, RestrictionAttr(entry))
    ensures r.Ok? && f.ChatFull? ==> r.value.id == Bare(0 - entry.id) && r.value.kind == GroupType
    ensures r.Ok? && f.ChatFull? ==>
      && Ok(r.value.(description := None, membersCount := ParticipantsAttr(entry),
                     hasVisibleHistory := None, hasHiddenMembers := None)) == ChatChat(entry)
      && r.value.membersCount == Some(f.participantsCount.GetOr(0))
      && r.value.hasVisibleHistory == Some(!f.hiddenPrehistory.GetOr(false))
      && r.value.hasHiddenMembers == Some(!f.canViewParticipants.GetOr(true))
    ensures r.Ok? && f.ChannelFull? ==>
      && Ok(r.value.(membersCount := ParticipantsAttr(entry), description := None, canSetStickerSet := None,
                     stickerSetName := None, wallpaper := None,
                     adminPrivileges := NestedOpt(PrivilegesParser, AdminRightsAttr(entry)),
                     color := PeerColors.Parse(if entry.Channel? then entry.color else None),
                     profileColor := PeerColors.Parse(if entry.Channel? then entry.profileColor else None),
                     stargiftsCount := None)) == ChannelChat(entry)
      && r.value.id == ChannelMarked(entry.id)
      && (r.value.kind == SupergroupType <==> Truthy(MegagroupAttr(entry)))
      && r.value.membersCount == f.participantsCount
      && r.value.canSetStickerSet == Some(f.canSetStickers)
      && r.value.stickerSetName == f.stickerSetName
      && r.value.wallpaper == NestedOpt(WallpaperParser, f.wallpaper)
      && (f.adminRights.Some? ==> r.value.adminPrivileges == NestedOpt(PrivilegesParser, f.adminRights))
      && (PeerColors.Parse(f.color).Some? ==> r.value.color == PeerColors.Parse(f.color))
      && (PeerColors.Parse(f.profileColor).Some? ==> r.value.profileColor == PeerColors.Parse(f.profileColor))
      && r.value.stargiftsCount == f.stargiftsCount
  {
    var chat: Chat;
    if f.ChatFull? {
      var parsed := ChatChat(entry);
      if parsed.Err? {
        return parsed;
      }
      chat := parsed.value;
      chat := chat.(description := StrOrNone(Some(f.about)));
      chat := chat.(membersCount := Some(f.participantsCount.GetOr(0)));
      chat := chat.(hasVisibleHistory := Some(!f.hiddenPrehistory.GetOr(false)));
      chat := chat.(hasHiddenMembers := Some(!f.canViewParticipants.GetOr(true)));
    } else {
      var parsed := ChannelChat(entry);
      if parsed.Err? {
        return parsed;
      }
      chat := parsed.value;
      chat := chat.(membersCount := f.participantsCount);
      chat := chat.(description := StrOrNone(Some(f.about)));
      chat := chat.(canSetStickerSet := Some(f.canSetStickers));
      chat := chat.(stickerSetName := f.stickerSetName);
      if f.adminRights.Some? {
        chat := chat.(adminPrivileges := NestedOpt(PrivilegesParser, f.adminRights));
      }
      if PeerColors.Parse(f.color).Some? {
        chat := chat.(color := PeerColors.Parse(f.color));
      }
      if PeerColors.Parse(f.profileColor).Some? {
        chat := chat.(profileColor := PeerColors.Parse(f.profileColor));
      }
      chat := chat.(wallpaper := NestedOpt(WallpaperParser, f.wallpaper));
      chat := chat.(stargiftsCount := f.stargiftsCount);
    }
    return Ok(chat);
  }

  /** The raw entity behind a default send-as peer: a user is looked up in
      the users, anything else by its `channel_id` in the chats, and a
      basic-group peer has no `channel_id`. */
  function SendAsEntity(p: Peer, users: map<int, RawUser>, chats: map<int, RawChat>): (r: Result<RawEntity>)
    ensures p.PeerUser? ==> r == (if p.userId in users then Ok(UserEntity(users[p.userId])) else Err(KeyError(Some(p.userId))))
    ensures p.PeerChat? ==> r == Err(AttributeError("channel_id"))
    ensures p.PeerChannel? ==> r == (if p.channelId in chats then Ok(ChatEntity(chats[p.channelId])) else Err(KeyError(Some(p.channelId))))
  {
    match p
    case PeerUser(id) => var u :- Lookup(users, Some(id)); Ok(UserEntity(u))
    case PeerChat(_) => Err(AttributeError("channel_id"))
    case PeerChannel(id) => var c :- Lookup(chats, Some(id)); Ok(ChatEntity(c))
  }

  /** The send-as chat: `_parse_chat` of the entity behind the peer. */
  function SendAs(p: Peer, users: map<int, RawUser>, chats: map<int, RawChat>): (r: Result<Chat>)
    ensures SendAsEntity(p, users, chats).Err? ==> r == Err(SendAsEntity(p, users, chats).error)
    ensures SendAsEntity(p, users, chats).Ok? ==> r == ParseChat(SendAsEntity(p, users, chats).value)
  {
    var e :- SendAsEntity(p, users, chats);
    ParseChat(e)
  }

  /** The send-as chat agrees with `_parse_dialog` for a user peer (unless
      the user is empty, which the two decoders reject on different
      attributes) and for a channel peer listed as a full channel; a peer
      listed as a raw basic group is decoded by the basic-group decoder, not
      the channel decoder. */
  lemma SendAsAgreesWithDialog(p: Peer, users: map<int, RawUser>, chats: map<int, RawChat>)
    ensures p.PeerUser? && !(p.userId in users && users[p.userId].UserEmpty?) ==>
      SendAs(p, users, chats) == ParseDialog(p, users, chats)
    ensures p.PeerUser? && p.userId in users && users[p.userId].UserEmpty? ==>
      && SendAs(p, users, chats) == Err(AttributeError("title"))
      && ParseDialog(p, users, chats) == Err(AttributeError("restriction_reason"))
    ensures p.PeerChannel? && p.channelId in chats && !chats[p.channelId].Chat? ==>
      SendAs(p, users, chats) == ParseDialog(p, users, chats)
    ensures p.PeerChannel? && p.channelId in chats && chats[p.channelId].Chat? ==>
      SendAs(p, users, chats) == ChatChat(chats[p.channelId])
  {
  }

  /** The linked chat a restricted full chat resolves: the entry under
      `linked_chat_id`, when listed, through the channel decoder (None when
      not listed); a basic group has no `linked_chat_id`. */
  function LinkedChat(f: RawFullChat, chats: map<int, RawChat>): (r: Result<Option<Chat>>)
    ensures f.ChatFull? ==> r == Err(AttributeError("linked_chat_id"))
    ensures f.ChannelFull? && Get(chats, f.linkedChatId).None? ==> r == Ok(None)
    ensures f.ChannelFull? && Get(chats, f.linkedChatId).Some? ==>
      var c := Get(chats, f.linkedChatId).value;
      && (r.Err? <==> c.ChatEmpty?)
      && (r.Err? ==> r.error == AttributeError("title"))
      && (r.Ok? ==> r.value.Some? && Ok(r.value.value) == ChannelChat(c) && r.value.value.id == ChannelMarked(c.id))
  {
    if f.ChatFull? then Err(AttributeError("linked_chat_id"))
    else
      match Get(chats, f.linkedChatId)
      case None => Ok(None)
      case Some(c) => var d :- ChannelChat(c); Ok(Some(d))
  }

  /** The send-as chat a restricted full channel resolves: None without a
      `default_send_as`, else `SendAs` of that peer with its error; a basic
      group has no `default_send_as`. */
  function SendAsChat(f: RawFullChat, users: map<int, RawUser>, chats: map<int, RawChat>): (r: Result<Option<Chat>>)
    ensures f.ChatFull? ==> r == Err(AttributeError("default_send_as"))
    ensures f.ChannelFull? && f.defaultSendAs.None? ==> r == Ok(None)
    ensures f.ChannelFull? && f.defaultSendAs.Some? ==>
      var s := SendAs(f.defaultSendAs.value, users, chats);
      && (r.Err? <==> s.Err?)
      && (r.Err? ==> r.error == s.error)
      && (r.Ok? ==> r.value == Some(s.value) && WellFormed(s.value))
  {
    if f.ChatFull? then Err(AttributeError("default_send_as"))
    else if f.defaultSendAs.None? then Ok(None)
    else var c :- SendAs(f.defaultSendAs.value, users, chats); Ok(Some(c))
  }

  /** The restricted-chat part of `_parse_full`: the linked chat (if listed)
      and then the default send-as chat (strictly looked up), the first
      failure ending it; nothing else of the chat changes. */
  method ResolveRestricted(f: RawFullChat, users: map<int, RawUser>, chats: map<int, RawChat>, chat: Chat)
    returns (r: Result<Chat>)
    ensures f.ChatFull? ==> r == Err(AttributeError("linked_chat_id"))
    ensures r.Err? <==> LinkedChat(f, chats).Err? || SendAsChat(f, users, chats).Err?
    ensures LinkedChat(f, chats).Err? ==> r == Err(LinkedChat(f, chats).error)
    ensures LinkedChat(f, chats).Ok? && SendAsChat(f, users, chats).Err? ==>
      r == Err(SendAsChat(f, users, chats).error)
    ensures r.Ok? ==>
      var linked := LinkedChat(f, chats).value;
      var sendAs := SendAsChat(f, users, chats).value;
      r.value == chat.(linkedChat := if linked.Some? then linked else chat.linkedChat,
                       sendAsChat := if sendAs.Some? then sendAs else chat.sendAsChat)
  {
    if f.ChatFull? {
      // A basic group has no `linked_chat_id`.
      return Err(AttributeError("linked_chat_id"));
    }
    var result := chat;
    var linked := Get(chats, f.linkedChatId);
    if linked.Some? {
      var decoded := ChannelChat(linked.value);
      if decoded.Err? {
        return Err(decoded.error);
      }
      result := result.(linkedChat := Some(decoded.value));
    }
    if f.defaultSendAs.Some? {
      var sendAs: RawEntity;
      match f.defaultSendAs.value {
        case PeerUser(id) =>
          var u := Lookup(users, Some(id));
          if u.Err? {
            return Err(u.error);
          }
          sendAs := UserEntity(u.value);
        case PeerChat(_) =>
          // A basic-group peer has no `channel_id`.
          return Err(AttributeError("channel_id"));
        case PeerChannel(id) =>
          var c := Lookup(chats, Some(id));
          if c.Err? {
            return Err(c.error);
          }
          sendAs := ChatEntity(c.value);
      }
      var decoded := ParseChat(sendAs);
      if decoded.Err? {
        return Err(decoded.error);
      }
      result := result.(sendAsChat := Some(decoded.value));
    }
    return Ok(result);
  }

  /** The rights overrides of `_parse_full`: banned rights win over default
      banned rights for the permissions, and admin rights replace the
      privileges; nothing else changes. */
  method ApplyRights(f: RawFullChat, chat: Chat) returns (r: Chat)
    ensures r.permissions == Permissions(f, chat.permissions)
    ensures r.adminPrivileges == if f.adminRights.Some? then NestedOpt(PrivilegesParser, f.adminRights)
                                 else chat.adminPrivileges
    ensures r.(permissions := chat.permissions, adminPrivileges := chat.adminPrivileges) == chat
  {
    r := chat;
    if f.defaultBannedRights.Some? {
      r := r.(permissions := NestedOpt(PermissionsParser, f.defaultBannedRights));
    }
    if f.bannedRights.Some? {
      r := r.(permissions := NestedOpt(PermissionsParser, f.bannedRights));
    }
    if f.adminRights.Some? {
      r := r.(adminPrivileges := NestedOpt(PrivilegesParser, f.adminRights));
    }
  }

  /** The overrides `_parse_full` applies to every full chat after the
      kind-specific fields: rights, restrictions (and, only with
      restrictions, the linked and send-as chats), invite link, reactions. */
  method FullChatOverrides(f: RawFullChat, users: map<int, RawUser>, chats: map<int, RawChat>, chat: Chat)
    returns (r: Result<Chat>)
    ensures |f.restrictionReason| == 0 ==> r.Ok?
    ensures |f.restrictionReason| > 0 ==>
      && (r.Err? <==> LinkedChat(f, chats).Err? || SendAsChat(f, users, chats).Err?)
      && (LinkedChat(f, chats).Err? ==> r == Err(LinkedChat(f, chats).error))
      && (LinkedChat(f, chats).Ok? && SendAsChat(f, users, chats).Err? ==>
            r == Err(SendAsChat(f, users, chats).error))
    ensures r.Ok? && |f.restrictionReason| > 0 ==>
      var linked := LinkedChat(f, chats).value;
      var sendAs := SendAsChat(f, users, chats).value;
      && r.value.linkedChat == (if linked.Some? then linked else chat.linkedChat)
      && r.value.sendAsChat == (if sendAs.Some? then sendAs else chat.sendAsChat)
    ensures r.Ok? ==>
      r.value.(permissions := chat.permissions, adminPrivileges := chat.adminPrivileges,
               restrictions := chat.restrictions, restrictionReason := chat.restrictionReason,
               linkedChat := chat.linkedChat, sendAsChat := chat.sendAsChat,
               inviteLink := chat.inviteLink, availableReactions := chat.availableReactions) == chat
    ensures r.Ok? && WellFormed(chat) ==> WellFormed(r.value)
    ensures r.Ok? ==>
      && r.value.id == chat.id && r.value.kind == chat.kind && r.value.title == chat.title
      && r.value.canSetStickerSet == chat.canSetStickerSet && r.value.stickerSetName == chat.stickerSetName
      && r.value.description == chat.description && r.value.membersCount == chat.membersCount
      && r.value.hasVisibleHistory == chat.hasVisibleHistory && r.value.hasHiddenMembers == chat.hasHiddenMembers
    ensures r.Ok? ==>
      && r.value.permissions == Permissions(f, chat.permissions)
      && r.value.adminPrivileges == (if f.adminRights.Some? then NestedOpt(PrivilegesParser, f.adminRights)
                                     else chat.adminPrivileges)
      && (|f.restrictionReason| > 0 ==>
            r.value.restrictions == Some(MapNested(RestrictionParser, f.restrictionReason))
            && r.value.restrictionReason == r.value.restrictions)
      && (|f.restrictionReason| == 0 ==>
            && r.value.restrictions == chat.restrictions && r.value.restrictionReason == chat.restrictionReason
            && r.value.linkedChat == chat.linkedChat && r.value.sendAsChat == chat.sendAsChat)
      && (f.exportedInvite.Some? && f.exportedInvite.value.ChatInviteExported? ==>
            r.value.inviteLink == Some(f.exportedInvite.value.link))
      && (!(f.exportedInvite.Some? && f.exportedInvite.value.ChatInviteExported?) ==>
            r.value.inviteLink == chat.inviteLink)
      && r.value.availableReactions == NestedOpt(ReactionsParser, f.availableReactions)
  {
    var result := ApplyRights(f, chat);
    var restrictions := NestedList(RestrictionParser, f.restrictionReason);
    if restrictions.Some? {
      result := result.(restrictions := restrictions);
      result := result.(restrictionReason := restrictions);
      var resolved := ResolveRestricted(f, users, chats, result);
      if resolved.Err? {
        return resolved;
      }
      result := resolved.value;
    }
    if f.exportedInvite.Some? && f.exportedInvite.value.ChatInviteExported? {
      result := result.(inviteLink := Some(f.exportedInvite.value.link));
    }
    result := result.(availableReactions := NestedOpt(ReactionsParser, f.availableReactions));
    return Ok(result);
  }

  /** When the chat half of `_parse_full` fails: a chat missing from the
      table, an empty chat, and with restrictions the linked chat and then
      the send-as chat, the first failure being the answer. */
  ghost predicate FullChatFailure(f: RawFullChat, users: map<int, RawUser>, chats: map<int, RawChat>, r: Result<Chat>) {
    && (f.id !in chats ==> r == Err(KeyError(Some(f.id))))
    && (f.id in chats && chats[f.id].ChatEmpty? ==> r == Err(AttributeError("title")))
    && (f.id in chats && !chats[f.id].ChatEmpty? && |f.restrictionReason| == 0 ==> r.Ok?)
    && (f.id in chats && !chats[f.id].ChatEmpty? && |f.restrictionReason| > 0 ==>
          && (r.Err? <==> LinkedChat(f, chats).Err? || SendAsChat(f, users, chats).Err?)
          && (LinkedChat(f, chats).Err? ==> r == Err(LinkedChat(f, chats).error))
          && (LinkedChat(f, chats).Ok? && SendAsChat(f, users, chats).Err? ==>
                r == Err(SendAsChat(f, users, chats).error)))
  }

  /** The fields of a decoded full chat: the kind-specific decoder of the
      listed entry and the kind-specific fields. */
  ghost predicate FullChatFields(f: RawFullChat, chats: map<int, RawChat>, c: Chat)
    requires f.id in chats
  {
    && WellFormed(c)
    && (f.ChatFull? ==> c.kind == GroupType && c.id == Bare(0 - f.id))
    && (f.ChannelFull? ==> c.id == ChannelMarked(f.id))
    && (f.ChannelFull? ==> (c.kind == SupergroupType <==> Truthy(MegagroupAttr(chats[f.id]))))
    && (f.ChannelFull? ==> c.kind == SupergroupType || c.kind == ChannelType)
    && c.title == TitleAttr(chats[f.id])
    && c.description == StrOrNone(Some(f.about))
    && (f.ChatFull? ==> c.membersCount == Some(f.participantsCount.GetOr(0)))
    && (f.ChatFull? ==> c.hasVisibleHistory == Some(!f.hiddenPrehistory.GetOr(false)))
    && (f.ChatFull? ==> c.hasHiddenMembers == Some(!f.canViewParticipants.GetOr(true)))
    && (f.ChannelFull? ==> c.membersCount == f.participantsCount)
    && (f.ChannelFull? ==> c.canSetStickerSet == Some(f.canSetStickers))
    && (f.ChannelFull? ==> c.stickerSetName == f.stickerSetName)
    && (f.ChannelFull? && PeerColors.Parse(f.color).Some? ==> c.color == PeerColors.Parse(f.color))
    && (f.ChannelFull? && PeerColors.Parse(f.profileColor).Some? ==> c.profileColor == PeerColors.Parse(f.profileColor))
    && (f.ChannelFull? ==> c.stargiftsCount == f.stargiftsCount)
  }

  /** The overrides every decoded full chat carries: the rights, with
      restrictions the restrictions, linked chat and send-as chat (none of
      them without), the invite link only from an exported invite, and the
      reactions. */
  ghost predicate FullChatOverridden(f: RawFullChat, users: map<int, RawUser>, chats: map<int, RawChat>, c: Chat)
    requires f.id in chats
  {
    && (f.bannedRights.Some? || f.defaultBannedRights.Some? ==> c.permissions == Permissions(f, None))
    && (f.adminRights.Some? ==> c.adminPrivileges == Some(Nested(PrivilegesParser, f.adminRights.value)))
    && (|f.restrictionReason| > 0 ==>
          && c.restrictions == Some(MapNested(RestrictionParser, f.restrictionReason))
          && c.restrictionReason == c.restrictions
          && LinkedChat(f, chats).Ok? && c.linkedChat == LinkedChat(f, chats).value
          && SendAsChat(f, users, chats).Ok? && c.sendAsChat == SendAsChat(f, users, chats).value)
    && (|f.restrictionReason| == 0 ==>
          && c.restrictionReason == NestedList(RestrictionParser, RestrictionAttr(chats[f.id]))
          && c.linkedChat.None? && c.sendAsChat.None?)
    && (c.inviteLink.Some? <==> f.exportedInvite.Some? && f.exportedInvite.value.ChatInviteExported?)
    && (c.inviteLink.Some? ==> c.inviteLink == Some(f.exportedInvite.value.link))
    && c.availableReactions == NestedOpt(ReactionsParser, f.availableReactions)
  }

  /** What the chat half of `_parse_full` answers for a full chat and its
      lists, with the tables built from the lists. */
  ghost predicate FullChatDecoded(f: RawFullChat, userList: seq<RawUser>, chatList: seq<RawChat>, r: Result<Chat>) {
    var users := UserTable(userList);
    var chats := ChatTable(chatList);
    && FullChatFailure(f, users, chats, r)
    && (r.Ok? ==> f.id in chats && FullChatFields(f, chats, r.value) && FullChatOverridden(f, users, chats, r.value))
  }

  /** The chat half of `_parse_full`: strict lookup of the chat in the table
      built from the chat list, the kind-specific fields, then the
      overrides. */
  method ParseFullChat(f: RawFullChat, userList: seq<RawUser>, chatList: seq<RawChat>)
    returns (r: Result<Chat>)
    ensures FullChatDecoded(f, userList, chatList, r)
  {
    var users := UserTable(userList);
    var chats := ChatTable(chatList);
    if f.id !in chats {
      r := Err(KeyError(Some(f.id)));
      assert FullChatFailure(f, users, chats, r);
      return;
    }
    var entry := chats[f.id];
    var base := FullChatBase(f, entry);
    if base.Err? {
      r := base;
      assert FullChatFailure(f, users, chats, r);
      return;
    }
    r := FullChatOverrides(f, users, chats, base.value);
    assert FullChatFailure(f, users, chats, r);
    assert r.Ok? ==> FullChatFields(f, chats, r.value);
    assert r.Ok? ==> FullChatOverridden(f, users, chats, r.value);
  }

  /** `_parse_full` without the pinned-message request: build the user and
      chat tables (later entries win), then decode the full user or chat. */
  method ParseFull(answer: RawChatFull) returns (r: Result<Chat>)
    ensures answer.UserFull? ==> FullUserDecoded(answer.fullUser, answer.users, answer.chats, r)
    ensures answer.ChatFullAnswer? ==> FullChatDecoded(answer.fullChat, answer.users, answer.chats, r)
  {
    if answer.UserFull? {
      r := ParseFullUser(answer.fullUser, answer.users, answer.chats);
    } else {
      r := ParseFullChat(answer.fullChat, answer.users, answer.chats);
    }
  }
}
