/** `StoryItem._parse` and the `chat` property: who posted a story, which
    single media it carries, and the recognised media areas drawn on it. */
module StoryItems {
  import opened Wrappers
  import opened Raw
  import Users
  import Chats
  import Views
  import MediaAreas

  datatype RawStoryItem = RawStoryItem(
    id: int,
    date: int,
    expireDate: int,
    fromId: Option<Peer>,
    caption: Option<string>,
    entities: seq<Blob>,
    media: Option<RawMessageMedia>,
    views: Option<Views.RawStoryViews>,
    fwdFrom: Option<Blob>,
    mediaAreas: seq<MediaAreas.RawMediaArea>,
    pinned: bool, public: bool, closeFriends: bool, contacts: bool, selectedContacts: bool,
    noforwards: bool, edited: bool, out: bool)

  /** The `peer` argument: a wire peer (as `PeerStories._parse` passes), or
      the input peer that `get_stories` resolved, which is none of the wire
      peer kinds the decoder tests for. */
  datatype PeerHint = WirePeer(peer: Peer) | ResolvedInputPeer

  // What the media parsers outside this model were called with.
  datatype PhotoCall = PhotoCall(photo: Option<Blob>, ttlSeconds: Option<int>)
  datatype VideoCall = VideoCall(document: Blob, attribute: Blob, ttlSeconds: Option<int>)
  datatype AnimationCall = AnimationCall(document: Blob, attribute: Option<Blob>)

  datatype StoryMedia = StoryMedia(photo: Option<PhotoCall>, video: Option<VideoCall>, animation: Option<AnimationCall>)

  datatype StoryItem = StoryItem(
    id: int,
    fromUser: Option<Users.User>,
    senderChat: Option<Chats.Chat>,
    date: Stamp,
    expireDate: Stamp,
    caption: Option<string>,
    captionEntities: Option<seq<Nested>>,
    media: StoryMedia,
    views: Option<Views.StoryViews>,
    forwardFrom: Option<Nested>,
    mediaAreas: Option<seq<MediaAreas.MediaArea>>,
    pinned: Option<bool>, isPublic: Option<bool>, isCloseFriends: Option<bool>, isContacts: Option<bool>,
    isSelectedContacts: Option<bool>, noForwards: Option<bool>, edited: Option<bool>, outgoing: Option<bool>)

  /** Who posted a story: at most one of a user and a chat. */
  datatype Poster = Poster(user: Option<Users.User>, chat: Option<Chats.Chat>)

  // ------------------------------------------------------------ attribution

  /** The key `getattr(peer, "channel_id", None) or getattr(peer, "chat_id", None)`:
      a channel id of 0 is falsy and a channel peer has no `chat_id`. */
  function ChatKey(p: Peer): (k: Option<int>)
    requires !p.PeerUser?
    ensures p.PeerChat? ==> k == Some(p.chatId)
    ensures p.PeerChannel? ==> (k.Some? <==> p.channelId != 0)
    ensures k.Some? ==> k == RawPeerId(Some(p))
  {
    if p.PeerChat? then Some(p.chatId) else if p.channelId != 0 then Some(p.channelId) else None
  }

  /** The poster derived from the `peer` argument: a user peer is looked up
      leniently, a chat or channel peer is decoded as a channel chat, which
      raises when the entry is missing. */
  function HintPoster(hint: Option<PeerHint>, users: map<int, RawUser>, chats: map<int, RawChat>): (r: Result<Poster>)
    ensures r.Err? ==> hint.Some? && hint.value.WirePeer? && !hint.value.peer.PeerUser?
    ensures r.Ok? ==> r.value.user.None? || r.value.chat.None?
    ensures hint.None? || hint.value.ResolvedInputPeer? ==> r == Ok(Poster(None, None))
    ensures hint.Some? && hint.value.WirePeer? && hint.value.peer.PeerUser? ==>
      r == Ok(Poster(Users.Parse(Get(users, Some(hint.value.peer.userId))), None))
    ensures hint.Some? && hint.value.WirePeer? && !hint.value.peer.PeerUser? ==>
      var c := Chats.ChannelChatOf(Get(chats, ChatKey(hint.value.peer)));
      (r.Err? <==> c.Err?) && (c.Ok? ==> r == Ok(Poster(None, Some(c.value))))
  {
    match hint
    case None => Ok(Poster(None, None))
    case Some(ResolvedInputPeer) => Ok(Poster(None, None))
    case Some(WirePeer(PeerUser(id))) => Ok(Poster(Users.Parse(Get(users, Some(id))), None))
    case Some(WirePeer(p)) =>
      var c :- Chats.ChannelChatOf(Get(chats, ChatKey(p)));
      Ok(Poster(None, Some(c)))
  }

  /** `story.from_id` overrides the peer-derived poster when it is a user or
      a channel; a basic-group `from_id` leaves it as it was. */
  function Attribution(fromId: Option<Peer>, hint: Option<PeerHint>,
                       users: map<int, RawUser>, chats: map<int, RawChat>): (r: Result<Poster>)
    ensures r.Ok? ==> r.value.user.None? || r.value.chat.None?
    ensures HintPoster(hint, users, chats).Err? ==> r == HintPoster(hint, users, chats)
    ensures HintPoster(hint, users, chats).Ok? && (fromId.None? || fromId.value.PeerChat?) ==>
      r == HintPoster(hint, users, chats)
    ensures HintPoster(hint, users, chats).Ok? && fromId.Some? && fromId.value.PeerUser? ==>
      r == Ok(Poster(Users.Parse(Get(users, Some(fromId.value.userId))), None))
    ensures HintPoster(hint, users, chats).Ok? && fromId.Some? && fromId.value.PeerChannel? ==>
      var c := Chats.ChannelChatOf(Get(chats, Some(fromId.value.channelId)));
      (r.Err? <==> c.Err?) && (c.Ok? ==> r == Ok(Poster(None, Some(c.value))))
  {
    var base :- HintPoster(hint, users, chats);
    match fromId
    case Some(PeerUser(id)) => Ok(Poster(Users.Parse(Get(users, Some(id))), None))
    case Some(PeerChannel(id)) =>
      var c :- Chats.ChannelChatOf(Get(chats, Some(id)));
      Ok(Poster(None, Some(c)))
    case _ => Ok(base)
  }

  // ------------------------------------------------------------------ media

  /** The media dispatch: a photo; or, for a real document, an animation when
      it has the animated attribute, else a video when it has a video
      attribute; anything else carries no media. */
  function ParseMedia(m: Option<RawMessageMedia>): (r: StoryMedia)
    ensures (r.photo.Some? ==> r.video.None? && r.animation.None?) && (r.video.None? || r.animation.None?)
    ensures r.photo.Some? <==> m.Some? && m.value.MessageMediaPhoto?
    ensures r.photo.Some? ==> r.photo.value == PhotoCall(m.value.photo, m.value.ttlSeconds)
    ensures r.animation.Some? <==>
      m.Some? && m.value.MessageMediaDocument? && m.value.document.Some? && m.value.document.value.Document?
      && DocumentAttributeAnimated in m.value.document.value.attributes
    ensures r.video.Some? <==>
      m.Some? && m.value.MessageMediaDocument? && m.value.document.Some? && m.value.document.value.Document?
      && DocumentAttributeAnimated !in m.value.document.value.attributes
      && LastVideo(m.value.document.value.attributes).Some?
    ensures r.animation.Some? ==> var d := m.value.document.value;
      r.animation.value == AnimationCall(d.blob, LastVideo(d.attributes))
    ensures r.video.Some? ==> var d := m.value.document.value;
      r.video.value == VideoCall(d.blob, LastVideo(d.attributes).value, m.value.ttlSeconds)
  {
    match m
    case Some(MessageMediaPhoto(photo, ttl)) => StoryMedia(Some(PhotoCall(photo, ttl)), None, None)
    case Some(MessageMediaDocument(Some(Document(blob, attrs)), ttl)) =>
      var video := LastVideo(attrs);
      if DocumentAttributeAnimated in attrs then StoryMedia(None, None, Some(AnimationCall(blob, video)))
      else if video.Some? then StoryMedia(None, Some(VideoCall(blob, video.value, ttl)), None)
      else StoryMedia(None, None, None)
    case _ => StoryMedia(None, None, None)
  }

  // ------------------------------------------------------------ media areas

  /** The areas that decode, in order: those `MediaArea._parse` maps to None
      are dropped. */
  function KeptAreas(areas: seq<MediaAreas.RawMediaArea>): seq<MediaAreas.MediaArea> {
    FilterMap(MediaAreas.Parse, areas)
  }

  /** The `for area in story.media_areas` loop: each area decoded and kept
      when it decodes; the list is None when nothing was kept. */
  method ParseMediaAreas(areas: seq<MediaAreas.RawMediaArea>) returns (r: Option<seq<MediaAreas.MediaArea>>)
    ensures r == NonEmpty(KeptAreas(areas))
  {
    if |areas| == 0 {
      return None;
    }
    var parsed: seq<MediaAreas.MediaArea> := [];
    var i := 0;
    while i < |areas|
      invariant 0 <= i <= |areas|
      invariant parsed == KeptAreas(areas[..i])
      decreases |areas| - i
    {
      var area := MediaAreas.Parse(areas[i]);
      FilterMapStep(MediaAreas.Parse, areas, i);
      if area.Some? {
        parsed := parsed + [area.value];
      }
      i := i + 1;
    }
    assert areas[..i] == areas;
    r := NonEmpty(parsed);
  }

  // ------------------------------------------------------------------ story

  /** The final construction, from the poster and the kept areas. */
  function Build(s: RawStoryItem, poster: Poster, areas: Option<seq<MediaAreas.MediaArea>>): (t: StoryItem)
    ensures t.fromUser == poster.user && t.senderChat == poster.chat && t.mediaAreas == areas
    ensures t.media == ParseMedia(s.media)
    ensures t.caption == StrOrNone(s.caption)
    ensures t.captionEntities == NestedList(EntityParser, s.entities)
    ensures t.views == Views.ParseOpt(s.views)
    ensures t.forwardFrom == NestedOpt(ForwardHeaderParser, s.fwdFrom)
    ensures t.id == s.id && t.date == StampOf(s.date) && t.expireDate == StampOf(s.expireDate)
    ensures && Normal(t.pinned) && Normal(t.isPublic) && Normal(t.isCloseFriends) && Normal(t.isContacts)
            && Normal(t.isSelectedContacts) && Normal(t.noForwards) && Normal(t.edited) && Normal(t.outgoing)
    ensures && Truthy(t.pinned) == s.pinned && Truthy(t.isPublic) == s.public
            && Truthy(t.isCloseFriends) == s.closeFriends && Truthy(t.isContacts) == s.contacts
            && Truthy(t.isSelectedContacts) == s.selectedContacts && Truthy(t.noForwards) == s.noforwards
            && Truthy(t.edited) == s.edited && Truthy(t.outgoing) == s.out
  {
    StoryItem(
      s.id, poster.user, poster.chat, StampOf(s.date), StampOf(s.expireDate),
      StrOrNone(s.caption), NestedList(EntityParser, s.entities),
      ParseMedia(s.media), Views.ParseOpt(s.views), NestedOpt(ForwardHeaderParser, s.fwdFrom), areas,
      OrNone(s.pinned), OrNone(s.public), OrNone(s.closeFriends), OrNone(s.contacts),
      OrNone(s.selectedContacts), OrNone(s.noforwards), OrNone(s.edited), OrNone(s.out))
  }

  /** `StoryItem._parse`: it raises exactly where the attribution raises,
      and the story carries the poster it found, never both a user and a
      chat. The other fields are stated by ParseFields. */
  function Parse(s: RawStoryItem, users: map<int, RawUser>, chats: map<int, RawChat>, hint: Option<PeerHint>)
    : (r: Result<StoryItem>)
    ensures r.Err? <==> Attribution(s.fromId, hint, users, chats).Err?
    ensures r.Ok? ==> var p := Attribution(s.fromId, hint, users, chats).value;
      r.value.fromUser == p.user && r.value.senderChat == p.chat
    ensures r.Ok? ==> r.value.fromUser.None? || r.value.senderChat.None?
  {
    var poster :- Attribution(s.fromId, hint, users, chats);
    Ok(Build(s, poster, NonEmpty(KeptAreas(s.mediaAreas))))
  }

  /** The fields of a decoded story: the media, the kept media areas, the
      caption and its entities, the views, the forward header, the id and
      the dates, and the eight flags normalised with `or None`. */
  lemma ParseFields(s: RawStoryItem, users: map<int, RawUser>, chats: map<int, RawChat>, hint: Option<PeerHint>)
    ensures var r := Parse(s, users, chats, hint);
      r.Ok? ==>
        && r.value.media == ParseMedia(s.media)
        && r.value.mediaAreas == NonEmpty(KeptAreas(s.mediaAreas))
        && r.value.caption == StrOrNone(s.caption)
        && r.value.captionEntities == NestedList(EntityParser, s.entities)
        && r.value.views == Views.ParseOpt(s.views)
        && r.value.forwardFrom == NestedOpt(ForwardHeaderParser, s.fwdFrom)
        && r.value.id == s.id && r.value.date == StampOf(s.date) && r.value.expireDate == StampOf(s.expireDate)
    ensures var r := Parse(s, users, chats, hint);
      r.Ok? ==> var t := r.value;
        && Normal(t.pinned) && Normal(t.isPublic) && Normal(t.isCloseFriends) && Normal(t.isContacts)
        && Normal(t.isSelectedContacts) && Normal(t.noForwards) && Normal(t.edited) && Normal(t.outgoing)
        && Truthy(t.pinned) == s.pinned && Truthy(t.isPublic) == s.public
        && Truthy(t.isCloseFriends) == s.closeFriends && Truthy(t.isContacts) == s.contacts
        && Truthy(t.isSelectedContacts) == s.selectedContacts && Truthy(t.noForwards) == s.noforwards
        && Truthy(t.edited) == s.edited && Truthy(t.outgoing) == s.out
  {
  }

  /** The poster locals as written: set from the peer argument, then
      overridden by `from_id`. */
  method Attribute(fromId: Option<Peer>, hint: Option<PeerHint>, users: map<int, RawUser>, chats: map<int, RawChat>)
    returns (r: Result<Poster>)
    ensures r == Attribution(fromId, hint, users, chats)
  {
    var fromUser: Option<Users.User> := None;
    var senderChat: Option<Chats.Chat> := None;
    if hint.Some? && hint.value.WirePeer? {
      var p := hint.value.peer;
      if p.PeerUser? {
        fromUser := Users.Parse(Get(users, Some(p.userId)));
      } else {
        var c := Chats.ChannelChatOf(Get(chats, ChatKey(p)));
        if c.Err? {
          return Err(c.error);
        }
        senderChat := Some(c.value);
      }
    }
    if fromId.Some? {
      match fromId.value
      case PeerUser(id) =>
        fromUser := Users.Parse(Get(users, Some(id)));
        senderChat := None;
      case PeerChannel(id) =>
        var c := Chats.ChannelChatOf(Get(chats, Some(id)));
        if c.Err? {
          return Err(c.error);
        }
        senderChat := Some(c.value);
        fromUser := None;
      case PeerChat(_) =>
    }
    r := Ok(Poster(fromUser, senderChat));
  }

  /** The decoder step by step, as written: the poster locals, then the
      media-area loop and the construction. */
  method ParseStory(s: RawStoryItem, users: map<int, RawUser>, chats: map<int, RawChat>, hint: Option<PeerHint>)
    returns (r: Result<StoryItem>)
    ensures r == Parse(s, users, chats, hint)
  {
    var poster := Attribute(s.fromId, hint, users, chats);
    if poster.Err? {
      return Err(poster.error);
    }
    var areas := ParseMediaAreas(s.mediaAreas);
    r := Ok(Build(s, poster.value, areas));
  }

  /** What the `chat` property returns. */
  datatype Posted = PostedByChat(chat: Chats.Chat) | PostedByUser(user: Users.User)

  /** `chat`: `sender_chat or from_user`. */
  function ChatOf(t: StoryItem): (r: Option<Posted>)
    ensures r.None? <==> t.senderChat.None? && t.fromUser.None?
    ensures t.senderChat.Some? ==> r == Some(PostedByChat(t.senderChat.value))
    ensures t.senderChat.None? && t.fromUser.Some? ==> r == Some(PostedByUser(t.fromUser.value))
  {
    if t.senderChat.Some? then Some(PostedByChat(t.senderChat.value))
    else if t.fromUser.Some? then Some(PostedByUser(t.fromUser.value))
    else None
  }

  /** A story decoded with the input peer `get_stories` passes is attributed
      by its `from_id` alone. */
  lemma ResolvedPeerIgnored(s: RawStoryItem, users: map<int, RawUser>, chats: map<int, RawChat>)
    ensures Parse(s, users, chats, Some(ResolvedInputPeer)) == Parse(s, users, chats, None)
    ensures s.fromId.None? || s.fromId.value.PeerChat? ==>
      var r := Parse(s, users, chats, Some(ResolvedInputPeer));
      r.Ok? && r.value.fromUser.None? && r.value.senderChat.None? && ChatOf(r.value).None?
  {
  }
  // ------------------------------------------------- lists of story entries

  /** The entries of a story list on the wire: only full items are decoded. */
  datatype RawStory = StoryItemEntry(item: RawStoryItem) | StoryItemDeleted(id: int) | StoryItemSkipped(id: int)

  /** The item of a full entry; the other entries have none. */
  function EntryItem(e: RawStory): (r: Option<RawStoryItem>)
    ensures r.Some? <==> e.StoryItemEntry?
  {
    if e.StoryItemEntry? then Some(e.item) else None
  }

  /** The full items of a story list, in order. */
  function ItemsOf(ss: seq<RawStory>): seq<RawStoryItem> {
    FilterMap(EntryItem, ss)
  }

  /** `StoryItem._parse` with the tables and the peer argument of one call fixed. */
  function Decoder(users: map<int, RawUser>, chats: map<int, RawChat>, hint: Option<PeerHint>)
    : RawStoryItem -> Result<StoryItem>
  {
    x => Parse(x, users, chats, hint)
  }

  /** The loop shared by `PeerStories._parse` and `get_stories`: every
      `StoryItem` entry decoded in order, the others skipped; the first
      decoding that raises ends it. */
  function ParseAll(ss: seq<RawStory>, users: map<int, RawUser>, chats: map<int, RawChat>,
                    hint: Option<PeerHint>): Result<seq<StoryItem>>
  {
    Traverse(Decoder(users, chats, hint), ItemsOf(ss))
  }

  /** The loop `PeerStories._parse` and `get_stories` both run: each
      `StoryItem` entry decoded and appended, the others skipped, and the
      first decoding that raises propagated. */
  method ParseStories(ss: seq<RawStory>, users: map<int, RawUser>, chats: map<int, RawChat>, hint: Option<PeerHint>)
    returns (r: Result<seq<StoryItem>>)
    ensures r == ParseAll(ss, users, chats, hint)
  {
    var stories: seq<StoryItem> := [];
    var i := 0;
    while i < |ss|
      invariant 0 <= i <= |ss|
      invariant ParseAll(ss[..i], users, chats, hint) == Ok(stories)
      decreases |ss| - i
    {
      FilterTraverseStep(EntryItem, Decoder(users, chats, hint), ss, i);
      if ss[i].StoryItemEntry? {
        var parsed := ParseStory(ss[i].item, users, chats, hint);
        if parsed.Err? {
          return Err(parsed.error);
        }
        stories := stories + [parsed.value];
      }
      i := i + 1;
    }
    assert ss[..i] == ss;
    return Ok(stories);
  }
}
