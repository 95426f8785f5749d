/** Wire-level (TL) objects shared by several decoders, and the symbolic
    results of the helpers whose code is not part of this model. */
module Raw {
  import opened Wrappers
  import opened PeerColors

  /** A wire object that only a nested parser outside this model reads,
      identified by an opaque id. */
  datatype Blob = Blob(id: int)

  /** The nested parsers outside this model. */
  datatype Parser =
    | PhotoParser | VideoParser | AnimationParser | DocumentParser | StickerParser
    | EntityParser | ReactionParser | MessageParser | RestrictionParser | UsernameParser
    | PermissionsParser | PrivilegesParser | ReactionsParser | WallpaperParser | BirthdayParser
    | LocationParser | IntroParser | ForwardHeaderParser | ViewerParser | GiveawayParser
    | StickerSetParser | CompletionParser | WeatherParser | GiftParser | BidLevelParser
    | TopBidderParser | RoundParser | TransactionPeerParser | ChatPhotoParser | PrepaidGiveawayParser

  /** What a nested parser outside this model returns: which parser, applied
      to which wire object. Two such values are equal exactly when the same
      parser was given the same object. */
  datatype Nested = Nested(parser: Parser, raw: Blob)

  /** `Parser._parse(x)` for every x of a list, in order. */
  function MapNested(p: Parser, xs: seq<Blob>): (r: seq<Nested>)
    ensures |r| == |xs|
    ensures forall i :: 0 <= i < |xs| ==> r[i] == Nested(p, xs[i])
  {
    if xs == [] then [] else [Nested(p, xs[0])] + MapNested(p, xs[1..])
  }

  /** The wire objects a list of nested results was decoded from. */
  function RawsOf(xs: seq<Nested>): (r: seq<Blob>)
    ensures |r| == |xs|
    ensures forall i :: 0 <= i < |xs| ==> r[i] == xs[i].raw
  {
    if xs == [] then [] else [xs[0].raw] + RawsOf(xs[1..])
  }

  /** `types.List([Parser._parse(x) for x in xs]) or None`. */
  function NestedList(p: Parser, xs: seq<Blob>): (r: Option<seq<Nested>>)
    ensures r.None? <==> |xs| == 0
    ensures r.Some? ==> r.value == MapNested(p, xs)
  {
    NonEmpty(MapNested(p, xs))
  }

  /** `Parser._parse(x)` of an optional wire object: None for None,
      otherwise the decoded object. */
  function NestedOpt(p: Parser, o: Option<Blob>): (r: Option<Nested>)
    ensures r.Some? <==> o.Some?
    ensures r.Some? ==> r.value == Nested(p, o.value)
  {
    if o.Some? then Some(Nested(p, o.value)) else None
  }

  /** A reference to a user, a basic group or a channel. */
  datatype Peer = PeerUser(userId: int) | PeerChat(chatId: int) | PeerChannel(channelId: int)

  /** `utils.get_raw_peer_id`: the bare id inside the peer, None for no peer. */
  function RawPeerId(p: Option<Peer>): (r: Option<int>)
    ensures r.Some? <==> p.Some?
  {
    match p
    case None => None
    case Some(PeerUser(id)) => Some(id)
    case Some(PeerChat(id)) => Some(id)
    case Some(PeerChannel(id)) => Some(id)
  }

  /** `utils.timestamp_to_datetime(ts)`, recorded with the value it was given. */
  datatype Stamp = Stamp(raw: Option<int>)

  function StampOf(ts: int): Stamp {
    Stamp(Some(ts))
  }

  /** The id a decoded chat carries: a bare number, or `utils.get_channel_id(id)`
      (the marked id of a channel), recorded with the channel id it was given. */
  datatype ChatId = Bare(value: int) | ChannelMarked(channelId: int)

  datatype RawDocumentAttribute =
    | DocumentAttributeAnimated
    | DocumentAttributeVideo(blob: Blob)
    | DocumentAttributeFilename(fileName: string)
    | OtherDocumentAttribute(blob: Blob)

  datatype RawDocument = Document(blob: Blob, attributes: seq<RawDocumentAttribute>) | DocumentEmpty

  /** The message-media kinds a story or a paid post carries. */
  datatype RawMessageMedia =
    | MessageMediaPhoto(photo: Option<Blob>, ttlSeconds: Option<int>)
    | MessageMediaDocument(document: Option<RawDocument>, ttlSeconds: Option<int>)
    | OtherMedia

  /** Attribute `k` is the video attribute `v`, and no later one is a video attribute. */
  predicate LastVideoAt(attrs: seq<RawDocumentAttribute>, k: int, v: Blob) {
    && 0 <= k < |attrs| && attrs[k] == DocumentAttributeVideo(v)
    && forall j :: k < j < |attrs| ==> !attrs[j].DocumentAttributeVideo?
  }

  /** `{type(attr): attr for attr in attributes}[DocumentAttributeVideo]`:
      the last video attribute wins. */
  function LastVideo(attrs: seq<RawDocumentAttribute>): (r: Option<Blob>)
    ensures r.Some? <==> exists k :: 0 <= k < |attrs| && attrs[k].DocumentAttributeVideo?
    ensures r.Some? ==> exists k :: LastVideoAt(attrs, k, r.value)
  {
    if attrs == [] then None
    else if attrs[|attrs| - 1].DocumentAttributeVideo? then
      assert LastVideoAt(attrs, |attrs| - 1, attrs[|attrs| - 1].blob);
      Some(attrs[|attrs| - 1].blob)
    else
      var init := attrs[..|attrs| - 1];
      var r := LastVideo(init);
      assert forall k :: 0 <= k < |attrs| - 1 ==> init[k] == attrs[k];
      assert r.Some? ==> forall k :: LastVideoAt(init, k, r.value) ==> LastVideoAt(attrs, k, r.value);
      r
  }

  /** Attribute `k` is the file-name attribute `n`, and no later one is a file-name attribute. */
  predicate LastFileNameAt(attrs: seq<RawDocumentAttribute>, k: int, n: string) {
    && 0 <= k < |attrs| && attrs[k] == DocumentAttributeFilename(n)
    && forall j :: k < j < |attrs| ==> !attrs[j].DocumentAttributeFilename?
  }

  /** `{type(attr): attr for attr in attributes}.get(DocumentAttributeFilename)`,
      read for its `file_name`: the last file-name attribute wins. */
  function LastFileName(attrs: seq<RawDocumentAttribute>): (r: Option<string>)
    ensures r.Some? <==> exists k :: 0 <= k < |attrs| && attrs[k].DocumentAttributeFilename?
    ensures r.Some? ==> exists k :: LastFileNameAt(attrs, k, r.value)
  {
    if attrs == [] then None
    else if attrs[|attrs| - 1].DocumentAttributeFilename? then
      assert LastFileNameAt(attrs, |attrs| - 1, attrs[|attrs| - 1].fileName);
      Some(attrs[|attrs| - 1].fileName)
    else
      var init := attrs[..|attrs| - 1];
      var r := LastFileName(init);
      assert forall k :: 0 <= k < |attrs| - 1 ==> init[k] == attrs[k];
      assert r.Some? ==> forall k :: LastFileNameAt(init, k, r.value) ==> LastFileNameAt(attrs, k, r.value);
      r
  }

  /** A reference to a group call on the wire. */
  datatype InputCall = InputCall(id: int, accessHash: int)

  datatype RawUserStatus =
    | UserStatusEmpty
    | UserStatusOnline(expires: int)
    | UserStatusOffline(wasOnline: int)
    | UserStatusRecently
    | UserStatusLastWeek
    | UserStatusLastMonth

  /** The raw user fields the modelled decoders read. */
  datatype RawUser =
    | UserEmpty(id: int)
    | User(
        id: int,
        isSelf: bool, contact: bool, mutualContact: bool, deleted: bool, bot: bool,
        verified: bool, restricted: bool, scam: bool, fake: bool, support: bool, premium: bool,
        firstName: Option<string>, lastName: Option<string>, username: Option<string>,
        langCode: Option<string>, phone: Option<string>,
        status: Option<RawUserStatus>,
        restrictionReason: seq<Blob>, usernames: seq<Blob>,
        accessHash: Option<int>, color: Option<RawPeerColor>, profileColor: Option<RawPeerColor>)

  /** The raw chat kinds that `chats` tables hold. Only `Chat` and `Channel`
      carry a group-call reference; only the channel kinds carry the
      broadcast/megagroup flags. */
  datatype RawChat =
    | ChatEmpty(id: int)
    | Chat(
        id: int, title: string, creator: bool, participantsCount: Option<int>, noforwards: bool,
        call: Option<InputCall>, defaultBannedRights: Option<Blob>, adminRights: Option<Blob>)
    | ChatForbidden(id: int, title: string)
    | Channel(
        id: int, title: string, megagroup: bool, broadcast: bool,
        verified: bool, restricted: bool, creator: bool, scam: bool, fake: bool, forum: bool,
        noforwards: bool, username: Option<string>, participantsCount: Option<int>,
        restrictionReason: seq<Blob>, usernames: seq<Blob>, accessHash: Option<int>,
        call: Option<InputCall>, color: Option<RawPeerColor>, profileColor: Option<RawPeerColor>,
        defaultBannedRights: Option<Blob>, adminRights: Option<Blob>)
    | ChannelForbidden(id: int, title: string, megagroup: bool, broadcast: bool, accessHash: Option<int>)

  // `getattr(chat, name, default)` on the raw chat kinds: None (or the
  // default) where the kind has no such attribute.

  function TitleAttr(c: RawChat): Option<string> {
    if c.ChatEmpty? then None else Some(c.title)
  }

  function CreatorAttr(c: RawChat): Option<bool> {
    if c.Chat? || c.Channel? then Some(c.creator) else None
  }

  function ParticipantsAttr(c: RawChat): Option<int> {
    if c.Chat? || c.Channel? then c.participantsCount else None
  }

  function NoforwardsAttr(c: RawChat): Option<bool> {
    if c.Chat? || c.Channel? then Some(c.noforwards) else None
  }

  function MegagroupAttr(c: RawChat): Option<bool> {
    if c.Channel? || c.ChannelForbidden? then Some(c.megagroup) else None
  }

  function BroadcastAttr(c: RawChat): Option<bool> {
    if c.Channel? || c.ChannelForbidden? then Some(c.broadcast) else None
  }

  function AccessHashAttr(c: RawChat): Option<int> {
    if c.Channel? || c.ChannelForbidden? then c.accessHash else None
  }

  function CallAttr(c: RawChat): Option<InputCall> {
    if c.Chat? || c.Channel? then c.call else None
  }

  function DefaultBannedAttr(c: RawChat): Option<Blob> {
    if c.Chat? || c.Channel? then c.defaultBannedRights else None
  }

  function AdminRightsAttr(c: RawChat): Option<Blob> {
    if c.Chat? || c.Channel? then c.adminRights else None
  }

  /** Attributes only a full channel carries; the `[]` default elsewhere. */
  function RestrictionAttr(c: RawChat): seq<Blob> {
    if c.Channel? then c.restrictionReason else []
  }

  function UsernamesAttr(c: RawChat): seq<Blob> {
    if c.Channel? then c.usernames else []
  }

  /** A value that may be a raw user or a raw chat (as `Chat._parse_chat` receives). */
  datatype RawEntity = UserEntity(user: RawUser) | ChatEntity(chat: RawChat)

  /** `{u.id: u for u in users}`: later entries with the same id win. */
  function UserTable(users: seq<RawUser>): (m: map<int, RawUser>)
    ensures m.Keys == set u | u in users :: u.id
    ensures forall i :: 0 <= i < |users| ==> users[i].id in m
    ensures forall k :: k in m ==> m[k] in users && m[k].id == k
    ensures |users| > 0 ==> m[users[|users| - 1].id] == users[|users| - 1]
  {
    if users == [] then map[]
    else
      var init := UserTable(users[..|users| - 1]);
      assert users == users[..|users| - 1] + [users[|users| - 1]];
      init[users[|users| - 1].id := users[|users| - 1]]
  }

  /** `{c.id: c for c in chats}`: later entries with the same id win. */
  function ChatTable(chats: seq<RawChat>): (m: map<int, RawChat>)
    ensures m.Keys == set c | c in chats :: c.id
    ensures forall i :: 0 <= i < |chats| ==> chats[i].id in m
    ensures forall k :: k in m ==> m[k] in chats && m[k].id == k
    ensures |chats| > 0 ==> m[chats[|chats| - 1].id] == chats[|chats| - 1]
  {
    if chats == [] then map[]
    else
      var init := ChatTable(chats[..|chats| - 1]);
      assert chats == chats[..|chats| - 1] + [chats[|chats| - 1]];
      init[chats[|chats| - 1].id := chats[|chats| - 1]]
  }

  /** In `{u.id: u for u in users}` every id maps to its last entry: an
      entry no later entry shares an id with is the one stored. */
  lemma {:induction false} UserTableLastWins(users: seq<RawUser>, j: int)
    requires 0 <= j < |users|
    requires forall k :: j < k < |users| ==> users[k].id != users[j].id
    ensures UserTable(users)[users[j].id] == users[j]
  {
    if j < |users| - 1 {
      var prefix := users[..|users| - 1];
      assert prefix[j] == users[j];
      UserTableLastWins(prefix, j);
    }
  }

  /** In `{c.id: c for c in chats}` every id maps to its last entry. */
  lemma {:induction false} ChatTableLastWins(chats: seq<RawChat>, j: int)
    requires 0 <= j < |chats|
    requires forall k :: j < k < |chats| ==> chats[k].id != chats[j].id
    ensures ChatTable(chats)[chats[j].id] == chats[j]
  {
    if j < |chats| - 1 {
      var prefix := chats[..|chats| - 1];
      assert prefix[j] == chats[j];
      ChatTableLastWins(prefix, j);
    }
  }
}
