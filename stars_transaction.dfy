/** `StarsTransactionPeer._parse` and `StarsTransaction._parse`: who a Stars
    transaction was with, and the transaction record itself. */
module StarsTransactions {
  import opened Wrappers
  import opened Raw
  import Users
  import Chats
  import StarsAmounts

  /** The counterpart kinds of a transaction on the wire. */
  datatype RawTransactionPeer =
    | TransactionPeer(peer: Peer)
    | TransactionPeerAppStore
    | TransactionPeerPlayMarket
    | TransactionPeerFragment
    | TransactionPeerPremiumBot
    | TransactionPeerAds
    | TransactionPeerApi
    | TransactionPeerOther

  /** A chat or channel peer whose entry is listed and has a title. */
  predicate Decodable(p: Peer, chats: map<int, RawChat>)
    requires !p.PeerUser?
  {
    var id := if p.PeerChat? then p.chatId else p.channelId;
    id in chats && !chats[id].ChatEmpty?
  }

  datatype TransactionPeer = TransactionPeerOf(kind: string, user: Option<Users.User>, chat: Option<Chats.Chat>)

  /** `StarsTransactionPeer._parse`: a wrapped user is looked up leniently
      (a missing user is a user peer with no user); a wrapped channel or
      basic group is a "channel" peer decoded from `chats.get(...)`, so a
      missing chat raises; the six service kinds have their own names. */
  function ParsePeer(p: RawTransactionPeer, users: map<int, RawUser>, chats: map<int, RawChat>): (r: Result<TransactionPeer>)
    ensures r.Err? ==> p.TransactionPeer? && !p.peer.PeerUser?
    ensures r.Err? <==> p.TransactionPeer? && !p.peer.PeerUser? && !Decodable(p.peer, chats)
    ensures r.Ok? ==> (r.value.kind == "user" <==> p.TransactionPeer? && p.peer.PeerUser?)
    ensures r.Ok? ==> (r.value.kind == "channel" <==> p.TransactionPeer? && !p.peer.PeerUser?)
    ensures r.Ok? ==> (r.value.user.Some? ==> r.value.kind == "user")
    ensures r.Ok? ==> (r.value.chat.Some? <==> r.value.kind == "channel")
    ensures p.TransactionPeer? && p.peer.PeerUser? ==>
      r == Ok(TransactionPeerOf("user", Users.Parse(Get(users, Some(p.peer.userId))), None))
    ensures p.TransactionPeer? && p.peer.PeerChannel? ==>
      var c := Chats.ChannelChatOf(Get(chats, Some(p.peer.channelId)));
      r == if c.Err? then Err(c.error) else Ok(TransactionPeerOf("channel", None, Some(c.value)))
    ensures p.TransactionPeer? && p.peer.PeerChat? ==>
      var c := Chats.ChatChatOf(Get(chats, Some(p.peer.chatId)));
      r == if c.Err? then Err(c.error) else Ok(TransactionPeerOf("channel", None, Some(c.value)))
    ensures p.TransactionPeerAppStore? ==> r == Ok(TransactionPeerOf("app_store", None, None))
    ensures p.TransactionPeerPlayMarket? ==> r == Ok(TransactionPeerOf("play_market", None, None))
    ensures p.TransactionPeerFragment? ==> r == Ok(TransactionPeerOf("fragment", None, None))
    ensures p.TransactionPeerPremiumBot? ==> r == Ok(TransactionPeerOf("premium_bot", None, None))
    ensures p.TransactionPeerAds? ==> r == Ok(TransactionPeerOf("ads", None, None))
    ensures p.TransactionPeerApi? ==> r == Ok(TransactionPeerOf("api", None, None))
    ensures p.TransactionPeerOther? ==> r == Ok(TransactionPeerOf("unsupported", None, None))
  {
    match p
    case TransactionPeer(PeerUser(id)) =>
      Ok(TransactionPeerOf("user", Users.Parse(Get(users, Some(id))), None))
    case TransactionPeer(PeerChannel(id)) =>
      var c :- Chats.ChannelChatOf(Get(chats, Some(id)));
      Ok(TransactionPeerOf("channel", None, Some(c)))
    case TransactionPeer(PeerChat(id)) =>
      var c :- Chats.ChatChatOf(Get(chats, Some(id)));
      Ok(TransactionPeerOf("channel", None, Some(c)))
    case TransactionPeerAppStore => Ok(TransactionPeerOf("app_store", None, None))
    case TransactionPeerPlayMarket => Ok(TransactionPeerOf("play_market", None, None))
    case TransactionPeerFragment => Ok(TransactionPeerOf("fragment", None, None))
    case TransactionPeerPremiumBot => Ok(TransactionPeerOf("premium_bot", None, None))
    case TransactionPeerAds => Ok(TransactionPeerOf("ads", None, None))
    case TransactionPeerApi => Ok(TransactionPeerOf("api", None, None))
    case TransactionPeerOther => Ok(TransactionPeerOf("unsupported", None, None))
  }

  datatype RawStarsTransaction = RawStarsTransaction(
    id: string,
    amount: Option<StarsAmounts.RawStarsAmount>,
    date: int,
    peer: RawTransactionPeer,
    title: Option<string>,
    description: Option<string>,
    refund: bool, pending: bool, failed: bool, gift: bool, reaction: bool, subscription: bool,
    transactionDate: Option<int>,
    transactionUrl: Option<string>)

  datatype StarsTransaction = StarsTransaction(
    id: string,
    amount: Option<StarsAmounts.StarsAmount>,
    date: Stamp,
    peer: TransactionPeer,
    title: Option<string>,
    description: Option<string>,
    isRefund: Option<bool>, isPending: Option<bool>, isFailed: Option<bool>,
    isGift: Option<bool>, isReaction: Option<bool>, isSubscription: Option<bool>,
    transactionDate: Stamp,
    transactionUrl: Option<string>)

  /** `StarsTransaction._parse`: fails only where the peer fails; the peer
      is decoded with the same tables; the six flags are normalised so that
      each still reads back as its wire flag. */
  function Parse(t: RawStarsTransaction, users: map<int, RawUser>, chats: map<int, RawChat>): (r: Result<StarsTransaction>)
    ensures r.Err? <==> ParsePeer(t.peer, users, chats).Err?
    ensures r.Ok? ==> Ok(r.value.peer) == ParsePeer(t.peer, users, chats)
    ensures r.Ok? ==>
      && Normal(r.value.isRefund) && Truthy(r.value.isRefund) == t.refund
      && Normal(r.value.isPending) && Truthy(r.value.isPending) == t.pending
      && Normal(r.value.isFailed) && Truthy(r.value.isFailed) == t.failed
      && Normal(r.value.isGift) && Truthy(r.value.isGift) == t.gift
      && Normal(r.value.isReaction) && Truthy(r.value.isReaction) == t.reaction
      && Normal(r.value.isSubscription) && Truthy(r.value.isSubscription) == t.subscription
    ensures r.Ok? ==>
      && r.value.id == t.id && r.value.title == t.title && r.value.description == t.description
      && r.value.amount == StarsAmounts.Parse(t.amount)
      && r.value.date == StampOf(t.date) && r.value.transactionDate == Stamp(t.transactionDate)
      && r.value.transactionUrl == t.transactionUrl
  {
    var peer :- ParsePeer(t.peer, users, chats);
    OrNoneRoundTrip(t.refund, None);
    OrNoneRoundTrip(t.pending, None);
    OrNoneRoundTrip(t.failed, None);
    OrNoneRoundTrip(t.gift, None);
    OrNoneRoundTrip(t.reaction, None);
    OrNoneRoundTrip(t.subscription, None);
    Ok(StarsTransaction(
      t.id, StarsAmounts.Parse(t.amount), StampOf(t.date), peer, t.title, t.description,
      OrNone(t.refund), OrNone(t.pending), OrNone(t.failed), OrNone(t.gift), OrNone(t.reaction),
      OrNone(t.subscription), Stamp(t.transactionDate), t.transactionUrl))
  }
}
