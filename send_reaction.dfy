/** `send_reaction`: the reaction list built from the `emoji` argument, and
    the request sent for a message. */
module SendReactions {
  import opened Wrappers

  /** One emoji as the caller gives it: a custom emoji's document id, or an
      emoticon. */
  datatype EmojiItem = IntItem(i: int) | StrItem(s: string)

  /** The `emoji` argument: None, one emoji, or a list of them. */
  datatype EmojiArg = NoEmoji | Scalar(item: EmojiItem) | ListOf(items: seq<EmojiItem>)

  /** The wire reactions. `ReactionEmoji` holds whatever it was built with,
      so the decoder as written can put an integer in it. */
  datatype Reaction = ReactionCustomEmoji(documentId: int) | ReactionEmoji(emoticon: EmojiItem)

  /** The request for one message. */
  datatype SendReactionRequest = SendReactionRequest(peer: int, msgId: int, reaction: seq<Reaction>, big: bool)

  /** What the call hands back after sending: the request, and True. */
  datatype Sent = Sent(request: SendReactionRequest, result: bool)

  /** Python truthiness of one emoji: zero and the empty string are false. */
  predicate TruthyItem(x: EmojiItem) {
    match x
    case IntItem(i) => i != 0
    case StrItem(s) => s != ""
  }

  /** One list element: an integer is a custom emoji, a string an emoticon. */
  function ItemReaction(x: EmojiItem): (r: Reaction)
    ensures r.ReactionCustomEmoji? <==> x.IntItem?
    ensures r.ReactionCustomEmoji? ==> r.documentId == x.i
    ensures r.ReactionEmoji? ==> r.emoticon == x && x.StrItem?
  {
    match x
    case IntItem(i) => ReactionCustomEmoji(i)
    case StrItem(_) => ReactionEmoji(x)
  }

  function ListReactions(xs: seq<EmojiItem>): (r: seq<Reaction>)
    ensures |r| == |xs|
    ensures forall k :: 0 <= k < |xs| ==> r[k] == ItemReaction(xs[k])
  {
    seq(|xs|, k requires 0 <= k < |xs| => ItemReaction(xs[k]))
  }

  /** The reaction list as written: a list maps element by element; any
      truthy single value, an integer included, becomes one `ReactionEmoji`;
      None, zero and the empty string give the empty list. */
  function ReactionsAsWritten(emoji: EmojiArg): (r: seq<Reaction>)
    ensures emoji.ListOf? ==> r == ListReactions(emoji.items)
    ensures emoji.Scalar? && TruthyItem(emoji.item) ==> r == [ReactionEmoji(emoji.item)]
    ensures emoji.NoEmoji? || (emoji.Scalar? && !TruthyItem(emoji.item)) ==> r == []
  {
    match emoji
    case ListOf(xs) => ListReactions(xs)
    case Scalar(x) => if TruthyItem(x) then [ReactionEmoji(x)] else []
    case NoEmoji => []
  }

  /** As written, a single custom emoji id is not sent the way the same id
      in a one-element list is: the list gives a custom-emoji reaction, the
      single value an emoticon reaction holding an integer. */
  lemma ScalarIntMismatch()
    ensures ReactionsAsWritten(Scalar(IntItem(5))) == [ReactionEmoji(IntItem(5))]
    ensures ReactionsAsWritten(ListOf([IntItem(5)])) == [ReactionCustomEmoji(5)]
    ensures ReactionsAsWritten(Scalar(IntItem(5))) != ReactionsAsWritten(ListOf([IntItem(5)]))
  {
  }

  /** The reaction list with a single value read the way a list element is
      read: an integer is a custom emoji. */
  function Reactions(emoji: EmojiArg): (r: seq<Reaction>)
    ensures emoji.ListOf? ==> r == ListReactions(emoji.items)
    ensures emoji.Scalar? && TruthyItem(emoji.item) ==> r == [ItemReaction(emoji.item)]
    ensures emoji.NoEmoji? || (emoji.Scalar? && !TruthyItem(emoji.item)) ==> r == []
  {
    match emoji
    case ListOf(xs) => ListReactions(xs)
    case Scalar(x) => if TruthyItem(x) then [ItemReaction(x)] else []
    case NoEmoji => []
  }

  /** A truthy single value is the one-element list; every emoticon reaction
      holds a string; and the corrected list differs from the written one
      only for a single non-zero integer. */
  lemma ReactionsLaws(emoji: EmojiArg)
    ensures emoji.Scalar? && TruthyItem(emoji.item) ==> Reactions(emoji) == Reactions(ListOf([emoji.item]))
    ensures forall k :: 0 <= k < |Reactions(emoji)| && Reactions(emoji)[k].ReactionEmoji? ==>
      Reactions(emoji)[k].emoticon.StrItem?
    ensures Reactions(emoji) != ReactionsAsWritten(emoji) <==>
      emoji.Scalar? && emoji.item.IntItem? && emoji.item.i != 0
  {
  }

  /** `send_reaction` as written: without a message id it raises ValueError
      before any request; otherwise it sends the reactions for that message,
      built as the code builds them, and returns True. The peer is the
      already resolved chat. */
  function SendReaction(peer: int, messageId: Option<int>, emoji: EmojiArg, big: bool): (r: Result<Sent>)
    ensures r.Err? <==> messageId.None?
    ensures r.Err? ==> r.error == ValueError("You need to pass one of message_id!")
    ensures r.Ok? ==> r.value.result && r.value.request == SendReactionRequest(peer, messageId.value, ReactionsAsWritten(emoji), big)
  {
    var reaction := ReactionsAsWritten(emoji);
    if messageId.Some? then Ok(Sent(SendReactionRequest(peer, messageId.value, reaction, big), true))
    else Err(ValueError("You need to pass one of message_id!"))
  }

  /** `send_reaction` with the corrected reaction list: the same checks and
      answer, with a single value read the way a list element is read. */
  function SendReactionCorrected(peer: int, messageId: Option<int>, emoji: EmojiArg, big: bool): (r: Result<Sent>)
    ensures r.Err? <==> messageId.None?
    ensures r.Err? ==> r.error == ValueError("You need to pass one of message_id!")
    ensures r.Ok? ==> r.value.result && r.value.request == SendReactionRequest(peer, messageId.value, Reactions(emoji), big)
  {
    var reaction := Reactions(emoji);
    if messageId.Some? then Ok(Sent(SendReactionRequest(peer, messageId.value, reaction, big), true))
    else Err(ValueError("You need to pass one of message_id!"))
  }

  /** The written and the corrected call send different requests exactly
      when a message id is given and the emoji is a single non-zero integer. */
  lemma SendReactionCorrectedDiffers(peer: int, messageId: Option<int>, emoji: EmojiArg, big: bool)
    ensures SendReaction(peer, messageId, emoji, big) != SendReactionCorrected(peer, messageId, emoji, big) <==>
      messageId.Some? && emoji.Scalar? && emoji.item.IntItem? && emoji.item.i != 0
  {
    ReactionsLaws(emoji);
  }
}
