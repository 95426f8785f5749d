# Pyrogram core: paginated fetches and raw-to-object decoders

This project models two recurring kinds of logic in the Pyrogram Telegram
client (a fork that adds stories, gifts, stars, business and call types):

- **Cursor-paginated generators.** `get_stars_transactions` and
  `get_boosts_list` derive a budget from `limit` and cap each page at 100
  items. They thread the server's `next_offset` into the next request and
  yield decoded items in order. They stop on an empty page, on an empty or
  absent next offset, or when the budget is reached, even mid-page. The
  server is an oracle from request to page. One specification function,
  `Pagination.Run`, describes the whole loop, and both generators are
  imperative methods proved equal to it.
- **Decoders from wire variants to library objects.** These are the
  `_parse` static methods. Each dispatches on the variant of a raw TL
  object and looks bare user, chat and channel ids up in request-scoped
  `users`/`chats` dictionaries (`map<int, …>` here). It normalises fields
  (`x or None`, an empty list to None, negated or marked ids) and drops
  list elements it does not recognise. Strict lookups (`d[k]`) and
  attribute access on None are errors (`Result.Err` with `KeyError` or
  `AttributeError`). Lenient lookups (`d.get(k)`) give None.

A few pure utilities with crisp laws sit alongside: keyboard button
read/write, `full_name`, user status normalisation, `Link.format`, the
chat-link slug, the topic colour in hex, and `snek` / `parse_node_info`
of the docs compiler.

Decoders of library types that lie outside this model (`Photo._parse`,
`MessageEntity._parse`, `Reaction._parse`, …) are symbolic. The result
`Raw.Nested(parser, blob)` records which parser ran on which raw value,
and nothing more. `utils.timestamp_to_datetime` is symbolic in the same
way (`Raw.Stamp`). `utils.get_raw_peer_id` and `utils.get_channel_id` are
modelled by what they return: the id inside the peer, and a marked
channel id.

Where the source's code and its documented intent differ, the model
follows the code:

- `FactCheck._parse` returns an empty string, not None, for an empty inner
  text, because the text object itself is truthy.
- `Chat._parse_channel_chat(None)`, reached through a `chats.get` that
  misses, raises AttributeError. It does not degrade to None.

## Model

| member | source | states |
|---|---|---|
| Pagination.Budget | pyrogram/methods/payments/get_stars_transactions.py:76 | The budget is `abs(limit)`, or 2^31-1 when the limit is 0; it is always positive |
| Pagination.PageSize | pyrogram/methods/payments/get_stars_transactions.py:77 | The page size is `min(100, total)`: never above 100, never above the budget, and equal to one of them |
| Pagination.RunLaws | pyrogram/methods/payments/get_stars_transactions.py:79-109 | From any request on, the loop yields at most the remaining budget. The first request carries the given offset and every later one carries the previous page's non-empty next offset. The yielded items are the leading items of the pages received, in order; an error is the item right after them. A run that neither fails nor uses its budget yielded everything it received and stopped on an empty page or one with no next offset |
| Pagination.DrainLaws | pyrogram/methods/payments/get_stars_transactions.py:98-109 | The same laws for the loop inside one page from item `i` on, including the requests that follow the page |
| Pagination.DrainCons | pyrogram/methods/payments/get_stars_transactions.py:98-104 | Yielding one more decoded item in front of a drained remainder keeps the laws |
| Pagination.DrainItem | pyrogram/methods/payments/get_stars_transactions.py:98-104 | One item of a page: a decoding error stops the loop with that error, an item that reaches the budget is yielded and ends the loop, and otherwise the item is yielded and the loop goes on |
| Pagination.RunStep | pyrogram/methods/payments/get_stars_transactions.py:80-96 | One request is sent with the current offset and page size; an empty page ends the loop right after it, otherwise the page is drained |
| Pagination.DrainEnd | pyrogram/methods/payments/get_stars_transactions.py:106-109 | After a whole page, an empty or absent next offset ends the loop, and otherwise the next request carries it |
| Pagination.PageEmpty | pyrogram/methods/payments/get_stars_transactions.py:93-96 | An empty page ends the loop whatever its next offset says, after the request that fetched it |
| Pagination.PageStopped | pyrogram/methods/payments/get_stars_transactions.py:98-104 | A page that stops mid-way (error or budget) contributes exactly its drained items and no further request |
| Pagination.PageLast | pyrogram/methods/payments/get_stars_transactions.py:106-109 | A fully drained page without a next offset ends the loop after its items |
| Pagination.PageNext | pyrogram/methods/payments/get_stars_transactions.py:106-109 | A fully drained page with a next offset is followed by the request carrying it |
| Pagination.AllItemsLast | pyrogram/methods/payments/get_stars_transactions.py:93-99 | The items received over a run of requests are the items of all but the last request followed by the last page's items |
| Pagination.IterateLaws | pyrogram/methods/payments/get_stars_transactions.py:75-109 | For the whole generator: at most `Budget(limit)` items; every request asks for `min(100, total)` items; the first carries the caller's offset; offsets are threaded; items come out in server order; and an early stop is explained by an empty page or a missing next offset |
| Pagination.EmptyPageStops | pyrogram/methods/boosts/get_boosts_list.py:73-76 | An empty first page yields nothing and sends no second request |
| Pagination.BudgetStopsMidPage | pyrogram/methods/boosts/get_boosts_list.py:78-84 | When the budget ends inside a page of decodable items, exactly the remaining budget is yielded and no further request is sent |
| GetStarsTransactions.Decode | pyrogram/methods/payments/get_stars_transactions.py:90-99 | A page holds one decoded transaction per raw one, in order, each decoded with the tables of its own page; the next offset is copied |
| GetStarsTransactions.YieldPage | pyrogram/methods/payments/get_stars_transactions.py:98-104 | When the inner loop stops on an error or the budget, its items and error are exactly the specification's drain of the page; otherwise it yielded the whole page, in order, below the budget, and the drain goes on after it |
| GetStarsTransactions.GetStarsTransactions | pyrogram/methods/payments/get_stars_transactions.py:75-109 | The generator's yielded items, requests and error equal `Iterate(pages, limit, offset)` |
| GetBoostsList.Decode | pyrogram/methods/boosts/get_boosts_list.py:71-73 | The whole page is decoded before anything is yielded: same length, same order, each boost decoded with the page's users, and no boost fails |
| GetBoostsList.YieldPage | pyrogram/methods/boosts/get_boosts_list.py:78-84 | When the budget stops the inner loop, its items are exactly the specification's drain of the decoded page; otherwise it yielded every boost, in order, below the budget, and the drain goes on after it |
| GetBoostsList.GetBoostsList | pyrogram/methods/boosts/get_boosts_list.py:58-89 | The generator's yielded items and requests equal `Iterate(pages, limit, offset)` |
| GetBoostsList.NeverFails | pyrogram/methods/boosts/get_boosts_list.py:71-89 | The boosts loop never ends with an error |
| GetBoostsList.AllItemsOk | pyrogram/methods/boosts/get_boosts_list.py:73 | Every decoded boost of every page is a value, never an error |
| Raw.UserTable | pyrogram/methods/payments/get_stars_transactions.py:90 | `{u.id: u for u in users}`: keys are exactly the ids and each entry has its key as id; the last entry of the list is stored under its id |
| Raw.ChatTable | pyrogram/methods/payments/get_stars_transactions.py:91 | `{c.id: c for c in chats}`, with the same laws |
| Raw.UserTableLastWins | pyrogram/methods/payments/get_stars_transactions.py:90 | For every id, the entry stored is the last one in the list with that id |
| Raw.ChatTableLastWins | pyrogram/methods/payments/get_stars_transactions.py:91 | For every id, the chat stored is the last one in the list with that id |
| Raw.LastVideo | pyrogram/types/stories/story_item.py:186-192 | `{type(a): a for a in attributes}` read for the video attribute: present iff some attribute is a video one, and then the last of them |
| Raw.LastFileName | pyrogram/types/messages_and_media/paid_media.py:75-80 | The file name read from the same dictionary: the last file-name attribute wins, None without one |
| Chats.UserChat | pyrogram/types/user_and_chats/chat.py:386-417 | A user chat has the user's id, type BOT iff the user is a bot and PRIVATE otherwise; an empty user raises AttributeError |
| Chats.ChatChat | pyrogram/types/user_and_chats/chat.py:419-453 | A basic-group chat has id `-chat.id`, type GROUP, and no restrictions; an empty chat raises |
| Chats.ChannelChat | pyrogram/types/user_and_chats/chat.py:455-503 | A channel chat has the marked channel id and type SUPERGROUP iff `megagroup` is truthy, else CHANNEL; its restrictions are decoded, an empty list being None |
| Chats.ChannelChatOf | pyrogram/types/user_and_chats/chat.py:455-456 | `_parse_channel_chat(None)`, what a missed `chats.get` passes, raises AttributeError |
| Chats.ChatChatOf | pyrogram/types/user_and_chats/chat.py:419-420 | `_parse_chat_chat(None)` raises AttributeError |
| Chats.ChosenId | pyrogram/types/user_and_chats/chat.py:512-514 | With `is_chat` a non-zero peer id wins over the sender id, without it a non-zero sender id wins; the result is one of the two |
| Chats.Parse | pyrogram/types/user_and_chats/chat.py:505-522 | The table and the decoder follow the conversation peer's variant; the entry under the chosen key is decoded by that decoder (`_parse_user_chat`, `_parse_chat_chat` or `_parse_channel_chat`); a missing key raises KeyError; the type matches the peer variant |
| Chats.ParseDialog | pyrogram/types/user_and_chats/chat.py:525-531 | PeerUser decodes `users[id]` as a user chat, PeerChat decodes `chats[id]` as a basic group, PeerChannel decodes `chats[id]` as a channel; each missing lookup raises KeyError; the type matches the peer |
| Chats.ParseAgreesWithDialog | pyrogram/types/user_and_chats/chat.py:505-531 | `_parse` decodes the peer `_parse_dialog` would, or, for a private message with a sender, the sender's entry through the decoder of the peer's kind |
| Chats.ParseChat | pyrogram/types/user_and_chats/chat.py:651-657 | A raw Chat becomes a basic group and a raw User a user chat. Anything else goes to the channel decoder, so an empty user fails with AttributeError on `title` |
| Chats.FullName | pyrogram/types/user_and_chats/chat.py:381-383 | The non-empty first and last names joined by one space, a lone name as it is, None when both are empty |
| Chats.UserChatAgreesWithUser | pyrogram/types/user_and_chats/chat.py:386-417 | A user's chat and its `User` agree on full name, username, restrictions, usernames, colours and bot-ness |
| Chats.ParseFullUser | pyrogram/types/user_and_chats/chat.py:538-555 | The user is looked up strictly and the base is the user chat of its entry. Bio, wallpaper, birthday and business fields are copied. `personal_chat` is set iff `personal_channel_id` is non-zero and in `chats`, decoded as a channel |
| Chats.FullChatBase | pyrogram/types/user_and_chats/chat.py:563-605 | The base is the kind's decoder applied to the entry, and an empty entry fails on `title`. A ChatFull gives a basic group with description `about or None`, members count defaulting to 0, visible history `not hidden_prehistory` and hidden members `not can_view_participants`. A ChannelFull gives `_parse_channel_chat(entry)` with its type, plus the full chat's members count, description, sticker set, wallpaper, admin rights and stargifts count, and its colour and profile colour when they decode; every other field is the channel decoder's |
| Chats.Permissions | pyrogram/types/user_and_chats/chat.py:606-609 | `banned_rights` wins over `default_banned_rights`, which wins over the permissions already there |
| Chats.ApplyRights | pyrogram/types/user_and_chats/chat.py:606-611 | Sets permissions by that priority and admin privileges when `admin_rights` is present; nothing else changes |
| Chats.SendAsEntity | pyrogram/types/user_and_chats/chat.py:629-633 | A user peer reads `users[...]` and any other peer `chats[peer.channel_id]`, strictly; a basic-group peer has no `channel_id` and raises |
| Chats.SendAs | pyrogram/types/user_and_chats/chat.py:627-635 | The send-as chat is the looked-up entity decoded by `_parse_chat`, or the lookup's error |
| Chats.SendAsAgreesWithDialog | pyrogram/types/user_and_chats/chat.py:627-635 | For a non-empty user and a channel entry the send-as chat is what `_parse_dialog` gives. An empty user fails on `title` here and on `restriction_reason` there. A basic-group entry under a channel peer is decoded as a group |
| Chats.ResolveRestricted | pyrogram/types/user_and_chats/chat.py:618-635 | Inside the non-empty-restrictions branch: the result fails iff the linked chat or the send-as chat fails, with the first error; otherwise the chat gains exactly those two values, and nothing else changes |
| Chats.LinkedChat | pyrogram/types/user_and_chats/chat.py:622-625 | A ChatFull raises on `linked_chat_id`. A ChannelFull's linked entry is None when not listed, and otherwise that entry decoded as a channel (an empty entry fails on `title`) |
| Chats.SendAsChat | pyrogram/types/user_and_chats/chat.py:627-635 | None without `default_send_as`; otherwise the send-as chat of that peer, or its error |
| Chats.FullChatOverrides | pyrogram/types/user_and_chats/chat.py:606-646 | Only the rights, restrictions, linked and send-as chats, invite link and reactions change. Without restrictions nothing fails and the restrictions, linked chat and send-as chat stay as they were. With restrictions, both restriction fields are the decoded list; the result fails iff the linked or send-as chat fails, with the first error; otherwise it gains those chats. The invite link comes only from an exported invite |
| Chats.ParseFullChat | pyrogram/types/user_and_chats/chat.py:562-646 | A missing entry raises KeyError and an empty one fails on `title`. With restrictions the result fails exactly as the linked or send-as chat does. A decoded full chat has the group or channel id and type, the entry's title, the kind-specific fields, the rights, and the restrictions with linked and send-as chats (none without restrictions). The invite link is set only from an exported invite, with its link |
| Chats.ParseFull | pyrogram/types/user_and_chats/chat.py:534-648 | `_parse_full` on either answer builds the tables from it. A full user meets ParseFullUser's laws, with the user chat of the entry as its base. A full chat meets all of ParseFullChat's laws |
| Users.ParseStatus | pyrogram/types/user_and_chats/user.py:333-364 | The status method computes exactly `StatusOf` |
| Users.StatusLaws | pyrogram/types/user_and_chats/user.py:333-357 | At most one date is set; the next-offline date iff ONLINE and the last-online date iff OFFLINE; no status iff bot; ONLINE and OFFLINE iff the raw variants; LONG_AGO iff absent or empty status |
| Users.Parse | pyrogram/types/user_and_chats/user.py:275-330 | None iff the input is None or UserEmpty; id, bot flag and names copied; restrictions and usernames None iff empty; status fields from `_parse_status` |
| Users.ParsedBotHasNoStatus | pyrogram/types/user_and_chats/user.py:347-351 | A bot has no status and neither date, whatever its raw status |
| Users.FullName | pyrogram/types/user_and_chats/user.py:263-264 | The non-empty first and last names joined by one space, None when both are empty |
| Users.FormatLink | pyrogram/types/user_and_chats/user.py:43-49 | Markdown form `[text](url)` iff the style is MARKDOWN, otherwise an `<a href=…>…</a>` element |
| Users.LinkRoundTrip | pyrogram/types/user_and_chats/user.py:43-49 | Reading a formatted link back gives the url and the original text, so the text is HTML-escaped exactly once |
| Users.ReadMarkdownLink | pyrogram/types/user_and_chats/user.py:46-47 | The Markdown template reads back to its url and unescaped text |
| Users.ReadHtmlLink | pyrogram/types/user_and_chats/user.py:48-49 | The HTML template reads back to its url and unescaped text |
| Users.MentionReadsBack | pyrogram/types/user_and_chats/user.py:267-272 | The mention links to `tg://user?id=<id>` and shows the first name, or "Deleted Account" when it is empty |
| StoryItems.ChatKey | pyrogram/types/stories/story_item.py:163 | `channel_id or chat_id`: the chat id of a PeerChat, the channel id of a PeerChannel unless it is 0 |
| StoryItems.HintPoster | pyrogram/types/stories/story_item.py:159-164 | A user peer gives `User._parse(users.get(...))`, a channel or chat peer a channel chat from `chats.get` (raising when missing); no peer or a resolved input peer gives neither |
| StoryItems.Attribution | pyrogram/types/stories/story_item.py:156-173 | A PeerUser or PeerChannel `from_id` overrides the peer and clears the other field; at most one of `from_user` and `sender_chat` is set |
| StoryItems.Attribute | pyrogram/types/stories/story_item.py:156-173 | The reassigning code computes exactly `Attribution` |
| StoryItems.ParseMedia | pyrogram/types/stories/story_item.py:175-193 | At most one of photo, video and animation; a photo iff photo media; an animated attribute wins over a video attribute |
| StoryItems.ParseMediaAreas | pyrogram/types/stories/story_item.py:213-222 | Areas that decode to None are dropped, order is kept, and an empty result is None |
| StoryItems.Build | pyrogram/types/stories/story_item.py:224-247 | The object carries the poster, media, caption (`or None`), entities (None when empty), views, forward header, areas, dates and every flag with False read as None |
| StoryItems.Parse | pyrogram/types/stories/story_item.py:146-247 | Fails iff the attribution fails; the poster is the attribution's, with at most one side set |
| StoryItems.ParseFields | pyrogram/types/stories/story_item.py:195-247 | A decoded story's media, kept areas, caption, entities, views, forward header, dates and flags |
| StoryItems.ParseStory | pyrogram/types/stories/story_item.py:146-247 | The step-by-step decoder equals `Parse` |
| StoryItems.ChatOf | pyrogram/types/stories/story_item.py:250-252 | `sender_chat or from_user`: the chat when set, else the user, None when neither |
| StoryItems.ResolvedPeerIgnored | pyrogram/methods/stories/get_stories.py:74-75 | A resolved input peer matches neither PeerUser nor PeerChannel, so it attributes like no peer at all |
| StoryItems.EntryItem | pyrogram/types/stories/peer_stories.py:74 | Only StoryItem entries are kept |
| StoryItems.ParseStories | pyrogram/types/stories/peer_stories.py:72-79 | The append loop decodes exactly the StoryItem entries, in order, the first error propagating |
| MediaAreas.ParseCoordinates | pyrogram/types/stories/media_area.py:70-82 | x, y, rotation and radius are copied, `w` becomes width and `h` height |
| MediaAreas.CoordinatesRoundTrip | pyrogram/types/stories/media_area.py:70-82 | Coordinates read back to the wire value |
| MediaAreas.VenueLocation | pyrogram/types/stories/media_area.py:179-186 | A GeoPoint gives its longitude and latitude, any other geo (0, 0) |
| MediaAreas.Parse | pyrogram/types/stories/media_area.py:156-233 | None iff the variant is not one of the seven; otherwise the kind's type string and only that kind's fields (geo iff a GeoPoint, foursquare fields iff the provider is "foursquare", False dark/flipped read as None, channel id and message id for a channel post) |
| MediaAreas.KindNamesDistinct | pyrogram/types/stories/media_area.py:162-233 | Two recognised areas have the same type string iff they are the same variant |
| Owners.ParseOwner | pyrogram/types/stories/peer_stories.py:64-70 | A user peer resolves through `users.get` (None when missing); a channel or basic-group peer is decoded from `chats.get` and raises when missing |
| Owners.OwnerKind | pyrogram/types/stories/peer_stories.py:64-70 | Only a user peer can leave the owner None; only a chat peer with a missing or empty entry fails; a user owner iff a user peer |
| PeerStoryLists.Parse | pyrogram/types/stories/peer_stories.py:55-85 | The owner's error propagates; otherwise the StoryItem entries decoded with the container's peer and tables, None when empty, and `max_read_id` copied |
| PeerStoryLists.ParsePeerStories | pyrogram/types/stories/peer_stories.py:55-85 | The append loop equals `Parse` |
| PeerStoryLists.StoriesKept | pyrogram/types/stories/peer_stories.py:73-79 | One decoded story per StoryItem entry, in order, each decoded with the container's peer |
| Views.Parse | pyrogram/types/stories/story_views.py:70-89 | Counts copied; one reaction per raw reaction in order, None when empty; False `has_viewers` reads as None; empty recent viewers read as None |
| Views.ParseOpt | pyrogram/types/stories/story_item.py:204-206 | Views are decoded only when present |
| Views.ParseRoundTrip | pyrogram/types/stories/story_views.py:70-89 | The wire views are recovered from the decoded ones and the raw reactions |
| GetStories.RequestIds | pyrogram/methods/stories/get_stories.py:58-59 | A single id is wrapped in a list, a list is sent as it is |
| GetStories.Shape | pyrogram/methods/stories/get_stories.py:78 | A single request with results gives the first story, otherwise the list |
| GetStories.GetStories | pyrogram/methods/stories/get_stories.py:58-78 | The ids sent and the result: the StoryItem results decoded in order with the answer's own tables, shaped by the request |
| GetStories.ShapeLaws | pyrogram/methods/stories/get_stories.py:78 | A single request gives a list only when nothing decoded, and then the empty list, not None |
| StarGiftAttributes.RarityName | pyrogram/types/messages_and_media/star_gift_attribute.py:54-71 | Only an unrecognised rarity is "unknown" |
| StarGiftAttributes.ParseRarity | pyrogram/types/messages_and_media/star_gift_attribute.py:50-71 | None stays None; otherwise the rarity's name with the permille kept |
| StarGiftAttributes.RarityNamesDistinct | pyrogram/types/messages_and_media/star_gift_attribute.py:54-71 | Distinct rarity kinds have distinct names |
| StarGiftAttributes.Parse | pyrogram/types/messages_and_media/star_gift_attribute.py:172-235 | The four variants become "backdrop", "model", "pattern" and "original_details". Each sets only its own fields: every backdrop, model, pattern and original-details field is None for the other kinds. The sticker is set only with a document, sender and recipient only with their peers, and anything else is None |
| StarGiftAttributes.ParseAll | pyrogram/types/messages_and_media/star_gift_attribute.py:238-251 | None for an empty list; otherwise the decodable attributes in order, None when none survives |
| StarGiftAttributes.ParseList | pyrogram/types/messages_and_media/star_gift_attribute.py:238-251 | The append loop equals `ParseAll` |
| StarGiftAttributes.ParseAllRecognised | pyrogram/types/messages_and_media/star_gift_attribute.py:245-251 | When every attribute is recognised, every one is kept, in order |
| StarGifts.Parse | pyrogram/types/messages_and_media/star_gift.py:116-138 | Sticker None iff absent; the five flags False read as None; other fields copied |
| StarGifts.ParseRoundTrip | pyrogram/types/messages_and_media/star_gift.py:116-138 | The wire gift is recovered from the decoded one |
| StarGifts.ParseUnique | pyrogram/types/messages_and_media/star_gift.py:224-248 | `owner_id` is the raw peer id or None; the three flags False read as None; the rest copied |
| StarGifts.OwnerKindForgotten | pyrogram/types/messages_and_media/star_gift.py:228-230 | The owner's peer kind is lost: user, channel and chat owners with one id decode alike |
| PaidMedias.ParseItem | pyrogram/types/messages_and_media/paid_media.py:66-95 | A photo gives a Photo; a Document with a video attribute a Video, otherwise a Document, with the last file name; a non-Document or unknown entry gives nothing; a preview gives type "preview" with its sizes |
| PaidMedias.Parse | pyrogram/types/messages_and_media/paid_media.py:51-101 | None for no paid media; otherwise the price and the decoded entries, None when nothing was appended |
| PaidMedias.ParsePaidMedia | pyrogram/types/messages_and_media/paid_media.py:51-101 | The append loop equals `Parse` |
| PaidMedias.ItemsKept | pyrogram/types/messages_and_media/paid_media.py:63-100 | The list is None iff no entry decodes; every output comes from an entry; when every entry is recognised none is dropped |
| ForumTopics.Creator | pyrogram/types/messages_and_media/forum_topic.py:157-168 | No peer gives no creator; a user peer is looked up strictly in `users`, any other strictly in `chats`, a miss raising KeyError |
| ForumTopics.IconColor | pyrogram/types/messages_and_media/forum_topic.py:174 | A colour is given iff the integer is non-zero |
| ForumTopics.IconColorRoundTrip | pyrogram/types/messages_and_media/forum_topic.py:174 | The colour is the hex digits of the integer: it parses back to it, and different colours give different strings |
| ForumTopics.Parse | pyrogram/types/messages_and_media/forum_topic.py:156-186 | The creator's error propagates; a deleted topic raises on `title`; otherwise id, title, date, colour, emoji, `messages.get(top_message)` and the counters |
| ForumTopics.CreatorKind | pyrogram/types/messages_and_media/forum_topic.py:164-167 | A user creator is a private or bot chat, any other a channel or supergroup |
| FactChecks.Parse | pyrogram/types/messages_and_media/fact_check.py:65-90 | None iff None; text iff the raw text object is present, then its inner text; entities iff that text has some; country, hash and need_check copied |
| FactChecks.ParseRoundTrip | pyrogram/types/messages_and_media/fact_check.py:65-90 | The wire fact check is recovered from the decoded one |
| StarsTransactions.ParsePeer | pyrogram/types/payments/stars_transaction.py:65-103 | PeerUser gives "user" with its user (None when missing). PeerChannel gives "channel" with `_parse_channel_chat(chats.get(id))` and PeerChat with `_parse_chat_chat(chats.get(id))`, or that decoder's error. The six service variants give their names and anything else "unsupported". Only a chat peer without a decodable entry fails |
| StarsTransactions.Parse | pyrogram/types/payments/stars_transaction.py:190-214 | The peer is decoded with the same tables and its error propagates; the six flags False read as None |
| StarsSubscriptions.ParsePricing | pyrogram/types/payments/stars_subscription.py:51-64 | None stays None; the period is copied and the amount has nanos 0 |
| StarsSubscriptions.PricingRoundTrip | pyrogram/types/payments/stars_subscription.py:51-64 | The wire pricing is recovered from the decoded one |
| StarsSubscriptions.Parse | pyrogram/types/payments/stars_subscription.py:136-163 | The peer by variant, its error propagating; id, date and pricing copied; four flags False read as None |
| StarsStatuses.UsersFor | pyrogram/types/payments/stars_status.py:80-81 | The answer's users are used only when the caller passes None |
| StarsStatuses.ChatsFor | pyrogram/types/payments/stars_status.py:82-83 | The answer's chats are used only when the caller passes None |
| StarsStatuses.ParseLaws | pyrogram/types/payments/stars_status.py:70-107 | Decodes iff every subscription and transaction decodes; both lists keep length and order, or are None when empty; the offsets are copied; a failure is the first error |
| StarsAmounts.Parse | pyrogram/types/payments/stars_amount.py:57-68 | None stays None; amount and nanos copied |
| StarsAmounts.ParseInt | pyrogram/types/payments/stars_amount.py:71-80 | The amount with nanos 0 |
| StarsAmounts.Repr | pyrogram/types/payments/stars_amount.py:82-85 | Nanos appear iff they are non-zero |
| StarsAmounts.ReprRoundTrip | pyrogram/types/payments/stars_amount.py:82-85 | Every amount reads back from its repr, so the repr loses nothing |
| StarsAmounts.ReprRoundTripWhole | pyrogram/types/payments/stars_amount.py:82-85 | A whole amount reads back from its repr |
| StarsAmounts.ReprRoundTripNanos | pyrogram/types/payments/stars_amount.py:82-85 | An amount with nanos reads back from its repr |
| StarsAmounts.WholeStr | pyrogram/types/payments/stars_amount.py:87-90 | With nanos 0 the string is the amount's decimal followed by " Stars" |
| StarGiftAuctionStates.Parse | pyrogram/types/payments/star_gift_auction_state.py:126-175 | None for no state and an unknown variant; "not_modified" with nothing else; "finished" with only its dates and listing figures; "active" with version, dates, counters and bid levels and rounds (None when empty) |
| StarGiftAuctionStates.KindsDistinct | pyrogram/types/payments/star_gift_auction_state.py:133-173 | Two decoded states have the same type iff they are the same variant |
| PaidReactionPrivacies.Parse | pyrogram/types/payments/paid_reaction_privacy.py:50-71 | "default", "anonymous" and "peer" iff the variant; peer left None; anything else None |
| PaidReactionPrivacies.ParseRoundTrip | pyrogram/types/payments/paid_reaction_privacy.py:50-71 | The type names the variant, which reads back, with its peer once supplied again |
| BusinessMessages.ParseRecipients | pyrogram/types/business/business_message.py:70-90 | None stays None; False flags and an empty user list read as None; the users kept |
| BusinessMessages.RecipientsRoundTrip | pyrogram/types/business/business_message.py:70-90 | Decoding recipients loses nothing, and a normal value decodes back from its wire form |
| BusinessMessages.ParseGreeting | pyrogram/types/business/business_message.py:121-134 | None stays None; shortcut, inactivity days and recipients copied |
| BusinessMessages.ScheduleType | pyrogram/types/business/business_message.py:187-198 | "custom", "outside_work_hours" iff their variants; "always" for Always and any unknown schedule |
| BusinessMessages.ParseAway | pyrogram/types/business/business_message.py:180-208 | None stays None; dates iff the schedule is custom; False `offline_only` reads as None; recipients decoded |
| BusinessMessages.AwayScheduleRoundTrip | pyrogram/types/business/business_message.py:187-198 | Every known schedule and its dates read back; an unknown one reads back as Always |
| BusinessHours.ParseWeeklyOpens | pyrogram/types/business/business_hours.py:51-59 | One interval per raw interval, in order, minutes copied |
| BusinessHours.ParseWorkHours | pyrogram/types/business/business_hours.py:91-110 | None stays None; timezone copied; intervals None when empty; False `open_now` reads as None |
| BusinessHours.WorkHoursRoundTrip | pyrogram/types/business/business_hours.py:91-110 | Work hours read back to the wire value, minutes outside 0..10080 included |
| BusinessInfos.Parse | pyrogram/types/business/business_info.py:70-93 | None iff all five components are absent; otherwise exactly the five decoded components |
| BusinessInfos.ComponentsIndependent | pyrogram/types/business/business_info.py:76-80 | Changing one raw component leaves the others' decoding unchanged |
| BusinessChatLinks.Parse | pyrogram/types/business/business_chat_link.py:65-80 | Link, message, views and title copied; entities one per raw entity, None when empty |
| BusinessChatLinks.Slug | pyrogram/types/business/business_chat_link.py:82-84 | The suffix after the last "/", holding no "/", or the whole link when there is none |
| BusinessChatLinks.Edit | pyrogram/types/business/business_chat_link.py:112-119 | The request is keyed by the slug; each of message, title and entities is the argument when truthy, else the current value |
| BusinessChatLinks.EditDefaults | pyrogram/types/business/business_chat_link.py:112-119 | No arguments resend the current values; truthy arguments replace all three |
| GiveawayResultsDecoding.MainChat | pyrogram/types/boosts/giveaway_results.py:118-122 | The chat is set iff `channel_id` is non-zero and in `chats`, decoded as a channel |
| GiveawayResultsDecoding.TruthyStamp | pyrogram/types/boosts/giveaway_results.py:149-150 | A date is set iff the raw timestamp is truthy |
| GiveawayResultsDecoding.Parse | pyrogram/types/boosts/giveaway_results.py:111-156 | Errors propagate from the main and additional chats; winners and additional chats None when empty; both message ids are `launch_msg_id` |
| GiveawayResultsDecoding.ParseWinners | pyrogram/types/boosts/giveaway_results.py:125-129 | The append loop gives exactly `Winners` |
| GiveawayResultsDecoding.AdditionalStep | pyrogram/types/boosts/giveaway_results.py:132-138 | One peer of the loop: a missing one is skipped, a present one appended or its error raised, and an error persists |
| GiveawayResultsDecoding.ParseAdditionalChats | pyrogram/types/boosts/giveaway_results.py:132-138 | The append loop gives exactly `AdditionalChats` |
| GiveawayResultsDecoding.ParseGiveawayResults | pyrogram/types/boosts/giveaway_results.py:111-156 | The step-by-step decoder equals `Parse` |
| GiveawayResultsDecoding.WinnersLaws | pyrogram/types/boosts/giveaway_results.py:125-129 | Every winner is a listed id found in `users`; with every id present all are kept in order; with none present the winners are None |
| Boosts.Parse | pyrogram/types/boosts/boost.py:91-113 | The user is set iff `user_id` is non-zero and in `users`; id, message id, stars and multiplier copied; three flags False read as None |
| Boosts.ParseList | pyrogram/types/boosts/boost.py:115-123 | Same length and order, each boost decoded with the same users |
| Boosts.ParseRoundTrip | pyrogram/types/boosts/boost.py:91-113 | The wire boost is recovered from the decoded one and its user id |
| BoostStatuses.Parse | pyrogram/types/boosts/boost_status.py:85-107 | Figures and url copied; prepaid giveaways one per raw one, None when empty or absent; False `my_boost` reads as None; slots None when empty |
| BoostStatuses.ParseUnparse | pyrogram/types/boosts/boost_status.py:85-107 | Decoding is a normal form: a decoded status put back on the wire decodes to itself |
| GroupCalls.Parse | pyrogram/types/calls/group_call.py:121-143 | The schedule date is set iff present and truthy; the call is active when the attribute is absent, and inactive iff it is so scheduled; id, access hash, counts and flags are copied |
| GroupCallParticipants.PeerChat | pyrogram/types/calls/group_call_participant.py:133-139 | A chat only for a channel or basic-group peer found in `chats`; a miss gives None, not an error |
| GroupCallParticipants.PeerUser | pyrogram/types/calls/group_call_participant.py:130-132 | A user only for a user peer found in `users` |
| GroupCallParticipants.Parse | pyrogram/types/calls/group_call_participant.py:121-159 | The guarded peer lookups, the copied fields, video and screen flags, and stream timestamps only with a stream |
| GroupCallParticipants.PeerExclusive | pyrogram/types/calls/group_call_participant.py:127-139 | At most one of user and chat, each from its own peer kind; a missing entity gives neither and no error |
| ConferenceCalls.UsersFor | pyrogram/types/calls/conference_call.py:82 | `(users or table) if hasattr(call, 'users') else {}` |
| ConferenceCalls.ChatsFor | pyrogram/types/calls/conference_call.py:83 | The same for chats |
| ConferenceCalls.FirstHost | pyrogram/types/calls/conference_call.py:97-106 | The first chat whose call id matches, with no earlier match, or None when none matches |
| ConferenceCalls.FirstHostAt | pyrogram/types/calls/conference_call.py:97-106 | A matching chat with no earlier match is the first host |
| ConferenceCalls.HostChat | pyrogram/types/calls/conference_call.py:96-106 | The search stops at the first match, which is decoded as a channel only when broadcast or megagroup |
| ConferenceCalls.Parse | pyrogram/types/calls/conference_call.py:76-117 | Participants' errors propagate; participants None when empty; the call, id and access hash only with a call; the host chat; both flags True |
| ConferenceCalls.ParseParticipants | pyrogram/types/calls/conference_call.py:89-94 | The append loop decodes every participant in order, the first error propagating |
| ConferenceCalls.FindHostChat | pyrogram/types/calls/conference_call.py:96-106 | The breaking search loop gives exactly `HostChat` |
| ConferenceCalls.ParseConferenceCall | pyrogram/types/calls/conference_call.py:76-117 | The step-by-step decoder equals `Parse` |
| PeerColors.ListOrNone | pyrogram/types/user_and_chats/peer_color.py:94-98 | An empty colour list reads as None |
| PeerColors.Parse | pyrogram/types/user_and_chats/peer_color.py:79-100 | None and unknown variants give None; a plain colour sets only colour and emoji; a collectible sets its fields with empty lists as None |
| PeerColors.ParseRoundTrip | pyrogram/types/user_and_chats/peer_color.py:79-100 | A recognised colour reads back to the wire value, up to an empty dark palette |
| KeyboardButtons.Make | pyrogram/types/bots_and_keyboards/keyboard_button.py:61 | The text is coerced to a string (an integer's decimal digits) and the other fields are copied |
| KeyboardButtons.Read | pyrogram/types/bots_and_keyboards/keyboard_button.py:68-97 | A plain button without style is its bare text; request-phone, geo and web-view buttons set `request_contact`, `request_location` and `web_app`; anything else None |
| KeyboardButtons.Write | pyrogram/types/bots_and_keyboards/keyboard_button.py:99-109 | `request_contact` wins over `request_location`, which wins over `web_app`, which wins over a plain button; text and style carried |
| KeyboardButtons.ReadWrite | pyrogram/types/bots_and_keyboards/keyboard_button.py:68-109 | Every recognised button keeps its variant, text and url through a read and a write |
| KeyboardButtonStyles.FlagOrNone | pyrogram/types/bots_and_keyboards/keyboard_button_style.py:60-65 | `flag or None`: same truth value, False read as None |
| KeyboardButtonStyles.Read | pyrogram/types/bots_and_keyboards/keyboard_button_style.py:56-65 | None stays None; flags with False read as None; icon copied |
| KeyboardButtonStyles.Write | pyrogram/types/bots_and_keyboards/keyboard_button_style.py:67-73 | All four fields copied |
| KeyboardButtonStyles.RoundTrips | pyrogram/types/bots_and_keyboards/keyboard_button_style.py:56-73 | A style reads back iff no flag is False; a wire style reads back iff no flag is False |
| TodoItems.CompletedBy | pyrogram/types/todo/todo_item.py:72-74 | Set only for a truthy `completed_by` found in `users` |
| TodoItems.Parse | pyrogram/types/todo/todo_item.py:66-83 | Id and text copied; completion date iff truthy; completed iff `completed_by` resolved or the raw flag set |
| TodoItems.Write | pyrogram/types/todo/todo_item.py:85-86 | `write` returns the item's text |
| TodoItems.ParseWrite | pyrogram/types/todo/todo_item.py:66-86 | Writing a decoded item gives the raw text; a resolved completer makes the item completed |
| TodoLists.TitleOf | pyrogram/types/todo/todo_list.py:93 | `title.text` when present, the title itself when it is a string, otherwise None |
| TodoLists.ParseItems | pyrogram/types/todo/todo_list.py:84-90 | One item per raw item, in order, decoded with the same users |
| TodoLists.Parse | pyrogram/types/todo/todo_list.py:76-100 | Items None iff empty; total count their number; id, completions and completed count always None |
| TodoLists.ParseMedia | pyrogram/types/todo/todo_list.py:102-124 | None iff no checklist; otherwise the parsed list with completions one per raw completion (None when empty) and their count set iff there are some |
| TodoLists.TodoListObject.constructor | pyrogram/types/todo/todo_list.py:91-100 | The new object holds exactly the given checklist |
| TodoLists.ParseMediaObject | pyrogram/types/todo/todo_list.py:102-124 | The method sets completions and the count on a fresh object, which then holds `ParseMedia` |
| SendReactions.ItemReaction | pyrogram/methods/messages/send_reaction.py:70-74 | An integer is a custom emoji with that document id, a string an emoticon |
| SendReactions.ListReactions | pyrogram/methods/messages/send_reaction.py:69-75 | One reaction per list element, in order |
| SendReactions.ReactionsAsWritten | pyrogram/methods/messages/send_reaction.py:69-77 | A list maps element-wise; a truthy scalar becomes one emoticon reaction, even an integer; None or "" becomes the empty list |
| SendReactions.ScalarIntMismatch | pyrogram/methods/messages/send_reaction.py:76-77 | The scalar 5 and the list [5] give different reactions as written |
| SendReactions.Reactions | pyrogram/methods/messages/send_reaction.py:69-77 | A truthy scalar is treated as its one-element list |
| SendReactions.ReactionsLaws | pyrogram/methods/messages/send_reaction.py:69-77 | A scalar and its one-element list agree; every emoticon holds a string; the corrected mapping differs from the written one iff the scalar is a non-zero integer |
| SendReactions.SendReaction | pyrogram/methods/messages/send_reaction.py:69-90 | No `message_id` raises ValueError and sends nothing. Otherwise one request with the reactions built as written, and the result is True |
| SendReactions.SendReactionCorrected | pyrogram/methods/messages/send_reaction.py:69-90 | The same call with the corrected reaction list from the finding below |
| SendReactions.SendReactionCorrectedDiffers | pyrogram/methods/messages/send_reaction.py:76-77 | The written and corrected calls differ iff a message id is given and the emoji is a single non-zero integer |
| DocsCompiler.Snek | compiler/docs/compiler.py:40-42 | The output has no upper-case letter |
| DocsCompiler.SnekLaws | compiler/docs/compiler.py:40-42 | With the underscores removed the output is the lower-cased input, so `snek` only inserts "_" and lowercases; an input without upper-case letters comes back unchanged |
| DocsCompiler.SnekExample | compiler/docs/compiler.py:40-42 | `snek("GetChatMember")` is "get_chat_member" |
| DocsCompiler.SplitWordsExample | compiler/docs/compiler.py:41 | The first substitution turns "GetChatMember" into "Get_ChatMember" |
| DocsCompiler.SplitCapsExample | compiler/docs/compiler.py:42 | The second substitution turns "Get_ChatMember" into "Get_Chat_Member" |
| DocsCompiler.SplitWordsOnlyInserts | compiler/docs/compiler.py:41 | The first substitution only inserts underscores |
| DocsCompiler.SplitCapsOnlyInserts | compiler/docs/compiler.py:42 | The second substitution only inserts underscores |
| DocsCompiler.SplitWordsNoUpper | compiler/docs/compiler.py:41 | Without capitals the first substitution changes nothing |
| DocsCompiler.SplitCapsNoUpper | compiler/docs/compiler.py:42 | Without capitals the second substitution changes nothing |
| DocsCompiler.ExtractUnionName | compiler/docs/compiler.py:45-62 | A name iff the node is `Name = Union[...]` with a Name target, and then that name |
| DocsCompiler.ExtractClassName | compiler/docs/compiler.py:65-78 | A name iff the node is a class definition, and then its name |
| DocsCompiler.ExtractorExamples | compiler/docs/compiler.py:51-62 | The doctests: `User = Union[...]` and `class User` both give "User"; each extractor ignores the other form |
| DocsCompiler.ParseNodeInfo | compiler/docs/compiler.py:90-100 | A class name wins over a union name; None when neither gives a non-empty name |
| DocsCompiler.TitleOfLaws | compiler/docs/compiler.py:208 | A line gives a title iff it is not blank after stripping, and the title is the stripped line |
| DocsCompiler.TitleListSound | compiler/docs/compiler.py:207-208 | Every title is a non-empty stripped line of the input |
| DocsCompiler.TitleListComplete | compiler/docs/compiler.py:207-208 | Without blank lines every line is kept, stripped, in order |

## Left out

- Transport and I/O are not modelled: `invoke`, `resolve_peer` and `get_messages`. Each page fetch is an oracle parameter (`server`). The `pinned_message` fetched in `_parse_full` is not modelled.
- Generator suspension is not modelled. Each paginated method returns the full outcome: the items yielded, the requests sent and the error that ended it.
- Decoders outside the core are symbolic: Photo, Video, Animation, Document, Sticker, MessageEntity, Reaction, Restriction, Wallpaper, Birthday, ChatPermissions, ChatPrivileges, ChatReactions, StoryForwardHeader, PrepaidGiveaway, TodoCompletion and the business intro and location. The model assumes they return None for None input.
- `utils.timestamp_to_datetime` is symbolic. A date records its raw timestamp.
- Floating-point values (`premium_audience.part`, coordinates, latitudes and longitudes) are carried as opaque `real`s.
- The float property `StarsAmount.total` is not modelled. Neither is the nanos branch of `StarsAmount.__str__`, which formats it.
- Python truthiness of TL objects is not modelled: every decoded or raw object counts as truthy. The `Object` base class is not part of this model.
- `hasattr` / `getattr(x, name, default)` on wire objects is modelled by an optional field (`Option` or `Attr`) chosen per call site.
- `Chat._parse_channel_chat` and the other chat builders model only the fields the stated contracts mention. Plain field copies with no branching (usernames, photo, emoji status and similar) are carried without laws.
- Chats.FullChatBase: the other `getattr` copies of a full channel at pyrogram/types/user_and_chats/chat.py:585-593, 596-601 and 603-604 are not modelled: stories flags, signature profiles, autotranslation, broadcast messages allowed, monoforum, forum tabs, stories max id, emoji status, level, subscription date, verification icon, paid-message stars, linked monoforum, boosts applied and unrestrict boost count. `Chat` carries none of these fields.
- ConferenceCalls.HostChat: the chats table is a list in insertion order with distinct ids.
- DocsCompiler.Snek: only ASCII letters are upper- or lower-cased. Python's `str.lower` on other scripts is not modelled.
- DocsCompiler.Snek: the ensures states only that no upper-case letter remains. The insert-only and unchanged-input laws are in DocsCompiler.SnekLaws.
- DocsCompiler.TitleListComplete: the title list is proved exact only when no line is blank. Otherwise DocsCompiler.TitleListSound states soundness only.
- Bound-method shortcuts that only forward to the client are not modelled, e.g. Chat.archive and StoryItem.delete. BusinessChatLink.edit is covered only for the request it builds.
- Files that cannot run as written are not modelled: story_view.py, story_reaction.py and public_forward.py call `StoryItem._parse` without its tables. Pure field-copy records and enums are not modelled either.
- The docs compiler's file-writing `generate` / `pyrogram_api` are not modelled, apart from `get_title_list`.

## Findings

| source | as written | input that shows it | evidently intended | confidence | as-written member | corrected member |
|---|---|---|---|---|---|---|
| pyrogram/methods/messages/send_reaction.py:76-77 | A truthy scalar emoji always becomes `ReactionEmoji(emoticon=emoji)`, even when it is an integer | `send_reaction(chat_id, message_id, emoji=5)` sends an emoticon reaction whose emoticon is the integer 5, while `emoji=[5]` sends the custom emoji with document id 5 | A scalar behaves as its one-element list: an integer is a custom emoji | not executed | SendReactions.ScalarIntMismatch | SendReactions.ReactionsLaws |
