/** `BusinessChatLink`: decoding, the `slug` property and the request that
    `edit` sends. */
module BusinessChatLinks {
  import opened Wrappers
  import opened Text
  import opened Raw

  datatype RawLink = RawLink(link: string, message: string, views: int, title: Option<string>, entities: seq<Blob>)

  datatype BusinessChatLink = BusinessChatLink(
    link: string, message: string, views: int, title: Option<string>, entities: Option<seq<Nested>>)

  /** The `InputBusinessChatLink` that `edit` sends, with the slug it is keyed by. */
  datatype EditRequest = EditRequest(slug: string, message: string, title: Option<string>, entities: Option<seq<Nested>>)

  /** `BusinessChatLink._parse`: link, message, views and title are copied;
      the entities keep number and order, or are None when there are none. */
  function Parse(raw: RawLink): (r: BusinessChatLink)
    ensures r.link == raw.link && r.message == raw.message && r.views == raw.views && r.title == raw.title
    ensures r.entities.None? <==> |raw.entities| == 0
    ensures Items(r.entities) == MapNested(EntityParser, raw.entities)
  {
    BusinessChatLink(raw.link, raw.message, raw.views, raw.title, NestedList(EntityParser, raw.entities))
  }

  /** `slug`: the part of the link after its last "/", or the whole link. */
  function Slug(l: BusinessChatLink): (r: string)
    ensures '/' !in r
    ensures |r| <= |l.link| && r == l.link[|l.link| - |r|..]
    ensures |r| < |l.link| ==> l.link[|l.link| - |r| - 1] == '/'
    ensures '/' !in l.link ==> r == l.link
  {
    AfterLast(l.link, '/')
  }

  /** `edit`: each argument replaces the current value only when truthy. */
  function Edit(l: BusinessChatLink, message: Option<string>, title: Option<string>,
                entities: Option<seq<Nested>>): (r: EditRequest)
    ensures r.slug == Slug(l)
    ensures r.message == if Filled(message) then message.value else l.message
    ensures r.title == if Filled(title) then title else l.title
    ensures r.entities == if entities.Some? && |entities.value| > 0 then entities else l.entities
  {
    EditRequest(
      Slug(l),
      if Filled(message) then message.value else l.message,
      OrStr(title, l.title),
      if entities.Some? && |entities.value| > 0 then entities else l.entities)
  }

  /** An edit with no arguments re-sends the link as it is, and an edit that
      supplies every field sends exactly those values. */
  lemma EditDefaults(l: BusinessChatLink, m: string, t: string, e: seq<Nested>)
    requires m != "" && t != "" && |e| > 0
    ensures Edit(l, None, None, None) == EditRequest(Slug(l), l.message, l.title, l.entities)
    ensures Edit(l, Some(m), Some(t), Some(e)) == EditRequest(Slug(l), m, Some(t), Some(e))
  {
  }
}
