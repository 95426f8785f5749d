/** `PaidMedia._parse`: the price of a paid post and the media it unlocks
    (or the blurred previews shown before purchase). */
module PaidMedias {
  import opened Wrappers
  import opened Raw

  /** One entry of `extended_media` on the wire: the bought media itself, a
      preview, or a kind this decoder does not know. */
  datatype RawExtendedMedia =
    | MessageExtendedMedia(media: RawMessageMedia)
    | MessageExtendedMediaPreview(w: Option<int>, h: Option<int>, videoDuration: Option<int>)
    | OtherExtendedMedia

  datatype RawPaidMedia = RawPaidMedia(starsAmount: int, extendedMedia: seq<RawExtendedMedia>)

  /** One decoded entry: the call to the photo, video or document decoder it
      was handed to (with its arguments), or the preview dictionary
      `{"type": "preview", "w": …, "h": …, "video_duration": …}`. */
  datatype PaidItem =
    | PaidPhoto(photo: Option<Blob>, ttlSeconds: Option<int>)
    | PaidVideo(document: Blob, video: Blob, fileName: Option<string>, ttlSeconds: Option<int>)
    | PaidDocument(document: Blob, fileName: Option<string>)
    | PaidPreview(w: Option<int>, h: Option<int>, videoDuration: Option<int>)

  datatype PaidMedia = PaidMedia(starsAmount: int, extendedMedia: Option<seq<PaidItem>>)

  /** The body of the `for ext_media in paid_media.extended_media` loop for
      one entry: what it appends, or None when it appends nothing (a media
      kind other than photo or document, a document that is not a
      `Document`, or an unknown entry kind). A document with a video
      attribute goes to the video decoder, any other document to the
      document decoder; both receive the last file-name attribute's name. */
  function ParseItem(e: RawExtendedMedia): (r: Option<PaidItem>)
    ensures r.None? <==>
      || e.OtherExtendedMedia?
      || (e.MessageExtendedMedia? && e.media.OtherMedia?)
      || (e.MessageExtendedMedia? && e.media.MessageMediaDocument?
          && (e.media.document.None? || e.media.document.value.DocumentEmpty?))
    ensures e.MessageExtendedMediaPreview? ==> r == Some(PaidPreview(e.w, e.h, e.videoDuration))
    ensures e.MessageExtendedMedia? && e.media.MessageMediaPhoto? ==>
      r == Some(PaidPhoto(e.media.photo, e.media.ttlSeconds))
    ensures r.Some? && r.value.PaidVideo? ==>
      && e.MessageExtendedMedia? && e.media.MessageMediaDocument?
      && e.media.document == Some(Document(r.value.document, e.media.document.value.attributes))
      && LastVideo(e.media.document.value.attributes) == Some(r.value.video)
      && r.value.fileName == LastFileName(e.media.document.value.attributes)
      && r.value.ttlSeconds == e.media.ttlSeconds
    ensures r.Some? && r.value.PaidDocument? ==>
      && e.MessageExtendedMedia? && e.media.MessageMediaDocument?
      && e.media.document == Some(Document(r.value.document, e.media.document.value.attributes))
      && LastVideo(e.media.document.value.attributes).None?
      && r.value.fileName == LastFileName(e.media.document.value.attributes)
  {
    match e
    case MessageExtendedMedia(MessageMediaPhoto(photo, ttl)) => Some(PaidPhoto(photo, ttl))
    case MessageExtendedMedia(MessageMediaDocument(Some(Document(doc, attrs)), ttl)) =>
      var fileName := LastFileName(attrs);
      var video := LastVideo(attrs);
      if video.Some? then Some(PaidVideo(doc, video.value, fileName, ttl))
      else Some(PaidDocument(doc, fileName))
    case MessageExtendedMediaPreview(w, h, duration) => Some(PaidPreview(w, h, duration))
    case _ => None
  }

  /** The decoded entries, in order, those the loop skips left out. */
  function Items(es: seq<RawExtendedMedia>): seq<PaidItem> {
    FilterMap(ParseItem, es)
  }

  /** `PaidMedia._parse`: None for no paid media; otherwise the price and
      the decoded entries, the list being None when nothing was appended. */
  function Parse(p: Option<RawPaidMedia>): (r: Option<PaidMedia>)
    ensures r.Some? <==> p.Some?
    ensures r.Some? ==> r.value.starsAmount == p.value.starsAmount
    ensures r.Some? ==> r.value.extendedMedia == NonEmpty(Items(p.value.extendedMedia))
  {
    if p.None? then None
    else Some(PaidMedia(p.value.starsAmount, NonEmpty(Items(p.value.extendedMedia))))
  }

  /** The decoder as written: the entry loop appending to `extended_media`. */
  method ParsePaidMedia(p: Option<RawPaidMedia>) returns (r: Option<PaidMedia>)
    ensures r == Parse(p)
  {
    if p.None? {
      return None;
    }
    var es := p.value.extendedMedia;
    var extended: seq<PaidItem> := [];
    var i := 0;
    while i < |es|
      invariant 0 <= i <= |es|
      invariant extended == Items(es[..i])
      decreases |es| - i
    {
      FilterMapStep(ParseItem, es, i);
      match es[i] {
        case MessageExtendedMedia(media) =>
          match media {
            case MessageMediaPhoto(photo, ttl) =>
              extended := extended + [PaidPhoto(photo, ttl)];
            case MessageMediaDocument(doc, ttl) =>
              if doc.Some? && doc.value.Document? {
                var fileName := LastFileName(doc.value.attributes);
                var video := LastVideo(doc.value.attributes);
                if video.Some? {
                  extended := extended + [PaidVideo(doc.value.blob, video.value, fileName, ttl)];
                } else {
                  extended := extended + [PaidDocument(doc.value.blob, fileName)];
                }
              }
            case OtherMedia =>
          }
        case MessageExtendedMediaPreview(w, h, duration) =>
          extended := extended + [PaidPreview(w, h, duration)];
        case OtherExtendedMedia =>
      }
      i := i + 1;
    }
    assert es[..i] == es;
    return Some(PaidMedia(p.value.starsAmount, NonEmpty(extended)));
  }

  /** What survives the loop: photos and previews are never dropped, so a
      post made only of them keeps one entry per raw entry, in order; the
      list is None exactly when no entry decodes; and every kept entry was
      decoded from some raw entry. */
  lemma {:induction false} ItemsKept(p: RawPaidMedia)
    ensures var m := Parse(Some(p)).value.extendedMedia;
      m.None? <==> forall k :: 0 <= k < |p.extendedMedia| ==> ParseItem(p.extendedMedia[k]).None?
    ensures var m := Items(p.extendedMedia);
      forall y :: y in m ==> exists e :: e in p.extendedMedia && ParseItem(e) == Some(y)
    ensures (forall k :: 0 <= k < |p.extendedMedia| ==>
               || p.extendedMedia[k].MessageExtendedMediaPreview?
               || (p.extendedMedia[k].MessageExtendedMedia? && p.extendedMedia[k].media.MessageMediaPhoto?))
      ==> |Items(p.extendedMedia)| == |p.extendedMedia|
  {
    var es := p.extendedMedia;
    FilterMapLaws(ParseItem, es);
    if exists k :: 0 <= k < |es| && ParseItem(es[k]).Some? {
      var k :| 0 <= k < |es| && ParseItem(es[k]).Some?;
      FilterMapKeeps(ParseItem, es, k);
    }
  }
}
