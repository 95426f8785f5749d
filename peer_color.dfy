/** `PeerColor._parse`: the accent colour of a user or chat, from either the
    plain palette variant or the collectible variant. */
module PeerColors {
  import opened Wrappers

  datatype RawPeerColor =
    | PeerColorPlain(color: Option<int>, backgroundEmojiId: Option<int>)
    | PeerColorCollectible(
        collectibleId: int, giftEmojiId: int, backgroundEmojiId: Option<int>, accentColor: int,
        colors: seq<int>, darkAccentColor: Option<int>, darkColors: Option<seq<int>>)
    | PeerColorUnknown

  datatype PeerColor = PeerColor(
    color: Option<int>,
    backgroundEmojiId: Option<int>,
    collectibleId: Option<int>,
    giftEmojiId: Option<int>,
    accentColor: Option<int>,
    colors: Option<seq<int>>,
    darkAccentColor: Option<int>,
    darkColors: Option<seq<int>>)

  /** `list(xs) if xs else None` on an optional list. */
  function ListOrNone(xs: Option<seq<int>>): (r: Option<seq<int>>)
    ensures r.Some? <==> xs.Some? && |xs.value| > 0
    ensures r.Some? ==> r == xs
  {
    if xs.Some? && |xs.value| > 0 then xs else None
  }

  function Parse(raw: Option<RawPeerColor>): (r: Option<PeerColor>)
    // None and unrecognised variants decode to None.
    ensures r.Some? <==> raw.Some? && !raw.value.PeerColorUnknown?
    // The plain variant sets only the palette and the background emoji.
    ensures r.Some? && raw.value.PeerColorPlain? ==>
      r.value == PeerColor(raw.value.color, raw.value.backgroundEmojiId, None, None, None, None, None, None)
    // The collectible variant sets the collectible fields; empty colour lists become None.
    ensures r.Some? && raw.value.PeerColorCollectible? ==>
      && r.value.color.None?
      && r.value.collectibleId == Some(raw.value.collectibleId)
      && r.value.giftEmojiId == Some(raw.value.giftEmojiId)
      && r.value.backgroundEmojiId == raw.value.backgroundEmojiId
      && r.value.accentColor == Some(raw.value.accentColor)
      && (r.value.colors.None? <==> |raw.value.colors| == 0)
      && (r.value.colors.Some? ==> r.value.colors.value == raw.value.colors)
      && r.value.darkAccentColor == raw.value.darkAccentColor
      && (r.value.darkColors.None? <==> raw.value.darkColors.None? || |raw.value.darkColors.value| == 0)
  {
    match raw
    case None => None
    case Some(PeerColorPlain(color, emoji)) =>
      Some(PeerColor(color, emoji, None, None, None, None, None, None))
    case Some(PeerColorCollectible(id, gift, emoji, accent, colors, darkAccent, darkColors)) =>
      Some(PeerColor(None, emoji, Some(id), Some(gift), Some(accent),
                     ListOrNone(Some(colors)), darkAccent, ListOrNone(darkColors)))
    case Some(PeerColorUnknown) => None
  }

  /** The wire value a decoded colour stands for: the collectible variant
      exactly when a collectible id is present. */
  function ToRaw(c: PeerColor): RawPeerColor {
    if c.collectibleId.Some? then
      PeerColorCollectible(c.collectibleId.value, c.giftEmojiId.GetOr(0), c.backgroundEmojiId,
                           c.accentColor.GetOr(0), Items(c.colors), c.darkAccentColor, c.darkColors)
    else PeerColorPlain(c.color, c.backgroundEmojiId)
  }

  /** Decoding keeps every field of a recognised colour: it reads back to the
      wire value, up to an empty dark palette, which decodes as an absent one. */
  lemma ParseRoundTrip(raw: RawPeerColor)
    requires !raw.PeerColorUnknown?
    requires raw.PeerColorCollectible? && raw.darkColors.Some? ==> |raw.darkColors.value| > 0
    ensures Parse(Some(raw)).Some? && ToRaw(Parse(Some(raw)).value) == raw
  {
  }
}
