/** `StarGiftAttributeRarity._parse`, `StarGiftAttribute._parse` and
    `_parse_list`: the backdrop, model, pattern and original-details
    attributes of a collectible gift. */
module StarGiftAttributes {
  import opened Wrappers
  import opened Raw

  /** The rarity kinds on the wire; `OtherRarity` is any other (the generic one). */
  datatype RarityKind = Uncommon | Rare | Epic | Legendary | OtherRarity

  datatype RawRarity = RawRarity(kind: RarityKind, permille: int)

  datatype Rarity = Rarity(name: string, permille: int)

  datatype RawAttribute =
    | StarGiftAttributeBackdrop(name: string, rarity: Option<RawRarity>, backdropId: int,
                                centerColor: int, edgeColor: int, patternColor: int, textColor: int)
    | StarGiftAttributeModel(name: string, rarity: Option<RawRarity>, document: Option<Blob>, modelId: Option<int>)
    | StarGiftAttributePattern(name: string, rarity: Option<RawRarity>, document: Option<Blob>, patternId: Option<int>)
    | StarGiftAttributeOriginalDetails(senderId: Option<Peer>, recipientId: Peer, date: int, message: Option<Blob>)
    | OtherAttribute(blob: Blob)

  datatype StarGiftAttribute = StarGiftAttribute(
    kind: string,
    name: Option<string>,
    rarity: Option<Rarity>,
    backdropId: Option<int>, centerColor: Option<int>, edgeColor: Option<int>,
    patternColor: Option<int>, textColor: Option<int>,
    sticker: Option<Nested>,
    modelId: Option<int>,
    patternId: Option<int>,
    document: Option<Nested>,
    senderId: Option<int>,
    recipientId: Option<int>,
    date: Option<Stamp>,
    message: Option<Blob>)

  function RarityName(k: RarityKind): (s: string)
    ensures s == "unknown" <==> k == OtherRarity
  {
    match k
    case Uncommon => "uncommon"
    case Rare => "rare"
    case Epic => "epic"
    case Legendary => "legendary"
    case OtherRarity => "unknown"
  }

  /** `StarGiftAttributeRarity._parse`: None for None; the name of a known
      kind or "unknown", with the permille kept. */
  function ParseRarity(r: Option<RawRarity>): (out: Option<Rarity>)
    ensures out.Some? <==> r.Some?
    ensures out.Some? ==> out.value == Rarity(RarityName(r.value.kind), r.value.permille)
  {
    if r.None? then None else Some(Rarity(RarityName(r.value.kind), r.value.permille))
  }

  /** The rarity names tell the kinds apart. */
  lemma RarityNamesDistinct(a: RarityKind, b: RarityKind)
    ensures RarityName(a) == RarityName(b) <==> a == b
  {
  }

  function Empty(kind: string): StarGiftAttribute {
    StarGiftAttribute(kind, None, None, None, None, None, None, None, None, None, None, None, None, None, None, None)
  }

  /** `StarGiftAttribute._parse`: the four kinds become "backdrop", "model",
      "pattern" and "original_details", each with only its own fields set;
      anything else is None. */
  function Parse(a: RawAttribute): (r: Option<StarGiftAttribute>)
    ensures r.None? <==> a.OtherAttribute?
    ensures a.StarGiftAttributeBackdrop? ==> r == Some(Empty("backdrop").(
      name := Some(a.name), rarity := ParseRarity(a.rarity), backdropId := Some(a.backdropId),
      centerColor := Some(a.centerColor), edgeColor := Some(a.edgeColor),
      patternColor := Some(a.patternColor), textColor := Some(a.textColor)))
    ensures a.StarGiftAttributeModel? ==>
      && r.value.kind == "model"
      && (r.value.sticker.Some? <==> a.document.Some?)
      && (a.document.Some? ==> r.value.sticker.value == Nested(StickerParser, a.document.value))
      && r.value.modelId == a.modelId
    ensures a.StarGiftAttributePattern? ==>
      && r.value.kind == "pattern"
      && (r.value.document.Some? <==> a.document.Some?)
      && (a.document.Some? ==> r.value.document.value == Nested(DocumentParser, a.document.value))
      && r.value.patternId == a.patternId
    ensures a.StarGiftAttributeOriginalDetails? ==>
      && r.value.kind == "original_details"
      && r.value.senderId == RawPeerId(a.senderId) && r.value.recipientId == RawPeerId(Some(a.recipientId))
      && r.value.date == Some(StampOf(a.date)) && r.value.message == a.message
      && r.value.name.None? && r.value.rarity.None?
    ensures r.Some? && !a.StarGiftAttributeOriginalDetails? ==> r.value.name == Some(a.name) && r.value.rarity == ParseRarity(a.rarity)
    ensures r.Some? && !a.StarGiftAttributeModel? ==> r.value.sticker.None? && r.value.modelId.None?
    ensures r.Some? && !a.StarGiftAttributePattern? ==> r.value.document.None? && r.value.patternId.None?
    ensures r.Some? && !a.StarGiftAttributeOriginalDetails? ==> r.value.senderId.None? && r.value.recipientId.None?
    ensures r.Some? && !a.StarGiftAttributeBackdrop? ==>
      && r.value.backdropId.None? && r.value.centerColor.None? && r.value.edgeColor.None?
      && r.value.patternColor.None? && r.value.textColor.None?
    ensures r.Some? && !a.StarGiftAttributeOriginalDetails? ==> r.value.date.None? && r.value.message.None?
  {
    match a
    case StarGiftAttributeBackdrop(name, rarity, backdropId, center, edge, pattern, text) =>
      Some(Empty("backdrop").(name := Some(name), rarity := ParseRarity(rarity), backdropId := Some(backdropId),
                              centerColor := Some(center), edgeColor := Some(edge),
                              patternColor := Some(pattern), textColor := Some(text)))
    case StarGiftAttributeModel(name, rarity, document, modelId) =>
      Some(Empty("model").(name := Some(name), rarity := ParseRarity(rarity),
                           sticker := NestedOpt(StickerParser, document), modelId := modelId))
    case StarGiftAttributePattern(name, rarity, document, patternId) =>
      Some(Empty("pattern").(name := Some(name), rarity := ParseRarity(rarity),
                             patternId := patternId, document := NestedOpt(DocumentParser, document)))
    case StarGiftAttributeOriginalDetails(sender, recipient, date, message) =>
      Some(Empty("original_details").(senderId := RawPeerId(sender), recipientId := RawPeerId(Some(recipient)),
                                      date := Some(StampOf(date)), message := message))
    case OtherAttribute(_) => None
  }

  /** `_parse_list` as a value: None for an empty input; otherwise the
      attributes that decode, in order, or None when none does. */
  function ParseAll(attrs: seq<RawAttribute>): (r: Option<seq<StarGiftAttribute>>)
    ensures |attrs| == 0 ==> r.None?
    ensures r.Some? ==> |r.value| > 0 && r.value == FilterMap(Parse, attrs)
    ensures r.None? ==> FilterMap(Parse, attrs) == []
  {
    if |attrs| == 0 then None else NonEmpty(FilterMap(Parse, attrs))
  }

  /** The loop as written: each attribute decoded and kept when it decodes. */
  method ParseList(attrs: seq<RawAttribute>) returns (r: Option<seq<StarGiftAttribute>>)
    ensures r == ParseAll(attrs)
  {
    if |attrs| == 0 {
      return None;
    }
    var result: seq<StarGiftAttribute> := [];
    var i := 0;
    while i < |attrs|
      invariant 0 <= i <= |attrs|
      invariant result == FilterMap(Parse, attrs[..i])
      decreases |attrs| - i
    {
      var parsed := Parse(attrs[i]);
      FilterMapStep(Parse, attrs, i);
      if parsed.Some? {
        result := result + [parsed.value];
      }
      i := i + 1;
    }
    assert attrs[..i] == attrs;
    r := if |result| > 0 then Some(result) else None;
  }

  /** The list keeps exactly the recognised attributes: a list of only
      recognised kinds decodes element for element. */
  lemma ParseAllRecognised(attrs: seq<RawAttribute>)
    requires |attrs| > 0 && forall k :: 0 <= k < |attrs| ==> !attrs[k].OtherAttribute?
    ensures ParseAll(attrs).Some? && |ParseAll(attrs).value| == |attrs|
    ensures forall k :: 0 <= k < |attrs| ==> Some(ParseAll(attrs).value[k]) == Parse(attrs[k])
  {
    FilterMapLaws(Parse, attrs);
  }
}
