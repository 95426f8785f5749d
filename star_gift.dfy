/** `StarGift._parse` and `StarGiftUnique._parse`: a gift that can be sent,
    and a collectible (upgraded) gift. */
module StarGifts {
  import opened Wrappers
  import opened Raw

  datatype RawStarGift = RawStarGift(
    id: int, sticker: Option<Blob>, stars: int, convertStars: int,
    limited: bool, soldOut: bool, birthday: bool, canUpgrade: bool, requirePremium: bool,
    availabilityRemains: Option<int>, availabilityTotal: Option<int>,
    firstSaleDate: Option<int>, lastSaleDate: Option<int>,
    upgradeStars: Option<int>, title: Option<string>)

  datatype StarGift = StarGift(
    id: int, sticker: Option<Nested>, stars: int, convertStars: int,
    limited: Option<bool>, soldOut: Option<bool>, birthday: Option<bool>,
    canUpgrade: Option<bool>, requirePremium: Option<bool>,
    availabilityRemains: Option<int>, availabilityTotal: Option<int>,
    firstSaleDate: Stamp, lastSaleDate: Stamp,
    upgradeStars: Option<int>, title: Option<string>)

  /** `StarGift._parse`: the sticker only when present, the five flags with
      `or None`, every other field copied. */
  function Parse(g: RawStarGift): (r: StarGift)
    ensures r.sticker.Some? <==> g.sticker.Some?
    ensures r.sticker.Some? ==> r.sticker.value == Nested(StickerParser, g.sticker.value)
    ensures Normal(r.limited) && Normal(r.soldOut) && Normal(r.birthday) && Normal(r.canUpgrade) && Normal(r.requirePremium)
    ensures Truthy(r.limited) == g.limited && Truthy(r.soldOut) == g.soldOut && Truthy(r.birthday) == g.birthday
    ensures Truthy(r.canUpgrade) == g.canUpgrade && Truthy(r.requirePremium) == g.requirePremium
    ensures r.id == g.id && r.stars == g.stars && r.convertStars == g.convertStars
    ensures r.availabilityRemains == g.availabilityRemains && r.availabilityTotal == g.availabilityTotal
    ensures r.firstSaleDate == Stamp(g.firstSaleDate) && r.lastSaleDate == Stamp(g.lastSaleDate)
    ensures r.upgradeStars == g.upgradeStars && r.title == g.title
  {
    StarGift(g.id, NestedOpt(StickerParser, g.sticker), g.stars, g.convertStars,
             OrNone(g.limited), OrNone(g.soldOut), OrNone(g.birthday), OrNone(g.canUpgrade), OrNone(g.requirePremium),
             g.availabilityRemains, g.availabilityTotal, Stamp(g.firstSaleDate), Stamp(g.lastSaleDate),
             g.upgradeStars, g.title)
  }

  /** The raw gift a decoded one stands for. */
  function Unparse(s: StarGift): RawStarGift {
    RawStarGift(s.id, if s.sticker.Some? then Some(s.sticker.value.raw) else None, s.stars, s.convertStars,
                Truthy(s.limited), Truthy(s.soldOut), Truthy(s.birthday), Truthy(s.canUpgrade), Truthy(s.requirePremium),
                s.availabilityRemains, s.availabilityTotal, s.firstSaleDate.raw, s.lastSaleDate.raw,
                s.upgradeStars, s.title)
  }

  /** Decoding a gift loses nothing. */
  lemma ParseRoundTrip(g: RawStarGift)
    ensures Unparse(Parse(g)) == g
  {
    OrNoneRoundTrip(g.limited, None);
    OrNoneRoundTrip(g.soldOut, None);
    OrNoneRoundTrip(g.birthday, None);
    OrNoneRoundTrip(g.canUpgrade, None);
    OrNoneRoundTrip(g.requirePremium, None);
  }

  datatype RawStarGiftUnique = RawStarGiftUnique(
    id: int, giftId: int, title: string, slug: string, num: int,
    availabilityIssued: int, availabilityTotal: int,
    requirePremium: bool, burned: bool, crafted: bool,
    ownerId: Option<Peer>, ownerName: Option<string>, ownerAddress: Option<string>, giftAddress: Option<string>)

  datatype StarGiftUnique = StarGiftUnique(
    id: int, giftId: int, title: string, slug: string, num: int,
    availabilityIssued: int, availabilityTotal: int,
    requirePremium: Option<bool>, burned: Option<bool>, crafted: Option<bool>,
    ownerId: Option<int>, ownerName: Option<string>, ownerAddress: Option<string>, giftAddress: Option<string>)

  /** `StarGiftUnique._parse`: the owner id is the bare id of the owner peer
      (None without one), the three flags use `or None`, the rest is copied. */
  function ParseUnique(g: RawStarGiftUnique): (r: StarGiftUnique)
    ensures r.ownerId.Some? <==> g.ownerId.Some?
    ensures r.ownerId == RawPeerId(g.ownerId)
    ensures Normal(r.requirePremium) && Normal(r.burned) && Normal(r.crafted)
    ensures Truthy(r.requirePremium) == g.requirePremium && Truthy(r.burned) == g.burned && Truthy(r.crafted) == g.crafted
    ensures r.id == g.id && r.giftId == g.giftId && r.title == g.title && r.slug == g.slug && r.num == g.num
    ensures r.availabilityIssued == g.availabilityIssued && r.availabilityTotal == g.availabilityTotal
    ensures r.ownerName == g.ownerName && r.ownerAddress == g.ownerAddress && r.giftAddress == g.giftAddress
  {
    var ownerId := if g.ownerId.Some? then RawPeerId(g.ownerId) else None;
    StarGiftUnique(g.id, g.giftId, g.title, g.slug, g.num, g.availabilityIssued, g.availabilityTotal,
                   OrNone(g.requirePremium), OrNone(g.burned), OrNone(g.crafted),
                   ownerId, g.ownerName, g.ownerAddress, g.giftAddress)
  }

  /** Two collectibles that differ only in which kind of peer owns them
      decode alike: the owner id keeps the bare id, not the peer kind. */
  lemma OwnerKindForgotten(g: RawStarGiftUnique, id: int)
    requires g.ownerId == Some(PeerUser(id))
    ensures ParseUnique(g) == ParseUnique(g.(ownerId := Some(PeerChannel(id))))
    ensures ParseUnique(g) == ParseUnique(g.(ownerId := Some(PeerChat(id))))
  {
  }
}
