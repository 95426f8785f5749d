/** `Boost._parse` and `Boost._parse_list`: one boost of a channel, and the
    boosts of one answer in order. */
module Boosts {
  import opened Wrappers
  import opened Raw
  import Users

  /** The raw boost fields the decoder reads. */
  datatype RawBoost = RawBoost(
    id: string,
    userId: Option<int>,
    date: int,
    expires: int,
    giveawayMsgId: Option<int>,
    stars: Option<int>,
    multiplier: Option<int>,
    gift: bool, giveaway: bool, unclaimed: bool)

  datatype Boost = Boost(
    id: string,
    user: Option<Users.User>,
    date: Stamp,
    expires: Stamp,
    giveawayMessageId: Option<int>,
    stars: Option<int>,
    multiplier: Option<int>,
    isGift: Option<bool>, isGiveaway: Option<bool>, isUnclaimed: Option<bool>)

  /** `Boost._parse`: the booster is decoded only when the user id is set,
      non-zero and listed; the three flags are normalised with `or None`. */
  function Parse(b: RawBoost, users: map<int, RawUser>): (r: Boost)
    ensures r.user.Some? <==> TruthyInt(b.userId) && b.userId.value in users && !users[b.userId.value].UserEmpty?
    ensures r.user.Some? ==> Some(r.user.value) == Users.Parse(Some(users[b.userId.value]))
    ensures r.id == b.id && r.date == StampOf(b.date) && r.expires == StampOf(b.expires)
    ensures r.giveawayMessageId == b.giveawayMsgId && r.stars == b.stars && r.multiplier == b.multiplier
    ensures Normal(r.isGift) && Normal(r.isGiveaway) && Normal(r.isUnclaimed)
    ensures Truthy(r.isGift) == b.gift && Truthy(r.isGiveaway) == b.giveaway && Truthy(r.isUnclaimed) == b.unclaimed
  {
    var user := if TruthyInt(b.userId) && b.userId.value in users then Users.Parse(Some(users[b.userId.value])) else None;
    Boost(b.id, user, StampOf(b.date), StampOf(b.expires), b.giveawayMsgId, b.stars, b.multiplier,
          OrNone(b.gift), OrNone(b.giveaway), OrNone(b.unclaimed))
  }

  /** `Boost._parse_list`: every boost decoded, in order, none dropped. */
  function ParseList(bs: seq<RawBoost>, users: map<int, RawUser>): (r: seq<Boost>)
    ensures |r| == |bs|
    ensures forall k :: 0 <= k < |bs| ==> r[k] == Parse(bs[k], users)
  {
    if bs == [] then [] else [Parse(bs[0], users)] + ParseList(bs[1..], users)
  }

  /** The decoded boost keeps enough to rebuild the raw one, except the user
      id of a boost whose booster was not decoded. */
  function Unparse(b: Boost, userId: Option<int>): (r: RawBoost)
    ensures r.id == b.id && r.userId == userId
  {
    RawBoost(b.id, userId, b.date.raw.GetOr(0), b.expires.raw.GetOr(0), b.giveawayMessageId, b.stars, b.multiplier,
             Truthy(b.isGift), Truthy(b.isGiveaway), Truthy(b.isUnclaimed))
  }

  lemma ParseRoundTrip(b: RawBoost, users: map<int, RawUser>)
    ensures Unparse(Parse(b, users), b.userId) == b
  {
    OrNoneRoundTrip(b.gift, None);
    OrNoneRoundTrip(b.giveaway, None);
    OrNoneRoundTrip(b.unclaimed, None);
  }
}
