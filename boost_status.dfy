/** `BoostStatus._parse`: the boost level of a channel as the server reports
    it, with the prepaid giveaways and the user's own boost slots. */
module BoostStatuses {
  import opened Wrappers
  import opened Raw

  /** The share of premium subscribers; a float carried as it is. */
  datatype RawStatsPercent = RawStatsPercent(part: real, total: real)

  /** The wire status. The attributes read with `hasattr` are optional:
      None stands for an absent attribute. */
  datatype RawBoostsStatus = RawBoostsStatus(
    level: int, currentLevelBoosts: int, boosts: int,
    nextLevelBoosts: Option<int>,
    premiumAudience: Option<RawStatsPercent>,
    prepaidGiveaways: Option<seq<Blob>>,
    myBoost: bool,
    myBoostSlots: Option<seq<int>>,
    boostUrl: Option<string>)

  datatype BoostStatus = BoostStatus(
    level: int, currentLevelBoosts: int, boosts: int,
    nextLevelBoosts: Option<int>,
    premiumAudiencePercent: Option<real>,
    prepaidGiveaways: Option<seq<Nested>>,
    myBoost: Option<bool>,
    myBoostSlots: Option<seq<int>>,
    boostUrl: Option<string>)

  /** `BoostStatus._parse`: the counters copied; the prepaid giveaways
      decoded one by one in order, None when absent or empty; a false
      `my_boost` as None; the slots copied when there are any; the next
      level, the audience share and the link None when absent. */
  function Parse(s: RawBoostsStatus): (r: BoostStatus)
    ensures r.level == s.level && r.currentLevelBoosts == s.currentLevelBoosts && r.boosts == s.boosts
    ensures r.nextLevelBoosts == s.nextLevelBoosts && r.boostUrl == s.boostUrl
    ensures r.premiumAudiencePercent.Some? <==> s.premiumAudience.Some?
    ensures r.premiumAudiencePercent.Some? ==> r.premiumAudiencePercent.value == s.premiumAudience.value.part
    ensures r.prepaidGiveaways.None? <==> |Items(s.prepaidGiveaways)| == 0
    ensures r.prepaidGiveaways.Some? ==>
      && |r.prepaidGiveaways.value| == |s.prepaidGiveaways.value|
      && forall k :: 0 <= k < |s.prepaidGiveaways.value| ==>
           r.prepaidGiveaways.value[k] == Nested(PrepaidGiveawayParser, s.prepaidGiveaways.value[k])
    ensures Normal(r.myBoost) && Truthy(r.myBoost) == s.myBoost
    ensures r.myBoostSlots.None? <==> |Items(s.myBoostSlots)| == 0
    ensures r.myBoostSlots.Some? ==> r.myBoostSlots.value == s.myBoostSlots.value
  {
    BoostStatus(
      s.level, s.currentLevelBoosts, s.boosts, s.nextLevelBoosts,
      if s.premiumAudience.Some? then Some(s.premiumAudience.value.part) else None,
      NestedList(PrepaidGiveawayParser, Items(s.prepaidGiveaways)),
      OrNone(s.myBoost),
      NonEmpty(Items(s.myBoostSlots)),
      s.boostUrl)
  }

  /** A wire status that decodes to the given one. The audience total is
      not kept by the decoder, so it is rebuilt as zero. */
  function Unparse(v: BoostStatus): RawBoostsStatus {
    RawBoostsStatus(
      v.level, v.currentLevelBoosts, v.boosts, v.nextLevelBoosts,
      if v.premiumAudiencePercent.Some? then Some(RawStatsPercent(v.premiumAudiencePercent.value, 0.0)) else None,
      if v.prepaidGiveaways.Some? then Some(RawsOf(v.prepaidGiveaways.value)) else None,
      Truthy(v.myBoost), v.myBoostSlots, v.boostUrl)
  }

  /** Decoding is a normal form: a decoded status, put back on the wire,
      decodes to itself. Two wire statuses therefore decode alike exactly
      when they differ only where the decoder forgets (an absent list against
      an empty one, the audience total). */
  lemma ParseUnparse(s: RawBoostsStatus)
    ensures Parse(Unparse(Parse(s))) == Parse(s)
  {
    var g := Items(s.prepaidGiveaways);
    if g != [] {
      assert RawsOf(MapNested(PrepaidGiveawayParser, g)) == g;
    }
  }
}
