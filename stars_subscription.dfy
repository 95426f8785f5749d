/** `StarsSubscriptionPricing._parse` and `StarsSubscription._parse`: a
    recurring Stars payment to a bot or a channel. */
module StarsSubscriptions {
  import opened Wrappers
  import opened Raw
  import opened Owners
  import StarsAmounts

  datatype RawPricing = RawPricing(period: int, amount: int)

  datatype Pricing = Pricing(period: int, amount: StarsAmounts.StarsAmount)

  datatype RawStarsSubscription = RawStarsSubscription(
    id: string, peer: Peer, untilDate: int, pricing: Option<RawPricing>,
    canceled: bool, canRefulfill: bool, missingBalance: bool, botCanceled: bool,
    title: Option<string>, chatInviteHash: Option<string>, invoiceSlug: Option<string>)

  datatype StarsSubscription = StarsSubscription(
    id: string, peer: Option<Owner>, untilDate: Stamp, pricing: Option<Pricing>,
    title: Option<string>,
    isCanceled: Option<bool>, canRefulfill: Option<bool>, missingBalance: Option<bool>, botCanceled: Option<bool>,
    chatInviteHash: Option<string>, invoiceSlug: Option<string>)

  /** `StarsSubscriptionPricing._parse`: None for None; the amount is a whole
      number of Stars. */
  function ParsePricing(p: Option<RawPricing>): (r: Option<Pricing>)
    ensures r.Some? <==> p.Some?
    ensures r.Some? ==> && r.value.period == p.value.period
                        && r.value.amount.amount == p.value.amount && r.value.amount.nanos == 0
  {
    if p.None? then None else Some(Pricing(p.value.period, StarsAmounts.ParseInt(p.value.amount)))
  }

  /** What the pricing reads back as on the wire. */
  function UnparsePricing(p: Pricing): RawPricing {
    RawPricing(p.period, p.amount.amount)
  }

  /** Decoding a pricing loses nothing. */
  lemma PricingRoundTrip(p: RawPricing)
    ensures UnparsePricing(ParsePricing(Some(p)).value) == p
  {
  }

  /** `StarsSubscription._parse`: the peer by kind (raising only where the
      shared dispatch raises), the pricing, the false flags as None and the
      optional strings copied. */
  function Parse(s: RawStarsSubscription, users: map<int, RawUser>, chats: map<int, RawChat>)
    : (r: Result<StarsSubscription>)
    ensures r.Err? <==> ParseOwner(s.peer, users, chats).Err?
    ensures r.Err? ==> r.error == ParseOwner(s.peer, users, chats).error
    ensures r.Ok? ==> var v := r.value;
      && v.peer == ParseOwner(s.peer, users, chats).value
      && v.id == s.id && v.untilDate == StampOf(s.untilDate) && v.pricing == ParsePricing(s.pricing)
      && v.title == s.title && v.chatInviteHash == s.chatInviteHash && v.invoiceSlug == s.invoiceSlug
      && Normal(v.isCanceled) && Truthy(v.isCanceled) == s.canceled
      && Normal(v.canRefulfill) && Truthy(v.canRefulfill) == s.canRefulfill
      && Normal(v.missingBalance) && Truthy(v.missingBalance) == s.missingBalance
      && Normal(v.botCanceled) && Truthy(v.botCanceled) == s.botCanceled
  {
    var peer :- ParseOwner(s.peer, users, chats);
    Ok(StarsSubscription(
      s.id, peer, StampOf(s.untilDate), ParsePricing(s.pricing), s.title,
      OrNone(s.canceled), OrNone(s.canRefulfill), OrNone(s.missingBalance), OrNone(s.botCanceled),
      s.chatInviteHash, s.invoiceSlug))
  }
}
