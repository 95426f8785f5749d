/** `StarGiftAuctionState._parse`: the state of a gift auction, as one of
    three wire variants. */
module StarGiftAuctionStates {
  import opened Wrappers
  import opened Raw

  datatype RawAuctionState =
    | StarGiftAuctionState(
        version: int, startDate: int, endDate: int, minBidAmount: int,
        bidLevels: seq<Blob>, topBidders: seq<int>, nextRoundAt: int,
        lastGiftNum: int, giftsLeft: int, currentRound: int, totalRounds: int,
        rounds: seq<Blob>)
    | StarGiftAuctionStateFinished(
        startDate: int, endDate: int, averagePrice: int,
        listedCount: Option<int>, fragmentListedCount: Option<int>, fragmentListedUrl: Option<string>)
    | StarGiftAuctionStateNotModified
    | OtherAuctionState

  datatype AuctionState = AuctionState(
    kind: string,
    version: Option<int>,
    startDate: Option<Stamp>, endDate: Option<Stamp>,
    minBidAmount: Option<int>,
    bidLevels: Option<seq<Nested>>,
    topBidders: Option<seq<int>>,
    nextRoundAt: Option<Stamp>,
    lastGiftNum: Option<int>, giftsLeft: Option<int>, currentRound: Option<int>, totalRounds: Option<int>,
    rounds: Option<seq<Nested>>,
    averagePrice: Option<int>, listedCount: Option<int>,
    fragmentListedCount: Option<int>, fragmentListedUrl: Option<string>)

  /** The state with only its type set. */
  function Bare(kind: string): AuctionState {
    AuctionState(kind, None, None, None, None, None, None, None, None, None, None, None, None, None, None, None, None)
  }

  /** The fields only an active auction fills in are all None. */
  predicate NoActiveFields(v: AuctionState) {
    && v.version.None? && v.minBidAmount.None? && v.bidLevels.None? && v.topBidders.None?
    && v.nextRoundAt.None? && v.lastGiftNum.None? && v.giftsLeft.None?
    && v.currentRound.None? && v.totalRounds.None? && v.rounds.None?
  }

  /** The fields only a finished auction fills in are all None. */
  predicate NoFinishedFields(v: AuctionState) {
    && v.averagePrice.None? && v.listedCount.None?
    && v.fragmentListedCount.None? && v.fragmentListedUrl.None?
  }

  /** `StarGiftAuctionState._parse`: None for no state and for a variant it
      does not know; "not_modified" carries nothing else; "finished" only
      the dates and the listing figures; "active" the version, dates, bid
      levels and rounds (empty lists read as None) and the counters. */
  function Parse(s: Option<RawAuctionState>): (r: Option<AuctionState>)
    ensures r.Some? <==> s.Some? && !s.value.OtherAuctionState?
    ensures r.Some? && s.value.StarGiftAuctionStateNotModified? ==> r.value == Bare("not_modified")
    ensures r.Some? && s.value.StarGiftAuctionStateFinished? ==> var v := r.value; var f := s.value;
      && v.kind == "finished" && NoActiveFields(v)
      && v.startDate == Some(StampOf(f.startDate)) && v.endDate == Some(StampOf(f.endDate))
      && v.averagePrice == Some(f.averagePrice) && v.listedCount == f.listedCount
      && v.fragmentListedCount == f.fragmentListedCount && v.fragmentListedUrl == f.fragmentListedUrl
    ensures r.Some? && s.value.StarGiftAuctionState? ==> var v := r.value; var a := s.value;
      && v.kind == "active" && NoFinishedFields(v)
      && v.version == Some(a.version) && v.minBidAmount == Some(a.minBidAmount)
      && v.startDate == Some(StampOf(a.startDate)) && v.endDate == Some(StampOf(a.endDate))
      && v.nextRoundAt == Some(StampOf(a.nextRoundAt))
      && v.bidLevels == NestedList(BidLevelParser, a.bidLevels)
      && v.rounds == NestedList(RoundParser, a.rounds)
      && v.topBidders == Some(a.topBidders)
      && v.lastGiftNum == Some(a.lastGiftNum) && v.giftsLeft == Some(a.giftsLeft)
      && v.currentRound == Some(a.currentRound) && v.totalRounds == Some(a.totalRounds)
  {
    match s
    case None => None
    case Some(StarGiftAuctionStateNotModified) => Some(Bare("not_modified"))
    case Some(StarGiftAuctionStateFinished(start, end, price, listed, fragmentListed, fragmentUrl)) =>
      Some(Bare("finished").(
        startDate := Some(StampOf(start)), endDate := Some(StampOf(end)),
        averagePrice := Some(price), listedCount := listed,
        fragmentListedCount := fragmentListed, fragmentListedUrl := fragmentUrl))
    case Some(StarGiftAuctionState(version, start, end, minBid, levels, bidders, nextRound,
                                   lastGift, left, current, total, rounds)) =>
      Some(Bare("active").(
        version := Some(version), startDate := Some(StampOf(start)), endDate := Some(StampOf(end)),
        minBidAmount := Some(minBid), bidLevels := NestedList(BidLevelParser, levels),
        topBidders := Some(bidders), nextRoundAt := Some(StampOf(nextRound)),
        lastGiftNum := Some(lastGift), giftsLeft := Some(left), currentRound := Some(current),
        totalRounds := Some(total), rounds := NestedList(RoundParser, rounds)))
    case Some(OtherAuctionState) => None
  }

  /** The `type` string tells the three variants apart: two decoded states
      have the same type exactly when they came from the same variant. */
  lemma KindsDistinct(a: RawAuctionState, b: RawAuctionState)
    requires Parse(Some(a)).Some? && Parse(Some(b)).Some?
    ensures Parse(Some(a)).value.kind == Parse(Some(b)).value.kind <==>
      (a.StarGiftAuctionState? <==> b.StarGiftAuctionState?)
      && (a.StarGiftAuctionStateFinished? <==> b.StarGiftAuctionStateFinished?)
  {
  }
}
