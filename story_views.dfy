/** `StoryViews._parse`: the view statistics of a story. */
module Views {
  import opened Wrappers
  import opened Raw

  /** A raw view record; each reaction entry wraps the reaction itself. */
  datatype RawStoryViews = RawStoryViews(
    viewsCount: int,
    hasViewers: bool,
    forwardsCount: Option<int>,
    reactions: seq<Blob>,
    reactionsCount: Option<int>,
    recentViewers: seq<int>)

  datatype StoryViews = StoryViews(
    viewsCount: int,
    hasViewers: Option<bool>,
    forwardsCount: Option<int>,
    reactions: Option<seq<Nested>>,
    reactionsCount: Option<int>,
    recentViewers: Option<seq<int>>)

  /** Counts copied, one reaction per raw reaction in order (None when
      there are none), `has_viewers` and `recent_viewers` normalised. */
  function Parse(v: RawStoryViews): (r: StoryViews)
    ensures r.viewsCount == v.viewsCount && r.forwardsCount == v.forwardsCount && r.reactionsCount == v.reactionsCount
    ensures r.reactions.None? <==> |v.reactions| == 0
    ensures Items(r.reactions) == MapNested(ReactionParser, v.reactions)
    ensures Normal(r.hasViewers) && Truthy(r.hasViewers) == v.hasViewers
    ensures r.recentViewers.None? <==> |v.recentViewers| == 0
    ensures Items(r.recentViewers) == v.recentViewers
  {
    StoryViews(v.viewsCount, OrNone(v.hasViewers), v.forwardsCount,
               NestedList(ReactionParser, v.reactions), v.reactionsCount, NonEmpty(v.recentViewers))
  }

  /** `StoryViews._parse(v) if v else None`. */
  function ParseOpt(v: Option<RawStoryViews>): (r: Option<StoryViews>)
    ensures r.Some? <==> v.Some?
    ensures r.Some? ==> r.value == Parse(v.value)
  {
    if v.Some? then Some(Parse(v.value)) else None
  }

  /** The raw record a decoded one stands for: the view counts and the viewer
      list come back unchanged. */
  function Unparse(s: StoryViews, reactions: seq<Blob>): (v: RawStoryViews)
    ensures v.reactions == reactions
  {
    RawStoryViews(s.viewsCount, Truthy(s.hasViewers), s.forwardsCount, reactions, s.reactionsCount, Items(s.recentViewers))
  }

  lemma ParseRoundTrip(v: RawStoryViews)
    ensures Unparse(Parse(v), v.reactions) == v
  {
    OrNoneRoundTrip(v.hasViewers, None);
    NonEmptyRoundTrip(v.recentViewers);
  }
}
