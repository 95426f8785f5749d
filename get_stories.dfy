/** `get_stories`: one story id or a list of them, the stories the answer
    holds decoded, and a single story or a list handed back. */
module GetStories {
  import opened Wrappers
  import opened Raw
  import opened StoryItems

  /** The `story_ids` argument: one id, or a list. */
  datatype StoryIds = SingleId(id: int) | IdList(ids: seq<int>)

  /** One `stories.GetStoriesByID` answer. */
  datatype RawStoriesAnswer = RawStoriesAnswer(stories: seq<RawStory>, users: seq<RawUser>, chats: seq<RawChat>)

  /** What the method returns: the story itself, or a list. */
  datatype Stories = OneStory(story: StoryItem) | StoryList(stories: seq<StoryItem>)

  /** The ids sent: a single id wrapped into a one-element list. */
  function RequestIds(ids: StoryIds): (r: seq<int>)
    ensures ids.SingleId? ==> r == [ids.id]
    ensures ids.IdList? ==> r == ids.ids
  {
    match ids
    case SingleId(id) => [id]
    case IdList(xs) => xs
  }

  /** The decoded stories of an answer. The peer passed on is the resolved
      input peer, which the decoder does not attribute by. */
  function Decode(a: RawStoriesAnswer): Result<seq<StoryItem>> {
    ParseAll(a.stories, UserTable(a.users), ChatTable(a.chats), Some(ResolvedInputPeer))
  }

  /** `stories[0] if is_single and stories else types.List(stories)`. */
  function Shape(ids: StoryIds, stories: seq<StoryItem>): (r: Stories)
    ensures ids.SingleId? && |stories| > 0 ==> r == OneStory(stories[0])
    ensures ids.IdList? || |stories| == 0 ==> r == StoryList(stories)
  {
    if ids.SingleId? && |stories| > 0 then OneStory(stories[0]) else StoryList(stories)
  }

  /** The method as written: the request, the story loop over the answer,
      then the shape of the result. */
  method GetStories(server: seq<int> -> RawStoriesAnswer, ids: StoryIds)
    returns (sent: seq<int>, r: Result<Stories>)
    ensures sent == RequestIds(ids)
    ensures var d := Decode(server(sent));
      && (r.Err? <==> d.Err?)
      && (d.Err? ==> r.error == d.error)
      && (d.Ok? ==> r.value == Shape(ids, d.value))
  {
    sent := if ids.SingleId? then [ids.id] else ids.ids;
    var answer := server(sent);
    var users := UserTable(answer.users);
    var chats := ChatTable(answer.chats);
    var stories := ParseStories(answer.stories, users, chats, Some(ResolvedInputPeer));
    if stories.Err? {
      return sent, Err(stories.error);
    }
    r := Ok(if ids.SingleId? && |stories.value| > 0 then OneStory(stories.value[0]) else StoryList(stories.value));
  }

  /** A single id comes back as its story, or as an empty list when the
      answer decodes to no story; never as None. A list request always comes
      back as the list of decoded stories. */
  lemma ShapeLaws(ids: StoryIds, stories: seq<StoryItem>)
    ensures ids.SingleId? ==> (Shape(ids, stories).StoryList? <==> |stories| == 0)
    ensures ids.SingleId? && |stories| == 0 ==> Shape(ids, stories) == StoryList([])
    ensures ids.IdList? ==> Shape(ids, stories) == StoryList(stories)
  {
  }
}
