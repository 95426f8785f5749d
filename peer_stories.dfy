/** `PeerStories._parse`: the active stories of one user, channel or group. */
module PeerStoryLists {
  import opened Wrappers
  import opened Raw
  import Users
  import Chats
  import opened StoryItems
  import opened Owners

  datatype RawPeerStories = RawPeerStories(peer: Peer, stories: seq<RawStory>, maxReadId: Option<int>)

  datatype PeerStories = PeerStories(peer: Option<Owner>, stories: Option<seq<StoryItem>>, maxReadId: Option<int>)

  /** `PeerStories._parse` as a whole: the owner first, then every
      `StoryItem` entry decoded with the container's peer and the same
      tables; an empty list is None and `max_read_id` is copied. */
  function Parse(ps: RawPeerStories, users: map<int, RawUser>, chats: map<int, RawChat>): (r: Result<PeerStories>)
    ensures ParseOwner(ps.peer, users, chats).Err? ==> r == Err(ParseOwner(ps.peer, users, chats).error)
    ensures ParseOwner(ps.peer, users, chats).Ok? ==>
      var s := ParseAll(ps.stories, users, chats, Some(WirePeer(ps.peer)));
      && (r.Err? <==> s.Err?)
      && (s.Err? ==> r.error == s.error)
      && (s.Ok? ==> r == Ok(PeerStories(ParseOwner(ps.peer, users, chats).value, NonEmpty(s.value), ps.maxReadId)))
  {
    var owner :- ParseOwner(ps.peer, users, chats);
    var stories :- ParseAll(ps.stories, users, chats, Some(WirePeer(ps.peer)));
    Ok(PeerStories(owner, NonEmpty(stories), ps.maxReadId))
  }

  /** The decoder as written: the owner dispatch, then the story loop. */
  method ParsePeerStories(ps: RawPeerStories, users: map<int, RawUser>, chats: map<int, RawChat>)
    returns (r: Result<PeerStories>)
    ensures r == Parse(ps, users, chats)
  {
    var owner := ParseOwner(ps.peer, users, chats);
    if owner.Err? {
      return Err(owner.error);
    }
    var stories := ParseStories(ps.stories, users, chats, Some(WirePeer(ps.peer)));
    if stories.Err? {
      return Err(stories.error);
    }
    r := Ok(PeerStories(owner.value, NonEmpty(stories.value), ps.maxReadId));
  }

  /** Which stories survive: exactly the full items, each decoded with the
      container's peer, in order. */
  lemma StoriesKept(ps: RawPeerStories, users: map<int, RawUser>, chats: map<int, RawChat>)
    requires Parse(ps, users, chats).Ok?
    ensures var items := ItemsOf(ps.stories); var out := Items(Parse(ps, users, chats).value.stories);
      && |out| == |items|
      && forall k :: 0 <= k < |items| ==> StoryItems.Parse(items[k], users, chats, Some(WirePeer(ps.peer))) == Ok(out[k])
  {
    var f := Decoder(users, chats, Some(WirePeer(ps.peer)));
    TraverseLaws(f, ItemsOf(ps.stories));
  }
}
