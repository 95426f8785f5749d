/** `ConferenceCall._parse`: a group call answer with its participants and
    the chat that hosts the call. */
module ConferenceCalls {
  import opened Wrappers
  import opened Raw
  import Chats
  import GroupCalls
  import GroupCallParticipants

  /** The wire answer. Attributes read with `hasattr` are None when absent. */
  datatype RawConferenceCall = RawConferenceCall(
    call: Option<GroupCalls.RawGroupCall>,
    participants: Option<seq<GroupCallParticipants.RawParticipant>>,
    users: Option<seq<RawUser>>,
    chats: Option<seq<RawChat>>)

  datatype ConferenceCall = ConferenceCall(
    id: Option<int>, accessHash: Option<int>,
    call: Option<GroupCalls.GroupCall>,
    participants: Option<seq<GroupCallParticipants.GroupCallParticipant>>,
    chat: Option<Chats.Chat>,
    isConference: bool, isCanInvite: bool)

  /** `users = users or {...} if hasattr(call, 'users') else {}`: by Python's
      precedence the conditional is outermost, so an answer without the
      attribute gives the empty table even when the caller passed one; with
      the attribute, a non-empty table of the caller's wins over the
      envelope's. */
  function UsersFor(c: RawConferenceCall, users: Option<map<int, RawUser>>): (m: map<int, RawUser>)
    ensures c.users.None? ==> m == map[]
    ensures c.users.Some? && users.Some? && users.value != map[] ==> m == users.value
    ensures c.users.Some? && (users.None? || users.value == map[]) ==> m == UserTable(c.users.value)
  {
    if c.users.None? then map[]
    else if users.Some? && users.value != map[] then users.value
    else UserTable(c.users.value)
  }

  /** The chats table, chosen the same way. A table is given as its chats in
      iteration order, each under its own id. */
  function ChatsFor(c: RawConferenceCall, chats: Option<seq<RawChat>>): (cs: seq<RawChat>)
    ensures c.chats.None? ==> cs == []
    ensures c.chats.Some? && chats.Some? && chats.value != [] ==> cs == chats.value
    ensures c.chats.Some? && (chats.None? || chats.value == []) ==> cs == c.chats.value
  {
    if c.chats.None? then []
    else if chats.Some? && chats.value != [] then chats.value
    else c.chats.value
  }

  /** A chat hosting the call with this id. */
  predicate Hosts(c: RawChat, callId: int) {
    CallAttr(c).Some? && CallAttr(c).value.id == callId
  }

  /** The position of the first chat that hosts the call, if any. */
  function FirstHost(cs: seq<RawChat>, callId: int): (r: Option<int>)
    ensures r.Some? ==> 0 <= r.value < |cs| && Hosts(cs[r.value], callId)
    ensures r.Some? ==> forall j :: 0 <= j < r.value ==> !Hosts(cs[j], callId)
    ensures r.None? <==> forall j :: 0 <= j < |cs| ==> !Hosts(cs[j], callId)
  {
    if cs == [] then None
    else if Hosts(cs[0], callId) then Some(0)
    else
      var rest := FirstHost(cs[1..], callId);
      if rest.None? then None else Some(rest.value + 1)
  }

  /** The hosting chat: the first chat that hosts the call, decoded as a
      channel when it is a broadcast channel or a supergroup; any other
      first host ends the search without a chat. Only channels carry those
      flags, so the decoding cannot raise. */
  function HostChat(cs: seq<RawChat>, call: Option<GroupCalls.RawGroupCall>): (r: Option<Chats.Chat>)
    ensures call.None? || FirstHost(cs, call.value.id).None? ==> r.None?
    ensures call.Some? && FirstHost(cs, call.value.id).Some? ==>
      var h := cs[FirstHost(cs, call.value.id).value];
      (r.Some? <==> Truthy(BroadcastAttr(h)) || Truthy(MegagroupAttr(h)))
      && (r.Some? ==> Chats.ChannelChat(h) == Ok(r.value))
  {
    if call.None? then None
    else
      var k := FirstHost(cs, call.value.id);
      if k.None? then None
      else
        var h := cs[k.value];
        if Truthy(BroadcastAttr(h)) || Truthy(MegagroupAttr(h)) then Some(Chats.ChannelChat(h).value)
        else None
  }

  function ParticipantDecoder(users: map<int, RawUser>, chats: map<int, RawChat>)
    : GroupCallParticipants.RawParticipant -> Result<GroupCallParticipants.GroupCallParticipant>
  {
    x => GroupCallParticipants.Parse(x, users, chats)
  }

  /** `ConferenceCall._parse`: the tables chosen as above; the call decoded
      when present, with its id and access hash; every participant decoded
      in order (the first that raises propagates), None when there are none;
      the hosting chat; and both flags always set. */
  function Parse(c: RawConferenceCall, users: Option<map<int, RawUser>>, chats: Option<seq<RawChat>>)
    : (r: Result<ConferenceCall>)
    ensures var u := UsersFor(c, users); var cs := ChatsFor(c, chats);
      var ps := Traverse(ParticipantDecoder(u, ChatTable(cs)), Items(c.participants));
      var host := HostChat(cs, c.call);
      && (r.Ok? <==> ps.Ok?)
      && (ps.Err? ==> r == Err(ps.error))
      && (r.Ok? ==> r.value.participants == NonEmpty(ps.value) && r.value.chat == host)
    ensures r.Ok? ==> var v := r.value;
      && v.isConference && v.isCanInvite
      && (v.call.Some? <==> c.call.Some?)
      && (c.call.Some? ==> && v.call.value == GroupCalls.Parse(c.call.value)
                           && v.id == Some(c.call.value.id) && v.accessHash == Some(c.call.value.accessHash))
      && (c.call.None? ==> v.id.None? && v.accessHash.None?)
  {
    var u := UsersFor(c, users);
    var cs := ChatsFor(c, chats);
    var call := if c.call.Some? then Some(GroupCalls.Parse(c.call.value)) else None;
    var participants :- Traverse(ParticipantDecoder(u, ChatTable(cs)), Items(c.participants));
    var chat := HostChat(cs, c.call);
    Ok(ConferenceCall(
      if c.call.Some? then Some(c.call.value.id) else None,
      if c.call.Some? then Some(c.call.value.accessHash) else None,
      call, NonEmpty(participants), chat, true, true))
  }

  /** The participants loop: each participant decoded and appended in order. */
  method ParseParticipants(ps: seq<GroupCallParticipants.RawParticipant>, users: map<int, RawUser>, chats: map<int, RawChat>)
    returns (r: Result<seq<GroupCallParticipants.GroupCallParticipant>>)
    ensures r == Traverse(ParticipantDecoder(users, chats), ps)
  {
    var acc: seq<GroupCallParticipants.GroupCallParticipant> := [];
    var i := 0;
    while i < |ps|
      invariant 0 <= i <= |ps|
      invariant Traverse(ParticipantDecoder(users, chats), ps[..i]) == Ok(acc)
      decreases |ps| - i
    {
      TraverseStep(ParticipantDecoder(users, chats), ps, i);
      var d := GroupCallParticipants.Parse(ps[i], users, chats);
      if d.Err? {
        return Err(d.error);
      }
      acc := acc + [d.value];
      i := i + 1;
    }
    assert ps[..i] == ps;
    return Ok(acc);
  }

  /** The chat search loop: the chats are scanned in order and the scan
      breaks at the first one that hosts the call. */
  method FindHostChat(cs: seq<RawChat>, call: Option<GroupCalls.RawGroupCall>) returns (r: Option<Chats.Chat>)
    ensures r == HostChat(cs, call)
  {
    if call.None? {
      return None;
    }
    var chat: Option<Chats.Chat> := None;
    var i := 0;
    while i < |cs|
      invariant 0 <= i <= |cs|
      invariant forall j :: 0 <= j < i ==> !Hosts(cs[j], call.value.id)
      decreases |cs| - i
    {
      var h := cs[i];
      if CallAttr(h).Some? && CallAttr(h).value.id == call.value.id {
        if Truthy(BroadcastAttr(h)) || Truthy(MegagroupAttr(h)) {
          chat := Some(Chats.ChannelChat(h).value);
        }
        FirstHostAt(cs, call.value.id, i);
        return chat;
      }
      i := i + 1;
    }
    return None;
  }

  /** A position before which no chat hosts the call, holding a chat that
      does, is the first host. */
  lemma {:induction false} FirstHostAt(cs: seq<RawChat>, callId: int, i: int)
    requires 0 <= i < |cs| && Hosts(cs[i], callId)
    requires forall j :: 0 <= j < i ==> !Hosts(cs[j], callId)
    ensures FirstHost(cs, callId) == Some(i)
  {
    if i > 0 {
      FirstHostAt(cs[1..], callId, i - 1);
    }
  }

  /** The decoder as written: the two loops between the table choice and
      the construction. */
  method ParseConferenceCall(c: RawConferenceCall, users: Option<map<int, RawUser>>, chats: Option<seq<RawChat>>)
    returns (r: Result<ConferenceCall>)
    ensures r == Parse(c, users, chats)
  {
    var u := UsersFor(c, users);
    var cs := ChatsFor(c, chats);
    var call := if c.call.Some? then Some(GroupCalls.Parse(c.call.value)) else None;
    var participants := ParseParticipants(Items(c.participants), u, ChatTable(cs));
    if participants.Err? {
      return Err(participants.error);
    }
    var chat := FindHostChat(cs, c.call);
    r := Ok(ConferenceCall(
      if c.call.Some? then Some(c.call.value.id) else None,
      if c.call.Some? then Some(c.call.value.accessHash) else None,
      call, NonEmpty(participants.value), chat, true, true));
  }
}
