/** `GroupCall._parse`: a voice chat or live stream of a chat. */
module GroupCalls {
  import opened Wrappers
  import opened Raw

  /** The wire call. `schedule_date` keeps both layers of absence apart: the
      attribute may be missing, or present and unset. The other attributes
      read with `hasattr` are None when absent. */
  datatype RawGroupCall = RawGroupCall(
    id: int, accessHash: int, participantsCount: int, version: int,
    title: Option<string>, streamDcId: Option<int>,
    scheduleDate: Attr<Option<int>>,
    rtmpStream: Option<bool>, listenersHidden: Option<bool>,
    joinMuted: Option<bool>, canChangeJoinMuted: Option<bool>,
    videoStarted: Option<bool>, canStartVideo: Option<bool>,
    recordStarted: Option<bool>, recordVideoActive: Option<bool>)

  datatype GroupCall = GroupCall(
    id: int, accessHash: int, title: Option<string>,
    participantsCount: int, version: int, streamDcId: Option<int>,
    scheduleDate: Option<Stamp>, isActive: bool,
    isRtmpStream: Option<bool>, isListenersHidden: Option<bool>,
    isJoinMuted: Option<bool>, isCanChangeJoinMuted: Option<bool>,
    isVideoStarted: Option<bool>, isCanStartVideo: Option<bool>,
    isRecordStarted: Option<bool>, recordVideoActive: Option<bool>)

  /** A schedule attribute that is present with a non-zero date. */
  predicate Scheduled(d: Attr<Option<int>>) {
    d.Present? && TruthyInt(d.value)
  }

  /** `GroupCall._parse`: the schedule date is kept only when present and
      truthy, and the call counts as active exactly when it is not so
      scheduled; everything else is copied. */
  function Parse(c: RawGroupCall): (r: GroupCall)
    ensures r.scheduleDate.Some? <==> Scheduled(c.scheduleDate)
    ensures r.scheduleDate.Some? ==> r.scheduleDate.value == StampOf(c.scheduleDate.value.value)
    ensures c.scheduleDate.Absent? ==> r.isActive
    ensures !r.isActive <==> r.scheduleDate.Some?
    ensures && r.id == c.id && r.accessHash == c.accessHash && r.title == c.title
            && r.participantsCount == c.participantsCount && r.version == c.version
            && r.streamDcId == c.streamDcId
    ensures && r.isRtmpStream == c.rtmpStream && r.isListenersHidden == c.listenersHidden
            && r.isJoinMuted == c.joinMuted && r.isCanChangeJoinMuted == c.canChangeJoinMuted
            && r.isVideoStarted == c.videoStarted && r.isCanStartVideo == c.canStartVideo
            && r.isRecordStarted == c.recordStarted && r.recordVideoActive == c.recordVideoActive
  {
    var scheduled := c.scheduleDate.Present? && TruthyInt(c.scheduleDate.value);
    GroupCall(
      c.id, c.accessHash, c.title, c.participantsCount, c.version, c.streamDcId,
      if scheduled then Some(StampOf(c.scheduleDate.value.value)) else None,
      if c.scheduleDate.Present? then !TruthyInt(c.scheduleDate.value) else true,
      c.rtmpStream, c.listenersHidden, c.joinMuted, c.canChangeJoinMuted,
      c.videoStarted, c.canStartVideo, c.recordStarted, c.recordVideoActive)
  }
}
