/** Opening hours of a business account: `BusinessWeeklyOpen._parse` and
    `BusinessWorkHours._parse`. */
module BusinessHours {
  import opened Wrappers

  datatype RawWeeklyOpen = RawWeeklyOpen(startMinute: int, endMinute: int)

  datatype RawWorkHours = RawWorkHours(timezoneId: string, weeklyOpen: seq<RawWeeklyOpen>, openNow: bool)

  /** An open interval in minutes from Monday 00:00. The documented range
      0..10080 is not checked by the decoder. */
  datatype WeeklyOpen = WeeklyOpen(startMinute: int, endMinute: int)

  datatype WorkHours = WorkHours(timezoneId: string, weeklyOpen: Option<seq<WeeklyOpen>>, openNow: Option<bool>)

  function ParseWeeklyOpen(w: RawWeeklyOpen): WeeklyOpen {
    WeeklyOpen(w.startMinute, w.endMinute)
  }

  function ParseWeeklyOpens(ws: seq<RawWeeklyOpen>): (r: seq<WeeklyOpen>)
    ensures |r| == |ws|
    ensures forall i :: 0 <= i < |ws| ==> r[i] == ParseWeeklyOpen(ws[i])
  {
    if ws == [] then [] else [ParseWeeklyOpen(ws[0])] + ParseWeeklyOpens(ws[1..])
  }

  /** `BusinessWorkHours._parse`: None stays None; the intervals keep their
      number and order, an empty list becomes None; a false `open_now` becomes None. */
  function ParseWorkHours(raw: Option<RawWorkHours>): (r: Option<WorkHours>)
    ensures r.None? <==> raw.None?
    ensures r.Some? ==>
      && r.value.timezoneId == raw.value.timezoneId
      && Items(r.value.weeklyOpen) == ParseWeeklyOpens(raw.value.weeklyOpen)
      && (r.value.weeklyOpen.None? <==> |raw.value.weeklyOpen| == 0)
      && Normal(r.value.openNow) && Truthy(r.value.openNow) == raw.value.openNow
  {
    match raw
    case None => None
    case Some(h) => Some(WorkHours(h.timezoneId, NonEmpty(ParseWeeklyOpens(h.weeklyOpen)), OrNone(h.openNow)))
  }

  function WriteWeeklyOpen(w: WeeklyOpen): RawWeeklyOpen {
    RawWeeklyOpen(w.startMinute, w.endMinute)
  }

  function WriteWeeklyOpens(ws: seq<WeeklyOpen>): (r: seq<RawWeeklyOpen>)
    ensures |r| == |ws|
    ensures forall i :: 0 <= i < |ws| ==> r[i] == WriteWeeklyOpen(ws[i])
  {
    if ws == [] then [] else [WriteWeeklyOpen(ws[0])] + WriteWeeklyOpens(ws[1..])
  }

  /** The wire value a decoded schedule stands for. */
  function WriteWorkHours(h: WorkHours): RawWorkHours {
    RawWorkHours(h.timezoneId, WriteWeeklyOpens(Items(h.weeklyOpen)), Truthy(h.openNow))
  }

  /** Decoding work hours loses nothing: every interval, in order, and every
      flag reads back; in particular minutes outside 0..10080 pass through. */
  lemma WorkHoursRoundTrip(raw: RawWorkHours)
    ensures ParseWorkHours(Some(raw)).Some?
    ensures WriteWorkHours(ParseWorkHours(Some(raw)).value) == raw
  {
    var h := ParseWorkHours(Some(raw)).value;
    assert WriteWeeklyOpens(ParseWeeklyOpens(raw.weeklyOpen)) == raw.weeklyOpen;
  }
}
