/** Automated business replies: `BusinessRecipients._parse`,
    `BusinessGreetingMessage._parse` and `BusinessAwayMessage._parse`. */
module BusinessMessages {
  import opened Wrappers
  import opened Raw

  datatype RawRecipients = RawRecipients(
    existingChats: bool, newChats: bool, contacts: bool, nonContacts: bool,
    excludeSelected: bool, users: seq<int>)

  datatype RawGreeting = RawGreeting(shortcutId: int, recipients: Option<RawRecipients>, noActivityDays: int)

  datatype RawAwaySchedule =
    | ScheduleAlways
    | ScheduleOutsideWorkHours
    | ScheduleCustom(startDate: int, endDate: int)
    | ScheduleUnknown

  datatype RawAway = RawAway(
    shortcutId: int, recipients: Option<RawRecipients>, schedule: RawAwaySchedule, offlineOnly: bool)

  datatype Recipients = Recipients(
    existingChats: Option<bool>, newChats: Option<bool>, contacts: Option<bool>,
    nonContacts: Option<bool>, excludeSelected: Option<bool>, users: Option<seq<int>>)

  datatype Greeting = Greeting(shortcutId: int, recipients: Option<Recipients>, noActivityDays: int)

  datatype Away = Away(
    shortcutId: int, recipients: Option<Recipients>, scheduleType: string,
    offlineOnly: Option<bool>, startDate: Option<Stamp>, endDate: Option<Stamp>)

  predicate NormalRecipients(r: Recipients) {
    Normal(r.existingChats) && Normal(r.newChats) && Normal(r.contacts)
    && Normal(r.nonContacts) && Normal(r.excludeSelected)
    && (r.users.Some? ==> |r.users.value| > 0)
  }

  /** `BusinessRecipients._parse`: None stays None; false flags and an empty
      user list become None. */
  function ParseRecipients(raw: Option<RawRecipients>): (r: Option<Recipients>)
    ensures r.None? <==> raw.None?
    ensures r.Some? ==> NormalRecipients(r.value) && Items(r.value.users) == raw.value.users
  {
    match raw
    case None => None
    case Some(x) =>
      Some(Recipients(OrNone(x.existingChats), OrNone(x.newChats), OrNone(x.contacts),
                      OrNone(x.nonContacts), OrNone(x.excludeSelected), NonEmpty(x.users)))
  }

  function WriteRecipients(r: Recipients): RawRecipients {
    RawRecipients(Truthy(r.existingChats), Truthy(r.newChats), Truthy(r.contacts),
                  Truthy(r.nonContacts), Truthy(r.excludeSelected), Items(r.users))
  }

  /** Decoding recipients loses nothing, and decoding what a normal value
      stands for gives it back. */
  lemma RecipientsRoundTrip(raw: RawRecipients, r: Recipients)
    ensures ParseRecipients(Some(raw)).Some? && WriteRecipients(ParseRecipients(Some(raw)).value) == raw
    ensures NormalRecipients(r) ==> ParseRecipients(Some(WriteRecipients(r))) == Some(r)
  {
    if NormalRecipients(r) {
      OrNoneRoundTrip(false, r.existingChats);
      OrNoneRoundTrip(false, r.newChats);
      OrNoneRoundTrip(false, r.contacts);
      OrNoneRoundTrip(false, r.nonContacts);
      OrNoneRoundTrip(false, r.excludeSelected);
    }
  }

  /** `BusinessGreetingMessage._parse`: None stays None; the rest is copied. */
  function ParseGreeting(raw: Option<RawGreeting>): (r: Option<Greeting>)
    ensures r.None? <==> raw.None?
    ensures r.Some? ==>
      && r.value.shortcutId == raw.value.shortcutId
      && r.value.noActivityDays == raw.value.noActivityDays
      && r.value.recipients == ParseRecipients(raw.value.recipients)
  {
    match raw
    case None => None
    case Some(g) => Some(Greeting(g.shortcutId, ParseRecipients(g.recipients), g.noActivityDays))
  }

  /** The schedule name of an away message. */
  function ScheduleType(s: RawAwaySchedule): (r: string)
    ensures r == "custom" <==> s.ScheduleCustom?
    ensures r == "outside_work_hours" <==> s.ScheduleOutsideWorkHours?
    ensures r == "always" <==> s.ScheduleAlways? || s.ScheduleUnknown?
  {
    match s
    case ScheduleAlways => "always"
    case ScheduleOutsideWorkHours => "outside_work_hours"
    case ScheduleCustom(_, _) => "custom"
    case ScheduleUnknown => "always"
  }

  /** `BusinessAwayMessage._parse`: None stays None; an unknown schedule
      reads as "always"; only a custom schedule carries dates; a false
      `offline_only` becomes None. */
  function ParseAway(raw: Option<RawAway>): (r: Option<Away>)
    ensures r.None? <==> raw.None?
    ensures r.Some? ==>
      && r.value.scheduleType == ScheduleType(raw.value.schedule)
      && (r.value.startDate.Some? <==> raw.value.schedule.ScheduleCustom?)
      && (r.value.endDate.Some? <==> raw.value.schedule.ScheduleCustom?)
      && (raw.value.schedule.ScheduleCustom? ==>
            r.value.startDate == Some(StampOf(raw.value.schedule.startDate))
            && r.value.endDate == Some(StampOf(raw.value.schedule.endDate)))
      && Normal(r.value.offlineOnly) && Truthy(r.value.offlineOnly) == raw.value.offlineOnly
      && r.value.recipients == ParseRecipients(raw.value.recipients)
  {
    match raw
    case None => None
    case Some(a) =>
      var dates: (Option<Stamp>, Option<Stamp>) :=
        if a.schedule.ScheduleCustom? then (Some(StampOf(a.schedule.startDate)), Some(StampOf(a.schedule.endDate)))
        else (None, None);
      Some(Away(a.shortcutId, ParseRecipients(a.recipients), ScheduleType(a.schedule),
                OrNone(a.offlineOnly), dates.0, dates.1))
  }

  /** The wire schedule a decoded away message stands for. */
  function WriteSchedule(a: Away): RawAwaySchedule {
    if a.scheduleType == "custom" && a.startDate.Some? && a.startDate.value.raw.Some?
       && a.endDate.Some? && a.endDate.value.raw.Some? then
      ScheduleCustom(a.startDate.value.raw.value, a.endDate.value.raw.value)
    else if a.scheduleType == "outside_work_hours" then ScheduleOutsideWorkHours
    else ScheduleAlways
  }

  /** Every known schedule, with its dates, reads back from the decoded
      message; only an unknown schedule is lost (it reads back as "always"). */
  lemma AwayScheduleRoundTrip(raw: RawAway)
    ensures ParseAway(Some(raw)).Some?
    ensures !raw.schedule.ScheduleUnknown? ==> WriteSchedule(ParseAway(Some(raw)).value) == raw.schedule
    ensures raw.schedule.ScheduleUnknown? ==> WriteSchedule(ParseAway(Some(raw)).value) == ScheduleAlways
  {
  }
}
