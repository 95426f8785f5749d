/** `BusinessInfo._parse`: the five business components of a full user,
    or None when none of them is present. */
module BusinessInfos {
  import opened Wrappers
  import opened Raw
  import opened BusinessHours
  import opened BusinessMessages

  /** The business attributes of a raw full user; None stands for an absent
      or empty attribute alike, since both decode to None. */
  datatype RawUserFull = RawUserFull(
    workHours: Option<RawWorkHours>,
    location: Option<Blob>,
    intro: Option<Blob>,
    greeting: Option<RawGreeting>,
    away: Option<RawAway>)

  datatype BusinessInfo = BusinessInfo(
    workHours: Option<WorkHours>,
    location: Option<Nested>,
    intro: Option<Nested>,
    greeting: Option<Greeting>,
    away: Option<Away>)

  /** The five components, each decoded from its own attribute only. */
  function Components(u: RawUserFull): BusinessInfo {
    BusinessInfo(ParseWorkHours(u.workHours), NestedOpt(LocationParser, u.location),
                 NestedOpt(IntroParser, u.intro), ParseGreeting(u.greeting), ParseAway(u.away))
  }

  /** None exactly when every component is absent; otherwise exactly the
      five decoded components. */
  function Parse(u: RawUserFull): (r: Option<BusinessInfo>)
    ensures r.None? <==> u.workHours.None? && u.location.None? && u.intro.None?
                         && u.greeting.None? && u.away.None?
    ensures r.Some? ==> r.value == Components(u)
  {
    var c := Components(u);
    if c.workHours.None? && c.location.None? && c.intro.None? && c.greeting.None? && c.away.None? then None
    else Some(c)
  }

  /** Decoding one component does not depend on the others: changing one
      attribute changes at most its own component. */
  lemma ComponentsIndependent(u: RawUserFull, w: Option<RawWorkHours>, g: Option<RawGreeting>)
    ensures var v := Components(u.(workHours := w));
      v.location == Components(u).location && v.intro == Components(u).intro
      && v.greeting == Components(u).greeting && v.away == Components(u).away
    ensures var v := Components(u.(greeting := g));
      v.workHours == Components(u).workHours && v.location == Components(u).location
      && v.intro == Components(u).intro && v.away == Components(u).away
  {
  }
}
