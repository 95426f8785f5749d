/** `KeyboardButtonStyle.read` and `write`: the colour and icon of a reply
    keyboard button, between the wire object and the library object. */
module KeyboardButtonStyles {
  import opened Wrappers

  /** The wire style. Its flags hold what they were built with, so a style
      written from a library object may carry None. */
  datatype RawStyle = RawStyle(bgPrimary: Option<bool>, bgDanger: Option<bool>, bgSuccess: Option<bool>, icon: Option<int>)

  datatype Style = Style(bgPrimary: Option<bool>, bgDanger: Option<bool>, bgSuccess: Option<bool>, icon: Option<int>)

  /** `flag or None`: true stays true, false and None become None. */
  function FlagOrNone(f: Option<bool>): (r: Option<bool>)
    ensures Normal(r) && Truthy(r) == Truthy(f)
    ensures Normal(f) ==> r == f
  {
    OrNoneRoundTrip(Truthy(f), f);
    OrNone(Truthy(f))
  }

  /** `KeyboardButtonStyle.read`: None for None; the false flags as None and
      the icon copied. */
  function Read(s: Option<RawStyle>): (r: Option<Style>)
    ensures r.Some? <==> s.Some?
    ensures r.Some? ==> && Truthy(r.value.bgPrimary) == Truthy(s.value.bgPrimary) && Normal(r.value.bgPrimary)
                        && Truthy(r.value.bgDanger) == Truthy(s.value.bgDanger) && Normal(r.value.bgDanger)
                        && Truthy(r.value.bgSuccess) == Truthy(s.value.bgSuccess) && Normal(r.value.bgSuccess)
                        && r.value.icon == s.value.icon
  {
    if s.None? then None
    else Some(Style(FlagOrNone(s.value.bgPrimary), FlagOrNone(s.value.bgDanger),
                    FlagOrNone(s.value.bgSuccess), s.value.icon))
  }

  /** `KeyboardButtonStyle.write`: all four fields copied. */
  function Write(s: Style): (r: RawStyle)
    ensures r.bgPrimary == s.bgPrimary && r.bgDanger == s.bgDanger && r.bgSuccess == s.bgSuccess && r.icon == s.icon
  {
    RawStyle(s.bgPrimary, s.bgDanger, s.bgSuccess, s.icon)
  }

  /** No flag is false. */
  predicate NormalStyle(s: Style) {
    Normal(s.bgPrimary) && Normal(s.bgDanger) && Normal(s.bgSuccess)
  }

  predicate NormalRaw(s: RawStyle) {
    Normal(s.bgPrimary) && Normal(s.bgDanger) && Normal(s.bgSuccess)
  }

  /** Writing then reading gives the style back exactly when each of its
      flags is true or None; reading then writing gives the wire style back
      under the same condition. */
  lemma RoundTrips(s: Style, w: RawStyle)
    ensures Read(Some(Write(s))) == Some(s) <==> NormalStyle(s)
    ensures Write(Read(Some(w)).value) == w <==> NormalRaw(w)
  {
    if Read(Some(Write(s))) == Some(s) {
      assert Normal(Read(Some(Write(s))).value.bgPrimary);
    }
  }
}
