/** `KeyboardButton.read` and `write`: one reply keyboard button, between
    the wire variants and the library object. */
module KeyboardButtons {
  import opened Wrappers
  import Text
  import opened KeyboardButtonStyles

  /** The wire button variants; the kinds this decoder does not know keep
      only the style they may carry. */
  datatype RawButton =
    | KeyboardButton(text: string, style: Option<RawStyle>)
    | KeyboardButtonRequestPhone(text: string, style: Option<RawStyle>)
    | KeyboardButtonRequestGeoLocation(text: string, style: Option<RawStyle>)
    | KeyboardButtonSimpleWebView(text: string, url: string, style: Option<RawStyle>)
    | OtherButton(style: Option<RawStyle>)

  datatype WebAppInfo = WebAppInfo(url: string)

  datatype Button = Button(
    text: string, requestContact: Option<bool>, requestLocation: Option<bool>,
    webApp: Option<WebAppInfo>, style: Option<Style>)

  /** What `read` hands back: the bare text of a plain button, or a button
      object. */
  datatype ReadButton = PlainText(text: string) | ButtonObject(button: Button)

  /** What the constructor's `text` may be given as. */
  datatype TextArg = StrArg(s: string) | IntArg(i: int)

  /** The constructor: `str(text)`, so an integer becomes its decimal
      digits; the other fields as given. */
  function Make(text: TextArg, requestContact: Option<bool>, requestLocation: Option<bool>,
                webApp: Option<WebAppInfo>, style: Option<Style>): (r: Button)
    ensures text.StrArg? ==> r.text == text.s
    ensures text.IntArg? ==> Text.ParseInt(r.text, 10) == Some(text.i)
    ensures r.requestContact == requestContact && r.requestLocation == requestLocation
    ensures r.webApp == webApp && r.style == style
  {
    if text.IntArg? then Text.FormatIntRoundTrip(text.i, 10); Button(Text.Decimal(text.i), requestContact, requestLocation, webApp, style)
    else Button(text.s, requestContact, requestLocation, webApp, style)
  }

  /** `KeyboardButton.read`: a plain button is its bare text unless it has a
      style; a phone request sets `request_contact`, a location request
      `request_location`, a web view `web_app`; any other kind reads as
      None. */
  function Read(b: RawButton): (r: Option<ReadButton>)
    ensures r.None? <==> b.OtherButton?
    ensures r.Some? ==> var t := b.text; var st := KeyboardButtonStyles.Read(b.style);
      match r.value
      case PlainText(x) => b.KeyboardButton? && b.style.None? && x == t
      case ButtonObject(k) =>
        && k.text == t && k.style == st
        && (k.requestContact == Some(true) <==> b.KeyboardButtonRequestPhone?)
        && (k.requestLocation == Some(true) <==> b.KeyboardButtonRequestGeoLocation?)
        && (k.webApp.Some? <==> b.KeyboardButtonSimpleWebView?)
        && (k.webApp.Some? ==> k.webApp.value.url == b.url)
        && (b.KeyboardButton? ==> st.Some?)
  {
    var style := KeyboardButtonStyles.Read(b.style);
    match b
    case KeyboardButton(text, _) =>
      if style.Some? then Some(ButtonObject(Button(text, None, None, None, style))) else Some(PlainText(text))
    case KeyboardButtonRequestPhone(text, _) => Some(ButtonObject(Button(text, Some(true), None, None, style)))
    case KeyboardButtonRequestGeoLocation(text, _) => Some(ButtonObject(Button(text, None, Some(true), None, style)))
    case KeyboardButtonSimpleWebView(text, url, _) =>
      Some(ButtonObject(Button(text, None, None, Some(WebAppInfo(url)), style)))
    case OtherButton(_) => None
  }

  /** `KeyboardButton.write`: the first of `request_contact`,
      `request_location` and `web_app` that is set picks the variant, a
      plain button otherwise; the text and the written style go along. */
  function Write(k: Button): (r: RawButton)
    ensures !r.OtherButton? && r.text == k.text
    ensures r.style == if k.style.Some? then Some(KeyboardButtonStyles.Write(k.style.value)) else None
    ensures r.KeyboardButtonRequestPhone? <==> Truthy(k.requestContact)
    ensures r.KeyboardButtonRequestGeoLocation? <==> !Truthy(k.requestContact) && Truthy(k.requestLocation)
    ensures r.KeyboardButtonSimpleWebView? <==>
      !Truthy(k.requestContact) && !Truthy(k.requestLocation) && k.webApp.Some?
    ensures r.KeyboardButtonSimpleWebView? ==> r.url == k.webApp.value.url
  {
    var style := if k.style.Some? then Some(KeyboardButtonStyles.Write(k.style.value)) else None;
    if Truthy(k.requestContact) then KeyboardButtonRequestPhone(k.text, style)
    else if Truthy(k.requestLocation) then KeyboardButtonRequestGeoLocation(k.text, style)
    else if k.webApp.Some? then KeyboardButtonSimpleWebView(k.text, k.webApp.value.url, style)
    else KeyboardButton(k.text, style)
  }

  /** What a read button is sent as: its text as a plain button, or the
      written object. */
  function ToWire(r: ReadButton): RawButton {
    match r
    case PlainText(t) => KeyboardButton(t, None)
    case ButtonObject(k) => Write(k)
  }

  /** Every known variant survives a read and a write: same variant, same
      text, same url, and the same style once its false flags are read as
      None. Styles without false flags come back exactly. */
  lemma ReadWrite(b: RawButton)
    requires !b.OtherButton?
    ensures var w := ToWire(Read(b).value);
      && w.text == b.text
      && (w.KeyboardButton? <==> b.KeyboardButton?)
      && (w.KeyboardButtonRequestPhone? <==> b.KeyboardButtonRequestPhone?)
      && (w.KeyboardButtonRequestGeoLocation? <==> b.KeyboardButtonRequestGeoLocation?)
      && (w.KeyboardButtonSimpleWebView? <==> b.KeyboardButtonSimpleWebView?)
      && (w.KeyboardButtonSimpleWebView? ==> w.url == b.url)
      && (w.style.Some? <==> b.style.Some?)
    ensures b.style.None? || NormalRaw(b.style.value) ==> ToWire(Read(b).value) == b
  {
    if b.style.Some? {
      RoundTrips(KeyboardButtonStyles.Read(b.style).value, b.style.value);
    }
  }
}
