/** The user object: `User._parse`, its online-status normalisation
    `_parse_status`, `full_name`, and the `Link` text behind `mention`. */
module Users {
  import opened Wrappers
  import opened Text
  import opened Raw
  import opened PeerColors

  datatype UserStatus = Online | Offline | Recently | LastWeek | LastMonth | LongAgo

  datatype ParseMode = DefaultMode | MarkdownMode | HtmlMode | DisabledMode

  /** The three keyword arguments `_parse_status` contributes to a User. */
  datatype StatusFields = StatusFields(
    status: Option<UserStatus>,
    lastOnlineDate: Option<Stamp>,
    nextOfflineDate: Option<Stamp>)

  datatype User = User(
    id: int,
    isSelf: bool, isContact: bool, isMutualContact: bool, isDeleted: bool, isBot: bool,
    isVerified: bool, isRestricted: bool, isScam: bool, isFake: bool, isSupport: bool,
    isPremium: bool,
    firstName: Option<string>,
    lastName: Option<string>,
    status: Option<UserStatus>,
    lastOnlineDate: Option<Stamp>,
    nextOfflineDate: Option<Stamp>,
    username: Option<string>,
    languageCode: Option<string>,
    phoneNumber: Option<string>,
    restrictions: Option<seq<Nested>>,
    restrictionReason: Option<seq<Nested>>,
    usernames: Option<seq<Nested>>,
    accessHash: Option<int>,
    color: Option<PeerColor>,
    profileColor: Option<PeerColor>)

  // ------------------------------------------------------------ _parse_status

  /** What a user's status means once decoded: bots have no status and no
      dates; a human online carries only the moment they go offline, a human
      offline only the moment they were last seen; the coarse statuses carry
      no date, and an absent or unknown status reads as "long ago". */
  function StatusOf(raw: Option<RawUserStatus>, isBot: bool): StatusFields {
    if isBot then StatusFields(None, None, None)
    else
      match raw
      case Some(UserStatusOnline(expires)) => StatusFields(Some(Online), None, Some(StampOf(expires)))
      case Some(UserStatusOffline(wasOnline)) => StatusFields(Some(Offline), Some(StampOf(wasOnline)), None)
      case Some(UserStatusRecently) => StatusFields(Some(Recently), None, None)
      case Some(UserStatusLastWeek) => StatusFields(Some(LastWeek), None, None)
      case Some(UserStatusLastMonth) => StatusFields(Some(LastMonth), None, None)
      case _ => StatusFields(Some(LongAgo), None, None)
  }

  /** `_parse_status`: pick a status and a raw date, then blank the status for
      bots, and only then attach the date the status calls for. */
  method ParseStatus(raw: Option<RawUserStatus>, isBot: bool) returns (r: StatusFields)
    ensures r == StatusOf(raw, isBot)
  {
    var status: Option<UserStatus>;
    var date: Option<int>;
    if raw.Some? && raw.value.UserStatusOnline? {
      status, date := Some(Online), Some(raw.value.expires);
    } else if raw.Some? && raw.value.UserStatusOffline? {
      status, date := Some(Offline), Some(raw.value.wasOnline);
    } else if raw == Some(UserStatusRecently) {
      status, date := Some(Recently), None;
    } else if raw == Some(UserStatusLastWeek) {
      status, date := Some(LastWeek), None;
    } else if raw == Some(UserStatusLastMonth) {
      status, date := Some(LastMonth), None;
    } else {
      status, date := Some(LongAgo), None;
    }

    var lastOnlineDate: Option<Stamp> := None;
    var nextOfflineDate: Option<Stamp> := None;

    if isBot {
      status := None;
    }
    if status == Some(Online) {
      nextOfflineDate := Some(Stamp(date));
    }
    if status == Some(Offline) {
      lastOnlineDate := Some(Stamp(date));
    }
    r := StatusFields(status, lastOnlineDate, nextOfflineDate);
  }

  /** The laws of a decoded status: at most one date; each date belongs to
      exactly one status; a status is absent exactly for bots. */
  lemma StatusLaws(raw: Option<RawUserStatus>, isBot: bool)
    ensures var r := StatusOf(raw, isBot);
      && !(r.lastOnlineDate.Some? && r.nextOfflineDate.Some?)
      && (r.nextOfflineDate.Some? <==> r.status == Some(Online))
      && (r.lastOnlineDate.Some? <==> r.status == Some(Offline))
      && (r.status.None? <==> isBot)
      && (r.status == Some(Online) <==> !isBot && raw.Some? && raw.value.UserStatusOnline?)
      && (r.status == Some(Offline) <==> !isBot && raw.Some? && raw.value.UserStatusOffline?)
      && (r.status == Some(LongAgo) <==> !isBot && (raw.None? || raw == Some(UserStatusEmpty)))
  {
  }

  // ------------------------------------------------------------ _parse

  /** `User._parse`: None and UserEmpty decode to None; every flag and name is
      copied unchanged, restrictions are decoded once and used for both
      restriction fields, and the status fields come from StatusOf. */
  function Parse(raw: Option<RawUser>): (r: Option<User>)
    ensures r.None? <==> raw.None? || raw.value.UserEmpty?
    ensures r.Some? ==> var u := raw.value;
      && r.value.id == u.id
      && r.value.isBot == u.bot
      && r.value.firstName == u.firstName && r.value.lastName == u.lastName
      && r.value.restrictions == r.value.restrictionReason
      && (r.value.restrictions.None? <==> |u.restrictionReason| == 0)
      && (r.value.usernames.None? <==> |u.usernames| == 0)
      && StatusFields(r.value.status, r.value.lastOnlineDate, r.value.nextOfflineDate)
         == StatusOf(u.status, u.bot)
  {
    match raw
    case None => None
    case Some(UserEmpty(_)) => None
    case Some(u) =>
      var restrictions := NestedList(RestrictionParser, u.restrictionReason);
      var st := StatusOf(u.status, u.bot);
      Some(User.User(
        u.id,
        u.isSelf, u.contact, u.mutualContact, u.deleted, u.bot,
        u.verified, u.restricted, u.scam, u.fake, u.support, u.premium,
        u.firstName, u.lastName,
        st.status, st.lastOnlineDate, st.nextOfflineDate,
        u.username, u.langCode, u.phone,
        restrictions, restrictions,
        NestedList(UsernameParser, u.usernames),
        u.accessHash,
        PeerColors.Parse(u.color), PeerColors.Parse(u.profileColor)))
  }

  /** A decoded user never claims to be both a bot and a human with a status. */
  lemma ParsedBotHasNoStatus(raw: RawUser)
    requires raw.User? && raw.bot
    ensures Parse(Some(raw)).Some?
    ensures Parse(Some(raw)).value.status.None?
    ensures Parse(Some(raw)).value.lastOnlineDate.None? && Parse(Some(raw)).value.nextOfflineDate.None?
  {
  }

  // ------------------------------------------------------------ full_name

  /** `User.full_name`: the non-empty names joined by one space, or None. */
  function FullName(u: User): (r: Option<string>)
    ensures r.None? <==> !Filled(u.firstName) && !Filled(u.lastName)
    ensures Filled(u.firstName) && Filled(u.lastName) ==>
      r == Some(u.firstName.value + " " + u.lastName.value)
    ensures Filled(u.firstName) != Filled(u.lastName) ==>
      r == if Filled(u.firstName) then u.firstName else u.lastName
  {
    JoinNames(u.firstName, u.lastName)
  }

  // ------------------------------------------------------------ Link and mention

  /** `Link.format`: the Markdown template exactly for the MARKDOWN mode, the
      HTML template for every other mode; the text is always HTML-escaped. */
  function FormatLink(url: string, text: string, style: ParseMode): (r: string)
    ensures |r| >= 4
    ensures r[0] == '[' <==> style == MarkdownMode
    ensures style == MarkdownMode ==> r[|r| - 1] == ')'
    ensures style != MarkdownMode ==> |r| >= 12 && r[..8] == "<a href=" && r[|r| - 4..] == "</a>"
  {
    if style == MarkdownMode then "[" + HtmlEscape(text) + "](" + url + ")"
    else "<a href=" + url + ">" + HtmlEscape(text) + "</a>"
  }

  /** Reads a formatted link back into its url and (unescaped) text. */
  function ReadLink(s: string, style: ParseMode): (string, string) {
    if style == MarkdownMode then
      if |s| < 2 then ("", "")
      else
        var body := s[1..|s| - 1];
        var target := AfterLast(body, ']');
        var text := body[..|body| - |target|];
        (if |target| > 0 then target[1..] else "",
         HtmlUnescape(if |text| > 0 then text[..|text| - 1] else ""))
    else
      if |s| < 12 then ("", "")
      else
        var body := s[8..|s| - 4];
        var text := AfterLast(body, '>');
        var url := body[..|body| - |text|];
        (if |url| > 0 then url[..|url| - 1] else "", HtmlUnescape(text))
  }

  /** When `sep` does not occur in `e`, the part after the last `sep` of
      `x + [sep] + e` is `e`. */
  lemma AfterLastOf(x: string, sep: char, e: string)
    requires sep !in e
    ensures AfterLast(x + [sep] + e, sep) == e
  {
    var s := x + [sep] + e;
    var r := AfterLast(s, sep);
    assert s[|x|] == sep;
    assert s[|s| - |e|..] == e;
  }

  /** A Markdown link reads back into its url and its unescaped text. */
  lemma ReadMarkdownLink(url: string, e: string)
    requires ']' !in url
    ensures ReadLink("[" + e + "](" + url + ")", MarkdownMode) == (url, HtmlUnescape(e))
  {
    var s := "[" + e + "](" + url + ")";
    MarkdownReadsBack(url, e);
    var body := s[1..|s| - 1];
    var target := AfterLast(body, ']');
    assert target[1..] == url;
    assert (e + "]")[..|e|] == e;
  }

  /** An HTML link reads back into its url and its unescaped text, whatever
      the (non-Markdown) mode. */
  lemma ReadHtmlLink(url: string, e: string, style: ParseMode)
    requires style != MarkdownMode
    requires forall i :: 0 <= i < |e| ==> !Markup(e[i])
    ensures ReadLink("<a href=" + url + ">" + e + "</a>", style) == (url, HtmlUnescape(e))
  {
    HtmlReadsBack(url, e);
    assert (url + ">")[..|url|] == url;
  }

  /** Formatting a link loses nothing: url and text read back exactly (for
      Markdown, as long as the url holds no closing bracket). */
  lemma LinkRoundTrip(url: string, text: string, style: ParseMode)
    requires style == MarkdownMode ==> ']' !in url
    ensures ReadLink(FormatLink(url, text, style), style) == (url, text)
  {
    var e := HtmlEscape(text);
    HtmlEscapeRoundTrip(text);
    if style == MarkdownMode {
      ReadMarkdownLink(url, e);
    } else {
      ReadHtmlLink(url, e, style);
    }
  }

  lemma MarkdownReadsBack(url: string, e: string)
    requires ']' !in url
    ensures var s := "[" + e + "](" + url + ")";
      var body := s[1..|s| - 1];
      var target := AfterLast(body, ']');
      target == "(" + url && body[..|body| - |target|] == e + "]"
  {
    var s := "[" + e + "](" + url + ")";
    var body := s[1..|s| - 1];
    assert body == e + "]" + ("(" + url);
    AfterLastOf(e, ']', "(" + url);
  }

  lemma HtmlReadsBack(url: string, e: string)
    requires forall i :: 0 <= i < |e| ==> !Markup(e[i])
    ensures var s := "<a href=" + url + ">" + e + "</a>";
      var body := s[8..|s| - 4];
      var text := AfterLast(body, '>');
      text == e && body[..|body| - |text|] == url + ">"
  {
    var s := "<a href=" + url + ">" + e + "</a>";
    var body := s[8..|s| - 4];
    assert body == url + ">" + e;
    assert '>' !in e by {
      forall i | 0 <= i < |e| ensures e[i] != '>' {
        assert !Markup(e[i]);
      }
    }
    AfterLastOf(url, '>', e);
  }

  /** The url `mention` links to. */
  function MentionUrl(id: int): string {
    "tg://user?id=" + Decimal(id)
  }

  /** `User.mention`: a link to the user's id labelled with the first name,
      or "Deleted Account" when the first name is empty. */
  function Mention(u: User, mode: ParseMode): string {
    FormatLink(MentionUrl(u.id), if Filled(u.firstName) then u.firstName.value else "Deleted Account", mode)
  }

  /** A mention reads back to the user's id and the label it promises, in
      every parse mode. */
  lemma MentionReadsBack(u: User, mode: ParseMode)
    ensures var (url, text) := ReadLink(Mention(u, mode), mode);
      && |url| >= 13 && url[..13] == "tg://user?id="
      && ParseInt(url[13..], 10) == Some(u.id)
      && text == (if Filled(u.firstName) then u.firstName.value else "Deleted Account")
  {
    var url := MentionUrl(u.id);
    var digits := Decimal(u.id);
    assert ']' !in digits by {
      forall i | 0 <= i < |digits| ensures digits[i] != ']' {
        NumeralChar(u.id, i);
      }
    }
    assert ']' !in url by {
      assert url == "tg://user?id=" + digits;
    }
    LinkRoundTrip(url, if Filled(u.firstName) then u.firstName.value else "Deleted Account", mode);
    assert url[13..] == digits;
    FormatIntRoundTrip(u.id, 10);
  }

  /** Decimal numerals consist of digits and a leading minus sign only. */
  lemma NumeralChar(i: int, k: int)
    requires 0 <= k < |Decimal(i)|
    ensures Decimal(i)[k] == '-' || '0' <= Decimal(i)[k] <= '9'
  {
    var s := Decimal(i);
    if i < 0 {
      if k > 0 {
        assert s[k] == NatDigits(-i, 10)[k - 1];
        assert IsDigit(s[k], 10);
      }
    } else {
      assert IsDigit(s[k], 10);
    }
  }
}
