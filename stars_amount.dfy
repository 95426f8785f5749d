/** `StarsAmount`: an amount of Telegram Stars with nano precision, its
    decoders, `__repr__` and the whole-number branch of `__str__`. */
module StarsAmounts {
  import opened Wrappers
  import opened Text

  datatype RawStarsAmount = RawStarsAmount(amount: int, nanos: int)

  datatype StarsAmount = StarsAmount(amount: int, nanos: int)

  /** `_parse`: None for None, otherwise both parts copied. */
  function Parse(raw: Option<RawStarsAmount>): (r: Option<StarsAmount>)
    ensures r.None? <==> raw.None?
    ensures r.Some? ==> r.value.amount == raw.value.amount && r.value.nanos == raw.value.nanos
  {
    match raw
    case None => None
    case Some(a) => Some(StarsAmount(a.amount, a.nanos))
  }

  /** `_parse_int`: a whole number of Stars, with no nanos. */
  function ParseInt(amount: int): (r: StarsAmount)
    ensures r.amount == amount && r.nanos == 0
  {
    StarsAmount(amount, 0)
  }

  const ReprHead: string := "StarsAmount(amount="
  const NanosTag: string := ", nanos="

  /** `__repr__`: the nanos part is shown exactly when it is non-zero. */
  function Repr(a: StarsAmount): (s: string)
    ensures ',' in s <==> a.nanos != 0
  {
    NoComma(a.amount);
    NoComma(a.nanos);
    var s := if a.nanos != 0 then ReprHead + Decimal(a.amount) + NanosTag + Decimal(a.nanos) + ")"
             else ReprHead + Decimal(a.amount) + ")";
    assert a.nanos != 0 ==> s[|ReprHead| + |Decimal(a.amount)|] == ',';
    s
  }

  lemma NoComma(i: int)
    ensures ',' !in Decimal(i) && ')' !in Decimal(i)
  {
    var d := Decimal(i);
    forall k | 0 <= k < |d|
      ensures d[k] != ',' && d[k] != ')'
    {
      if k > 0 {
        assert IsDigit(d[k], 10);
      }
    }
  }

  /** Reading a `__repr__` text back. */
  function ReadRepr(s: string): Option<StarsAmount> {
    if |s| < |ReprHead| + 1 || s[..|ReprHead|] != ReprHead || s[|s| - 1] != ')' then None
    else
      var body := s[|ReprHead|..|s| - 1];
      if ',' !in body then
        var a := Text.ParseInt(body, 10);
        if a.Some? then Some(StarsAmount(a.value, 0)) else None
      else
        var k := IndexOf(body, ',');
        var rest := body[k..];
        if |rest| < |NanosTag| || rest[..|NanosTag|] != NanosTag then None
        else
          var a := Text.ParseInt(body[..k], 10);
          var n := Text.ParseInt(rest[|NanosTag|..], 10);
          if a.Some? && n.Some? then Some(StarsAmount(a.value, n.value)) else None
  }

  /** `__repr__` loses nothing: both parts read back. */
  lemma ReprRoundTrip(a: StarsAmount)
    ensures ReadRepr(Repr(a)) == Some(a)
  {
    if a.nanos == 0 {
      ReprRoundTripWhole(a);
    } else {
      ReprRoundTripNanos(a);
    }
  }

  lemma ReprRoundTripWhole(a: StarsAmount)
    requires a.nanos == 0
    ensures ReadRepr(Repr(a)) == Some(a)
  {
    var d := Decimal(a.amount);
    NoComma(a.amount);
    FormatIntRoundTrip(a.amount, 10);
    ReprShape(Repr(a), d);
  }

  lemma ReprRoundTripNanos(a: StarsAmount)
    requires a.nanos != 0
    ensures ReadRepr(Repr(a)) == Some(a)
  {
    var d, e := Decimal(a.amount), Decimal(a.nanos);
    NoComma(a.amount);
    FormatIntRoundTrip(a.amount, 10);
    FormatIntRoundTrip(a.nanos, 10);
    var body := d + NanosTag + e;
    assert Repr(a) == ReprHead + body + ")";
    ReprShape(Repr(a), body);
    NanosBody(body, d, e);
    TaggedRest(body[|d|..], e);
  }

  /** The frame of a `__repr__` text around its body. */
  lemma ReprShape(s: string, body: string)
    requires s == ReprHead + body + ")"
    ensures |s| >= |ReprHead| + 1 && s[..|ReprHead|] == ReprHead && s[|s| - 1] == ')'
    ensures s[|ReprHead|..|s| - 1] == body
  {
  }

  /** A body with nanos splits at its first comma, which ends the amount. */
  lemma NanosBody(body: string, d: string, e: string)
    requires body == d + NanosTag + e && ',' !in d
    ensures ',' in body && IndexOf(body, ',') == |d|
    ensures body[..|d|] == d && body[|d|..] == NanosTag + e
  {
    assert body[|d|] == ',';
    assert body[..|d|] == d;
    IndexOfFirst(body, ',', |d|);
  }

  lemma TaggedRest(rest: string, e: string)
    requires rest == NanosTag + e
    ensures |rest| >= |NanosTag| && rest[..|NanosTag|] == NanosTag && rest[|NanosTag|..] == e
  {
  }

  /** The first occurrence is where IndexOf finds the character. */
  lemma IndexOfFirst(s: string, c: char, k: int)
    requires 0 <= k < |s| && s[k] == c && c !in s[..k]
    ensures IndexOf(s, c) == k
  {
  }

  /** `__str__` of a whole amount (nanos = 0): "<amount> Stars". */
  function WholeStr(a: StarsAmount): (s: string)
    requires a.nanos == 0
    ensures |s| > 6 && s[|s| - 6..] == " Stars"
    ensures Text.ParseInt(s[..|s| - 6], 10) == Some(a.amount)
  {
    FormatIntRoundTrip(a.amount, 10);
    var s := Decimal(a.amount) + " Stars";
    assert s[..|s| - 6] == Decimal(a.amount);
    s
  }
}
