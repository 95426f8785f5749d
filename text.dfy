/** String helpers that the decoders use: integer formatting (`str(i)`,
    `format(i, "x")`), `html.escape`, `str.split`, `str.strip` and the
    `" ".join(filter(None, ...)) or None` name join. Each comes with the
    inverse or reference definition it is proved against. */
module Text {
  import opened Wrappers

  // ---------------------------------------------------------------- integers

  /** The digit for `d` in bases up to 16, lower case as Python prints it. */
  function DigitChar(d: nat): (c: char)
    requires d < 16
  {
    if d < 10 then ('0' as int + d) as char else ('a' as int + d - 10) as char
  }

  /** The value of a lower-case digit of `base`, if `c` is one. */
  function DigitValue(c: char, base: nat): (r: Option<nat>)
    requires 2 <= base <= 16
    ensures r.Some? ==> r.value < base && DigitChar(r.value) == c
  {
    if '0' <= c <= '9' && (c as int - '0' as int) < base then Some(c as int - '0' as int)
    else if 'a' <= c <= 'f' && (c as int - 'a' as int + 10) < base then Some(c as int - 'a' as int + 10)
    else None
  }

  predicate IsDigit(c: char, base: nat)
    requires 2 <= base <= 16
  {
    DigitValue(c, base).Some?
  }

  /** The digits of `n` in `base`, most significant first, without leading zeros. */
  function NatDigits(n: nat, base: nat): (s: string)
    requires 2 <= base <= 16
    ensures 0 < |s|
    ensures forall i :: 0 <= i < |s| ==> IsDigit(s[i], base)
    decreases n
  {
    if n < base then
      assert DigitValue(DigitChar(n), base) == Some(n);
      [DigitChar(n)]
    else
      var q, d := n / base, n % base;
      DivMod(n, base);
      assert DigitValue(DigitChar(d), base) == Some(d);
      NatDigits(q, base) + [DigitChar(d)]
  }

  lemma DivMod(n: nat, base: nat)
    requires 2 <= base <= 16 && base <= n
    ensures n / base < n && n % base < base && n == (n / base) * base + n % base
  {
    var q := n / base;
    assert q * base <= n;
  }

  /** The value of a string of digits (the reference reading of NatDigits). */
  function DigitsValue(s: string, base: nat): nat
    requires 2 <= base <= 16
    requires forall i :: 0 <= i < |s| ==> IsDigit(s[i], base)
  {
    if s == [] then 0
    else
      assert IsDigit(s[|s| - 1], base);
      var init := s[..|s| - 1];
      assert forall i :: 0 <= i < |init| ==> init[i] == s[i];
      DigitsValue(init, base) * base + DigitValue(s[|s| - 1], base).value
  }

  lemma {:induction false} NatDigitsValue(n: nat, base: nat)
    requires 2 <= base <= 16
    ensures DigitsValue(NatDigits(n, base), base) == n
    decreases n
  {
    if n < base {
      assert DigitValue(DigitChar(n), base) == Some(n);
      DigitsValueSnoc([], DigitChar(n), base);
      assert [] + [DigitChar(n)] == NatDigits(n, base);
    } else {
      var q, d := n / base, n % base;
      DivMod(n, base);
      NatDigitsValue(q, base);
      assert DigitValue(DigitChar(d), base) == Some(d);
      DigitsValueSnoc(NatDigits(q, base), DigitChar(d), base);
    }
  }

  /** One more digit at the end multiplies the value by the base and adds it. */
  lemma DigitsValueSnoc(t: string, c: char, base: nat)
    requires 2 <= base <= 16
    requires forall i :: 0 <= i < |t| ==> IsDigit(t[i], base)
    requires IsDigit(c, base)
    ensures forall i :: 0 <= i < |t + [c]| ==> IsDigit((t + [c])[i], base)
    ensures DigitsValue(t + [c], base) == DigitsValue(t, base) * base + DigitValue(c, base).value
  {
    var s := t + [c];
    assert s[..|s| - 1] == t;
  }

  /** Python's `str(i)` (base 10) and `format(i, "x")` (base 16): a minus sign
      for negatives, then the digits of the magnitude. */
  function FormatInt(i: int, base: nat): (s: string)
    requires 2 <= base <= 16
    ensures 0 < |s|
    ensures s[0] == '-' <==> i < 0
    ensures forall k :: 0 < k < |s| ==> IsDigit(s[k], base)
    ensures IsDigit(s[0], base) || s[0] == '-'
  {
    if i < 0 then "-" + NatDigits(-i, base) else NatDigits(i, base)
  }

  function Decimal(i: int): string {
    FormatInt(i, 10)
  }

  /** Reading an optional minus sign and at least one digit back into an integer. */
  function ParseInt(s: string, base: nat): (r: Option<int>)
    requires 2 <= base <= 16
  {
    if |s| > 0 && s[0] == '-' then
      var m := ParseNat(s[1..], base);
      if m.Some? then Some(0 - m.value) else None
    else
      var m := ParseNat(s, base);
      if m.Some? then Some(m.value) else None
  }

  function ParseNat(s: string, base: nat): (r: Option<nat>)
    requires 2 <= base <= 16
  {
    if 0 < |s| && forall i :: 0 <= i < |s| ==> IsDigit(s[i], base) then Some(DigitsValue(s, base))
    else None
  }

  /** Formatting loses nothing: the text reads back as the same integer. */
  lemma FormatIntRoundTrip(i: int, base: nat)
    requires 2 <= base <= 16
    ensures ParseInt(FormatInt(i, base), base) == Some(i)
  {
    if i < 0 {
      NatDigitsValue(-i, base);
      assert FormatInt(i, base)[1..] == NatDigits(-i, base);
    } else {
      NatDigitsValue(i, base);
      var s := NatDigits(i, base);
      assert IsDigit(s[0], base);
    }
  }

  lemma FormatIntInjective(i: int, j: int, base: nat)
    requires 2 <= base <= 16
    requires FormatInt(i, base) == FormatInt(j, base)
    ensures i == j
  {
    FormatIntRoundTrip(i, base);
    FormatIntRoundTrip(j, base);
  }

  // ---------------------------------------------------------------- html.escape

  /** `html.escape(c, quote=True)` of one character. */
  function EscapeChar(c: char): string {
    if c == '&' then "&amp;"
    else if c == '<' then "&lt;"
    else if c == '>' then "&gt;"
    else if c == '"' then "&quot;"
    else if c == '\'' then "&#x27;"
    else [c]
  }

  predicate Markup(c: char) {
    c == '<' || c == '>' || c == '"' || c == '\''
  }

  /** `html.escape(s)`: the result holds no tag or quote character. */
  function HtmlEscape(s: string): (r: string)
    ensures forall i :: 0 <= i < |r| ==> !Markup(r[i])
    ensures |s| <= |r|
  {
    if s == [] then [] else EscapeChar(s[0]) + HtmlEscape(s[1..])
  }

  predicate StartsWith(s: string, p: string) {
    |p| <= |s| && s[..|p|] == p
  }

  /** The reading of the five entities that `html.escape` produces. */
  function HtmlUnescape(s: string): string
    decreases |s|
  {
    if s == [] then []
    else if s[0] != '&' then [s[0]] + HtmlUnescape(s[1..])
    else if StartsWith(s, "&amp;") then "&" + HtmlUnescape(s[5..])
    else if StartsWith(s, "&lt;") then "<" + HtmlUnescape(s[4..])
    else if StartsWith(s, "&gt;") then ">" + HtmlUnescape(s[4..])
    else if StartsWith(s, "&quot;") then "\"" + HtmlUnescape(s[6..])
    else if StartsWith(s, "&#x27;") then "'" + HtmlUnescape(s[6..])
    else [s[0]] + HtmlUnescape(s[1..])
  }

  lemma UnescapeStep(c: char, t: string)
    ensures HtmlUnescape(EscapeChar(c) + t) == [c] + HtmlUnescape(t)
  {
    var s := EscapeChar(c) + t;
    if c == '&' {
      assert s[..5] == "&amp;" && s[5..] == t;
    } else if c == '<' {
      UnescapeEntity(s, "&lt;", t, 'l');
    } else if c == '>' {
      UnescapeEntity(s, "&gt;", t, 'g');
    } else if c == '"' {
      UnescapeEntity(s, "&quot;", t, 'q');
    } else if c == '\'' {
      UnescapeEntity(s, "&#x27;", t, '#');
    } else {
      assert s[0] == c && s[1..] == t;
    }
  }

  lemma UnescapeEntity(s: string, e: string, t: string, second: char)
    requires s == e + t && 2 <= |e| && e[0] == '&' && e[1] == second
    ensures StartsWith(s, e) && s[|e|..] == t
    ensures second != 'a' ==> !StartsWith(s, "&amp;")
    ensures second != 'l' ==> !StartsWith(s, "&lt;")
    ensures second != 'g' ==> !StartsWith(s, "&gt;")
    ensures second != 'q' ==> !StartsWith(s, "&quot;")
  {
    assert s[..|e|] == e;
    assert s[1] == second;
  }

  /** Escaping loses nothing: the text reads back exactly. */
  lemma {:induction false} HtmlEscapeRoundTrip(s: string)
    ensures HtmlUnescape(HtmlEscape(s)) == s
  {
    if s != [] {
      UnescapeStep(s[0], HtmlEscape(s[1..]));
      HtmlEscapeRoundTrip(s[1..]);
    }
  }

  // ---------------------------------------------------------------- str.split

  function IndexOf(s: string, c: char): (k: nat)
    requires c in s
    ensures k < |s| && s[k] == c && c !in s[..k]
  {
    if s[0] == c then 0 else 1 + IndexOf(s[1..], c)
  }

  /** `s.split(sep)` for a one-character separator: never empty, "" gives [""]. */
  function Split(s: string, sep: char): (r: seq<string>)
    ensures 0 < |r|
    ensures forall i :: 0 <= i < |r| ==> sep !in r[i]
    decreases |s|
  {
    if sep !in s then [s]
    else
      var k := IndexOf(s, sep);
      [s[..k]] + Split(s[k + 1..], sep)
  }

  /** `sep.join(parts)`, the inverse of Split. */
  function Join(parts: seq<string>, sep: char): string {
    if |parts| == 0 then ""
    else if |parts| == 1 then parts[0]
    else parts[0] + [sep] + Join(parts[1..], sep)
  }

  lemma {:induction false} SplitJoin(s: string, sep: char)
    ensures Join(Split(s, sep), sep) == s
    decreases |s|
  {
    if sep in s {
      var k := IndexOf(s, sep);
      SplitJoin(s[k + 1..], sep);
      assert s == s[..k] + [sep] + s[k + 1..];
    }
  }

  /** `s.split(sep)[-1]`: the part after the last separator, or all of `s`
      when it holds none; read from the end. */
  function AfterLast(s: string, sep: char): (r: string)
    ensures |r| <= |s| && r == s[|s| - |r|..]
    ensures |r| < |s| ==> s[|s| - |r| - 1] == sep
    ensures forall i :: 0 <= i < |r| ==> r[i] != sep
    decreases |s|
  {
    if s == [] || s[|s| - 1] == sep then []
    else
      var c := s[|s| - 1];
      var q := AfterLast(s[..|s| - 1], sep);
      assert s[|s| - |q| - 1..] == s[..|s| - 1][|s| - 1 - |q|..] + [c];
      q + [c]
  }

  // ---------------------------------------------------------------- str.strip

  /** The characters Python's `str.isspace` accepts (and `str.strip` removes). */
  predicate IsSpace(c: char) {
    c == ' ' || ('\t' <= c <= '\r') || ('\U{1c}' <= c <= '\U{1f}') || c == '\U{85}'
    || c == '\U{a0}' || c == '\U{1680}' || ('\U{2000}' <= c <= '\U{200a}') || c == '\U{2028}'
    || c == '\U{2029}' || c == '\U{202f}' || c == '\U{205f}' || c == '\U{3000}'
  }

  predicate Stripped(s: string) {
    s == [] || (!IsSpace(s[0]) && !IsSpace(s[|s| - 1]))
  }

  function TrimLeft(s: string): (r: string)
    ensures |r| <= |s| && r == s[|s| - |r|..]
    ensures forall i :: 0 <= i < |s| - |r| ==> IsSpace(s[i])
    ensures r == [] || !IsSpace(r[0])
  {
    if s != [] && IsSpace(s[0]) then TrimLeft(s[1..]) else s
  }

  function TrimRight(s: string): (r: string)
    ensures |r| <= |s| && r == s[..|r|]
    ensures forall i :: |r| <= i < |s| ==> IsSpace(s[i])
    ensures r == [] || !IsSpace(r[|r| - 1])
  {
    if s != [] && IsSpace(s[|s| - 1]) then TrimRight(s[..|s| - 1]) else s
  }

  /** `r` is `s` with the whitespace run `s[..i]` and the whitespace after `r` removed. */
  predicate StripOf(r: string, s: string, i: int) {
    0 <= i <= |s| - |r| && r == s[i..i + |r|]
    && (forall k :: 0 <= k < i ==> IsSpace(s[k]))
    && (forall k :: i + |r| <= k < |s| ==> IsSpace(s[k]))
  }

  /** `s.strip()`: only surrounding whitespace is removed, and all of it. */
  function Strip(s: string): (r: string)
    ensures Stripped(r)
    ensures exists i :: StripOf(r, s, i)
  {
    var l := TrimLeft(s);
    var r := TrimRight(l);
    StripWitness(s, l, r);
    r
  }

  lemma StripWitness(s: string, l: string, r: string)
    requires l == TrimLeft(s) && r == TrimRight(l)
    ensures Stripped(r) && StripOf(r, s, |s| - |l|)
  {
    InfixOfSuffix(s, l, r);
    if r != [] {
      assert r[0] == l[0];
    }
  }

  /** A prefix `r` of a suffix `l` of `s`, cut off by whitespace on both
      sides, is a strip of `s`. */
  lemma InfixOfSuffix(s: string, l: string, r: string)
    requires |l| <= |s| && l == s[|s| - |l|..]
    requires forall k :: 0 <= k < |s| - |l| ==> IsSpace(s[k])
    requires |r| <= |l| && r == l[..|r|]
    requires forall k :: |r| <= k < |l| ==> IsSpace(l[k])
    ensures StripOf(r, s, |s| - |l|)
  {
    var i := |s| - |l|;
    assert r == s[i..i + |r|];
    forall k | i + |r| <= k < |s|
      ensures IsSpace(s[k])
    {
      assert s[k] == l[k - i];
    }
  }

  lemma StripIdempotent(s: string)
    ensures Strip(Strip(s)) == Strip(s)
  {
    var t := Strip(s);
    if t != [] {
      assert TrimLeft(t) == t;
      assert TrimRight(t) == t;
    }
  }

  // ---------------------------------------------------------------- names

  function Filled(o: Option<string>): bool {
    o.Some? && o.value != ""
  }

  /** `" ".join(filter(None, [first, last])) or None`. */
  function JoinNames(first: Option<string>, last: Option<string>): (r: Option<string>)
    ensures r.None? <==> !Filled(first) && !Filled(last)
    ensures Filled(first) && Filled(last) ==> r == Some(first.value + " " + last.value)
    ensures Filled(first) && !Filled(last) ==> r == first
    ensures !Filled(first) && Filled(last) ==> r == last
  {
    if Filled(first) && Filled(last) then Some(first.value + " " + last.value)
    else if Filled(first) then first
    else if Filled(last) then last
    else None
  }

  /** When the first name has no space, the full name splits back into the
      two names at its first space. */
  lemma JoinNamesSplit(first: string, last: string)
    requires first != "" && last != "" && ' ' !in first
    ensures var full := JoinNames(Some(first), Some(last)).value;
      ' ' in full && full[..IndexOf(full, ' ')] == first && full[IndexOf(full, ' ') + 1..] == last
  {
    var full := first + " " + last;
    assert full[|first|] == ' ';
    assert full[..|first|] == first;
    var k := IndexOf(full, ' ');
    assert k == |first|;
    assert full[k + 1..] == last;
  }
}
