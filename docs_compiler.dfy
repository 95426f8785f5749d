/** The pure helpers of the documentation compiler: `snek`, the AST name
    extractors with `parse_node_info`, and `get_title_list`. */
module DocsCompiler {
  import opened Wrappers
  import Text

  // ---------------------------------------------------------------- snek

  predicate IsUpper(c: char) { 'A' <= c <= 'Z' }
  predicate IsLower(c: char) { 'a' <= c <= 'z' }
  predicate IsDigit(c: char) { '0' <= c <= '9' }

  predicate NoUpper(s: string) {
    forall i :: 0 <= i < |s| ==> !IsUpper(s[i])
  }

  /** The length of the run of lower-case letters `s` starts with. */
  function LowerRun(s: string): (n: nat)
    ensures n <= |s|
    ensures forall i :: 0 <= i < n ==> IsLower(s[i])
    ensures n < |s| ==> !IsLower(s[n])
  {
    if s != [] && IsLower(s[0]) then 1 + LowerRun(s[1..]) else 0
  }

  /** `re.sub(r"(.)([A-Z][a-z]+)", r"\1_\2", s)`: scanning left to right,
      any character but a newline followed by a capital and a run of lower
      case letters gets an underscore after it, and the scan resumes after
      the run. */
  function SplitWords(s: string): string
    decreases |s|
  {
    if |s| >= 3 && s[0] != '\n' && IsUpper(s[1]) && IsLower(s[2]) then
      var j := 2 + LowerRun(s[2..]);
      [s[0], '_'] + s[1..j] + SplitWords(s[j..])
    else if s == [] then []
    else [s[0]] + SplitWords(s[1..])
  }

  /** `re.sub(r"([a-z0-9])([A-Z])", r"\1_\2", s)`: a lower-case letter or a
      digit followed by a capital gets an underscore between them, and the
      scan resumes after the capital. */
  function SplitCaps(s: string): string
    decreases |s|
  {
    if |s| >= 2 && (IsLower(s[0]) || IsDigit(s[0])) && IsUpper(s[1]) then
      [s[0], '_', s[1]] + SplitCaps(s[2..])
    else if s == [] then []
    else [s[0]] + SplitCaps(s[1..])
  }

  function LowerChar(c: char): (r: char)
    ensures !IsUpper(r)
    ensures !IsUpper(c) ==> r == c
  {
    if IsUpper(c) then (c as int + 32) as char else c
  }

  /** `str.lower()` on the ASCII letters. */
  function Lower(s: string): (r: string)
    ensures |r| == |s| && NoUpper(r)
    ensures forall i :: 0 <= i < |s| ==> r[i] == LowerChar(s[i])
  {
    seq(|s|, i requires 0 <= i < |s| => LowerChar(s[i]))
  }

  /** `snek`: the two substitutions, then lower case. */
  function Snek(s: string): (r: string)
    ensures NoUpper(r)
  {
    Lower(SplitCaps(SplitWords(s)))
  }

  // A worked example of `snek`, one scanning step per lemma.

  /** A character that starts no match is kept and the scan moves on. */
  lemma SplitWordsCons(s: string)
    requires s != [] && !(|s| >= 3 && s[0] != '\n' && IsUpper(s[1]) && IsLower(s[2]))
    ensures SplitWords(s) == [s[0]] + SplitWords(s[1..])
  {
  }

  /** A character that starts no match is kept and the scan moves on. */
  lemma SplitCapsCons(s: string)
    requires s != [] && !(|s| >= 2 && (IsLower(s[0]) || IsDigit(s[0])) && IsUpper(s[1]))
    ensures SplitCaps(s) == [s[0]] + SplitCaps(s[1..])
  {
  }

  /** A lower-case letter or digit before a capital gets an underscore
      between them, and the scan resumes after the capital. */
  lemma SplitCapsPair(s: string)
    requires |s| >= 2 && (IsLower(s[0]) || IsDigit(s[0])) && IsUpper(s[1])
    ensures SplitCaps(s) == [s[0], '_', s[1]] + SplitCaps(s[2..])
  {
  }

  lemma SplitWordsMember()
    ensures SplitWords("Member") == "Member"
  {
    var s := "Member";
    assert [s[0]] + "ember" == "Member";
    assert s[1..] == "ember";
    SplitWordsCons(s);
    SplitWordsNoUpper("ember");
  }

  /** A capital followed by lower-case letters after any character but a
      newline gets an underscore before it, and the scan resumes after the
      run. */
  lemma SplitWordsMatch(s: string)
    requires |s| >= 3 && s[0] != '\n' && IsUpper(s[1]) && IsLower(s[2])
    ensures var j := 2 + LowerRun(s[2..]);
      SplitWords(s) == [s[0], '_'] + s[1..j] + SplitWords(s[j..])
  {
  }

  lemma LowerRunHat()
    ensures LowerRun("hatMember") == 3
  {
    assert "hatMember"[1..] == "atMember";
    assert "atMember"[1..] == "tMember";
    assert "tMember"[1..] == "Member";
  }

  lemma SplitWordsChat()
    ensures SplitWords("tChatMember") == "t_ChatMember"
  {
    var t := "tChatMember";
    assert ['t', '_'] + "Chat" + "Member" == "t_ChatMember";
    assert t[2..] == "hatMember" && t[5..] == "Member" && t[1..5] == "Chat";
    LowerRunHat();
    SplitWordsMatch(t);
    SplitWordsMember();
  }

  lemma SplitWordsPrefix()
    ensures SplitWords("etChatMember") == "et_ChatMember"
  {
    var s := "etChatMember";
    assert [s[0]] + "t_ChatMember" == "et_ChatMember";
    assert s[1..] == "tChatMember";
    SplitWordsCons(s);
    SplitWordsChat();
  }

  /** The first substitution on "GetChatMember" splits off "Chat" only:
      "Member" follows a run the scan has already consumed. */
  lemma SplitWordsExample()
    ensures SplitWords("GetChatMember") == "Get_ChatMember"
  {
    var s := "GetChatMember";
    assert [s[0]] + "et_ChatMember" == "Get_ChatMember";
    assert s[1..] == "etChatMember";
    SplitWordsCons(s);
    SplitWordsPrefix();
  }

  lemma SplitCapsMember()
    ensures SplitCaps("tMember") == "t_Member"
  {
    var s := "tMember";
    assert ['t', '_', 'M'] + "ember" == "t_Member";
    assert s[2..] == "ember";
    SplitCapsPair(s);
    SplitCapsNoUpper("ember");
  }

  lemma SplitCapsAt()
    ensures SplitCaps("atMember") == "at_Member"
  {
    var s := "atMember";
    assert [s[0]] + "t_Member" == "at_Member";
    assert s[1..] == "tMember";
    SplitCapsCons(s);
    SplitCapsMember();
  }

  lemma SplitCapsHat()
    ensures SplitCaps("hatMember") == "hat_Member"
  {
    var s := "hatMember";
    assert [s[0]] + "at_Member" == "hat_Member";
    assert s[1..] == "atMember";
    SplitCapsCons(s);
    SplitCapsAt();
  }

  lemma SplitCapsChat()
    ensures SplitCaps("ChatMember") == "Chat_Member"
  {
    var s := "ChatMember";
    assert [s[0]] + "hat_Member" == "Chat_Member";
    assert s[1..] == "hatMember";
    SplitCapsCons(s);
    SplitCapsHat();
  }

  lemma SplitCapsUnderscore()
    ensures SplitCaps("_ChatMember") == "_Chat_Member"
  {
    var s := "_ChatMember";
    assert [s[0]] + "Chat_Member" == "_Chat_Member";
    assert s[1..] == "ChatMember";
    SplitCapsCons(s);
    SplitCapsChat();
  }

  lemma SplitCapsT()
    ensures SplitCaps("t_ChatMember") == "t_Chat_Member"
  {
    var s := "t_ChatMember";
    assert [s[0]] + "_Chat_Member" == "t_Chat_Member";
    assert s[1..] == "_ChatMember";
    SplitCapsCons(s);
    SplitCapsUnderscore();
  }

  lemma SplitCapsE()
    ensures SplitCaps("et_ChatMember") == "et_Chat_Member"
  {
    var s := "et_ChatMember";
    assert [s[0]] + "t_Chat_Member" == "et_Chat_Member";
    assert s[1..] == "t_ChatMember";
    SplitCapsCons(s);
    SplitCapsT();
  }

  /** The second substitution on the result splits off "Member". */
  lemma SplitCapsExample()
    ensures SplitCaps("Get_ChatMember") == "Get_Chat_Member"
  {
    var s := "Get_ChatMember";
    assert [s[0]] + "et_Chat_Member" == "Get_Chat_Member";
    assert s[1..] == "et_ChatMember";
    SplitCapsCons(s);
    SplitCapsE();
  }

  /** `snek` turns the name of a raw method class into the name of the
      client method: "GetChatMember" becomes "get_chat_member". */
  lemma SnekExample()
    ensures Snek("GetChatMember") == "get_chat_member"
  {
    var t := "Get_Chat_Member";
    assert Lower(t) == "get_chat_member" by {
      assert |Lower(t)| == |"get_chat_member"|;
      forall i | 0 <= i < |t|
        ensures Lower(t)[i] == "get_chat_member"[i]
      {
      }
    }
    SplitWordsExample();
    SplitCapsExample();
  }

  /** `s` with its underscores removed. */
  function NoUnderscores(s: string): (r: string)
    ensures '_' !in r
  {
    if s == [] then [] else (if s[0] == '_' then [] else [s[0]]) + NoUnderscores(s[1..])
  }

  lemma {:induction false} NoUnderscoresAppend(a: string, b: string)
    ensures NoUnderscores(a + b) == NoUnderscores(a) + NoUnderscores(b)
  {
    if a != [] {
      assert (a + b)[1..] == a[1..] + b;
      NoUnderscoresAppend(a[1..], b);
    } else {
      assert a + b == b;
    }
  }

  /** Putting an underscore after the first character changes nothing once
      underscores are taken out. */
  lemma UnderscoreAfterFirst(h: string)
    requires h != []
    ensures NoUnderscores([h[0], '_'] + h[1..]) == NoUnderscores(h)
  {
    var t := [h[0], '_'] + h[1..];
    var u := ['_'] + h[1..];
    assert t[0] == h[0] && t[1..] == u;
    assert u[0] == '_' && u[1..] == h[1..];
    assert NoUnderscores(u) == NoUnderscores(h[1..]);
    assert NoUnderscores(t) == (if h[0] == '_' then [] else [h[0]]) + NoUnderscores(u);
  }

  lemma {:induction false} SplitWordsOnlyInserts(s: string)
    ensures NoUnderscores(SplitWords(s)) == NoUnderscores(s)
    decreases |s|
  {
    if |s| >= 3 && s[0] != '\n' && IsUpper(s[1]) && IsLower(s[2]) {
      var j := 2 + LowerRun(s[2..]);
      var head, rest := s[..j], s[j..];
      SplitWordsMatch(s);
      assert [s[0], '_'] + s[1..j] == [head[0], '_'] + head[1..];
      SplitWordsOnlyInserts(rest);
      UnderscoreAfterFirst(head);
      NoUnderscoresAppend([head[0], '_'] + head[1..], SplitWords(rest));
      assert s == head + rest;
      NoUnderscoresAppend(head, rest);
    } else if s != [] {
      SplitWordsCons(s);
      SplitWordsOnlyInserts(s[1..]);
      NoUnderscoresAppend([s[0]], SplitWords(s[1..]));
      assert s == [s[0]] + s[1..];
      NoUnderscoresAppend([s[0]], s[1..]);
    }
  }

  lemma {:induction false} SplitCapsOnlyInserts(s: string)
    ensures NoUnderscores(SplitCaps(s)) == NoUnderscores(s)
    decreases |s|
  {
    if |s| >= 2 && (IsLower(s[0]) || IsDigit(s[0])) && IsUpper(s[1]) {
      SplitCapsOnlyInserts(s[2..]);
      NoUnderscoresAppend([s[0], '_', s[1]], SplitCaps(s[2..]));
      assert s == [s[0], s[1]] + s[2..];
      NoUnderscoresAppend([s[0], s[1]], s[2..]);
    } else if s != [] {
      SplitCapsOnlyInserts(s[1..]);
      NoUnderscoresAppend([s[0]], SplitCaps(s[1..]));
      assert s == [s[0]] + s[1..];
      NoUnderscoresAppend([s[0]], s[1..]);
    }
  }

  lemma {:induction false} LowerNoUnderscores(s: string)
    ensures NoUnderscores(Lower(s)) == Lower(NoUnderscores(s))
  {
    if s != [] {
      LowerNoUnderscores(s[1..]);
      assert Lower(s) == [LowerChar(s[0])] + Lower(s[1..]);
      assert Lower(s)[1..] == Lower(s[1..]);
      if s[0] != '_' {
        assert Lower([s[0]] + NoUnderscores(s[1..])) == [LowerChar(s[0])] + Lower(NoUnderscores(s[1..]));
      }
    }
  }

  lemma {:induction false} SplitWordsNoUpper(s: string)
    requires NoUpper(s)
    ensures SplitWords(s) == s
    decreases |s|
  {
    if s != [] {
      SplitWordsNoUpper(s[1..]);
    }
  }

  lemma {:induction false} SplitCapsNoUpper(s: string)
    requires NoUpper(s)
    ensures SplitCaps(s) == s
    decreases |s|
  {
    if s != [] {
      SplitCapsNoUpper(s[1..]);
    }
  }

  /** `snek` only inserts underscores and lowers case: taking the
      underscores out of its result gives the lowered input without its
      underscores. A name without capitals comes back unchanged. */
  lemma SnekLaws(s: string)
    ensures NoUnderscores(Snek(s)) == Lower(NoUnderscores(s))
    ensures NoUpper(s) ==> Snek(s) == s
  {
    SplitWordsOnlyInserts(s);
    SplitCapsOnlyInserts(SplitWords(s));
    LowerNoUnderscores(SplitCaps(SplitWords(s)));
    if NoUpper(s) {
      SplitWordsNoUpper(s);
      SplitCapsNoUpper(s);
    }
  }

  // ---------------------------------------------------------------- AST names

  /** The expressions the extractors look at. */
  datatype Expr = Name(id: string) | Subscript(value: Expr) | OtherExpr

  /** The statements they look at; an assignment keeps its first target. */
  datatype Node = Assign(target: Expr, value: Expr) | ClassDef(name: string) | OtherNode

  datatype NodeType = ClassNode | UnionNode

  datatype NodeInfo = NodeInfo(name: string, kind: NodeType)

  /** `_extract_union_name`: the target's name, only for an assignment of
      a subscript of the name `Union` to a plain name. */
  function ExtractUnionName(n: Node): (r: Option<string>)
    ensures r.Some? <==> && n.Assign? && n.value.Subscript? && n.value.value.Name?
                         && n.value.value.id == "Union" && n.target.Name?
    ensures r.Some? ==> r.value == n.target.id
  {
    if n.Assign? && n.value.Subscript? && n.value.value.Name? && n.value.value.id == "Union" && n.target.Name? then
      Some(n.target.id)
    else None
  }

  /** `_extract_class_name`: the name of a class definition. */
  function ExtractClassName(n: Node): (r: Option<string>)
    ensures r.Some? <==> n.ClassDef?
    ensures r.Some? ==> r.value == n.name
  {
    if n.ClassDef? then Some(n.name) else None
  }

  /** The doctests of both extractors. */
  lemma ExtractorExamples()
    ensures ExtractUnionName(Assign(Name("User"), Subscript(Name("Union")))) == Some("User")
    ensures ExtractClassName(ClassDef("User")) == Some("User")
    ensures ExtractUnionName(ClassDef("User")).None? && ExtractClassName(Assign(Name("User"), Subscript(Name("Union")))).None?
  {
  }

  /** `parse_node_info`: a class with a non-empty name first, then a union
      with a non-empty name, otherwise None. */
  function ParseNodeInfo(n: Node): (r: Option<NodeInfo>)
    ensures r.Some? <==> Text.Filled(ExtractClassName(n)) || Text.Filled(ExtractUnionName(n))
    ensures Text.Filled(ExtractClassName(n)) ==> r == Some(NodeInfo(ExtractClassName(n).value, ClassNode))
    ensures !Text.Filled(ExtractClassName(n)) && Text.Filled(ExtractUnionName(n)) ==>
      r == Some(NodeInfo(ExtractUnionName(n).value, UnionNode))
  {
    var className := ExtractClassName(n);
    if Text.Filled(className) then Some(NodeInfo(className.value, ClassNode))
    else
      var unionName := ExtractUnionName(n);
      if Text.Filled(unionName) then Some(NodeInfo(unionName.value, UnionNode))
      else None
  }

  // ---------------------------------------------------------------- titles

  /** One line of the listing: kept, stripped, when it is not blank. */
  function TitleOf(line: string): Option<string> {
    if line == "" then None
    else
      var j := Text.Strip(line);
      if j == "" then None else Some(Text.Strip(j))
  }

  /** `get_title_list`: the non-blank lines of `s`, stripped, in order. */
  function TitleList(s: string): seq<string> {
    FilterMap(TitleOf, Text.Split(s, '\n'))
  }

  /** A kept line is the stripped line, which is non-empty and has no
      surrounding whitespace; a line is kept whenever its stripped form is
      non-empty. */
  lemma TitleOfLaws(line: string)
    ensures TitleOf(line).Some? <==> Text.Strip(line) != ""
    ensures TitleOf(line).Some? ==> TitleOf(line).value == Text.Strip(line) && Text.Stripped(Text.Strip(line))
  {
    var j := Text.Strip(line);
    Text.StripIdempotent(line);
    if line == "" {
      StripEmpty();
      assert TitleOf(line).None?;
    } else if j == "" {
      assert TitleOf(line).None?;
    } else {
      assert TitleOf(line) == Some(Text.Strip(j));
    }
  }

  lemma StripEmpty()
    ensures Text.Strip("") == ""
  {
    var i :| Text.StripOf(Text.Strip(""), "", i);
  }

  /** Every title is a non-empty stripped line of the text. */
  lemma TitleListSound(s: string)
    ensures forall t :: t in TitleList(s) ==> t != "" && Text.Stripped(t)
    ensures forall t :: t in TitleList(s) ==> exists line :: line in Text.Split(s, '\n') && t == Text.Strip(line)
  {
    var lines := Text.Split(s, '\n');
    forall t | t in TitleList(s)
      ensures t != "" && Text.Stripped(t)
      ensures exists line :: line in lines && t == Text.Strip(line)
    {
      var k := FilterMapSource(TitleOf, lines, t);
      TitleOfLaws(lines[k]);
      assert lines[k] in lines;
    }
  }

  /** When no line is blank, every line gives its title, in order. */
  lemma TitleListComplete(s: string)
    requires forall k :: 0 <= k < |Text.Split(s, '\n')| ==> Text.Strip(Text.Split(s, '\n')[k]) != ""
    ensures |TitleList(s)| == |Text.Split(s, '\n')|
    ensures forall k :: 0 <= k < |TitleList(s)| ==> TitleList(s)[k] == Text.Strip(Text.Split(s, '\n')[k])
  {
    var lines := Text.Split(s, '\n');
    var titles := seq(|lines|, k requires 0 <= k < |lines| => Text.Strip(lines[k]));
    forall k | 0 <= k < |lines|
      ensures TitleOf(lines[k]) == Some(titles[k])
    {
      TitleOfLaws(lines[k]);
    }
    FilterMapTotal(TitleOf, lines, titles);
  }
}
