/**
 * The JSON text (RFC 8259) that `JSON.stringify` writes for the objects the
 * message builders embed: objects of named members whose values are strings or
 * objects. `Stringify` writes the compact form, with the escapes of
 * ECMAScript's QuoteJSONString; `Parse` reads that form back.
 */
module Json {
  import opened Wrappers
  import opened Seqs

  datatype Json = JString(str: string) | JObject(members: seq<Member>)
  datatype Member = Member(key: string, value: Json)

  function HexDigit(n: int): (c: char)
    requires 0 <= n < 16
  {
    if n < 10 then ('0' as int + n) as char else ('a' as int + (n - 10)) as char
  }

  function HexValue(c: char): (r: Option<int>)
    ensures r.Some? ==> 0 <= r.value < 16
  {
    if '0' <= c <= '9' then Some(c as int - '0' as int)
    else if 'a' <= c <= 'f' then Some(c as int - 'a' as int + 10)
    else if 'A' <= c <= 'F' then Some(c as int - 'A' as int + 10)
    else None
  }

  /** How `JSON.stringify` writes one character inside a string literal. */
  function EscapeChar(c: char): (s: string)
    ensures |s| >= 1
    ensures s[0] == '\\' || (s == [c] && c != '"' && c != '\\' && c as int >= 0x20)
  {
    if c == '"' then "\\\""
    else if c == '\\' then "\\\\"
    else if c as int == 0x08 then "\\b"
    else if c == '\t' then "\\t"
    else if c == '\n' then "\\n"
    else if c as int == 0x0C then "\\f"
    else if c == '\r' then "\\r"
    else if c as int < 0x20 then ['\\', 'u', '0', '0', HexDigit(c as int / 16), HexDigit(c as int % 16)]
    else [c]
  }

  /** Each character of a string literal, escaped, in order. */
  function Escape(s: string): string
  {
    Flatten(seq(|s|, i requires 0 <= i < |s| => EscapeChar(s[i])))
  }

  lemma EscapeCons(s: string)
    requires |s| > 0
    ensures Escape(s) == EscapeChar(s[0]) + Escape(s[1..])
  {
    var parts := seq(|s|, i requires 0 <= i < |s| => EscapeChar(s[i]));
    assert parts[1..] == seq(|s| - 1, i requires 0 <= i < |s| - 1 => EscapeChar(s[1..][i]));
  }

  function Quote(s: string): (r: string)
    ensures |r| >= 2 && r[0] == '"'
  {
    "\"" + Escape(s) + "\""
  }

  function Stringify(j: Json): (s: string)
    ensures |s| >= 2
    decreases j, 1
  {
    match j
    case JString(str) => Quote(str)
    case JObject(ms) => "{" + StringifyMembers(ms) + "}"
  }

  function StringifyMembers(ms: seq<Member>): (s: string)
    ensures |ms| > 0 ==> |s| > 0 && s[0] == '"'
    decreases ms, 0
  {
    if |ms| == 0 then ""
    else if |ms| == 1 then StringifyMember(ms[0])
    else StringifyMember(ms[0]) + "," + StringifyMembers(ms[1..])
  }

  function StringifyMember(m: Member): (s: string)
    ensures |s| > 0 && s[0] == '"'
    decreases m, 0
  {
    Quote(m.key) + ":" + Stringify(m.value)
  }

  /**
   * Reads the escape that follows a backslash: the character it stands for
   * and how many characters it took. A `\u` escape naming a surrogate is refused.
   */
  function ParseEscape(s: string): (r: Option<(char, nat)>)
    ensures r.Some? ==> 1 <= r.value.1 <= |s|
  {
    if |s| == 0 then None
    else if s[0] == '"' then Some(('"', 1))
    else if s[0] == '\\' then Some(('\\', 1))
    else if s[0] == '/' then Some(('/', 1))
    else if s[0] == 'b' then Some((0x08 as char, 1))
    else if s[0] == 't' then Some(('\t', 1))
    else if s[0] == 'n' then Some(('\n', 1))
    else if s[0] == 'f' then Some((0x0C as char, 1))
    else if s[0] == 'r' then Some(('\r', 1))
    else if s[0] == 'u' && |s| >= 5 then
      var h0, h1, h2, h3 := HexValue(s[1]), HexValue(s[2]), HexValue(s[3]), HexValue(s[4]);
      if h0.None? || h1.None? || h2.None? || h3.None? then None
      else
        var n := h0.value * 4096 + h1.value * 256 + h2.value * 16 + h3.value;
        if 0xD800 <= n < 0xE000 then None else Some((n as char, 5))
    else None
  }

  /** Reads the rest of a string literal after its opening quote. */
  function ParseStringBody(s: string): (r: Option<(string, string)>)
    ensures r.Some? ==> |r.value.1| < |s|
    decreases |s|
  {
    if |s| == 0 then None
    else if s[0] == '"' then Some(("", s[1..]))
    else if s[0] == '\\' then
      match ParseEscape(s[1..])
      case None => None
      case Some((c, k)) =>
        match ParseStringBody(s[1 + k..])
        case None => None
        case Some((t, rest)) => Some(([c] + t, rest))
    else if s[0] as int < 0x20 then None
    else
      match ParseStringBody(s[1..])
      case None => None
      case Some((t, rest)) => Some(([s[0]] + t, rest))
  }

  /** Reads one value from the front of `s`, returning it and what follows. */
  function ParseValue(s: string): (r: Option<(Json, string)>)
    ensures r.Some? ==> |r.value.1| < |s|
    decreases |s|, 1
  {
    if |s| == 0 then None
    else if s[0] == '"' then
      match ParseStringBody(s[1..])
      case None => None
      case Some((str, rest)) => Some((JString(str), rest))
    else if s[0] == '{' then
      if |s| >= 2 && s[1] == '}' then Some((JObject([]), s[2..]))
      else
        match ParseMembers(s[1..])
        case None => None
        case Some((ms, rest)) => Some((JObject(ms), rest))
    else None
  }

  /** Reads `member ("," member)* "}"`, returning the members and what follows. */
  function ParseMembers(s: string): (r: Option<(seq<Member>, string)>)
    ensures r.Some? ==> |r.value.1| < |s|
    decreases |s|, 0
  {
    if |s| == 0 || s[0] != '"' then None
    else
      match ParseStringBody(s[1..])
      case None => None
      case Some((key, r1)) =>
        if |r1| == 0 || r1[0] != ':' then None
        else
          match ParseValue(r1[1..])
          case None => None
          case Some((v, r2)) =>
            if |r2| == 0 then None
            else if r2[0] == '}' then Some(([Member(key, v)], r2[1..]))
            else if r2[0] == ',' then
              match ParseMembers(r2[1..])
              case None => None
              case Some((ms, r3)) => Some(([Member(key, v)] + ms, r3))
            else None
  }

  /** A whole JSON text: one value and nothing after it. */
  function Parse(s: string): (r: Option<Json>)
  {
    match ParseValue(s)
    case Some((j, rest)) => if rest == "" then Some(j) else None
    case None => None
  }

  lemma ParseEscapeChar(c: char, t: string)
    requires EscapeChar(c)[0] == '\\'
    ensures ParseEscape(EscapeChar(c)[1..] + t) == Some((c, |EscapeChar(c)| - 1))
  {
    var n := c as int;
    if c != '"' && c != '\\' && n != 0x08 && n != 0x09 && n != 0x0A && n != 0x0C && n != 0x0D {
      var s := EscapeChar(c)[1..] + t;
      assert s[1] == '0' && s[2] == '0' && s[3] == HexDigit(n / 16) && s[4] == HexDigit(n % 16);
      assert HexValue(s[3]) == Some(n / 16) && HexValue(s[4]) == Some(n % 16);
    }
  }

  /** One written character, escaped or not, is read back before the rest of the literal. */
  lemma ParseEscapedStep(c: char, tail: string, t: string, rest: string)
    requires ParseStringBody(tail) == Some((t, rest))
    ensures ParseStringBody(EscapeChar(c) + tail) == Some(([c] + t, rest))
  {
    var e := EscapeChar(c);
    var s := e + tail;
    if e[0] == '\\' {
      ParseEscapeChar(c, tail);
      assert s[1..] == e[1..] + tail;
      assert s[1 + (|e| - 1)..] == tail;
    } else {
      assert s[1..] == tail;
    }
  }

  lemma {:induction false} ParseEscaped(str: string, rest: string)
    ensures ParseStringBody(Escape(str) + "\"" + rest) == Some((str, rest))
  {
    if |str| == 0 {
      assert Escape(str) + "\"" + rest == "\"" + rest;
    } else {
      var tail := Escape(str[1..]) + "\"" + rest;
      EscapeCons(str);
      assert Escape(str) + "\"" + rest == EscapeChar(str[0]) + tail;
      ParseEscaped(str[1..], rest);
      ParseEscapedStep(str[0], tail, str[1..], rest);
      assert [str[0]] + str[1..] == str;
    }
  }

  lemma {:induction false} ParseStringified(j: Json, rest: string)
    ensures ParseValue(Stringify(j) + rest) == Some((j, rest))
    decreases j, 1
  {
    match j
    case JString(str) =>
      var s := Stringify(j) + rest;
      assert s[1..] == Escape(str) + "\"" + rest;
      ParseEscaped(str, rest);
    case JObject(ms) =>
      var s := Stringify(j) + rest;
      if |ms| == 0 {
        assert StringifyMembers(ms) == "";
        assert s == "{}" + rest;
      } else {
        assert s[1..] == StringifyMembers(ms) + "}" + rest;
        ParseStringifiedMembers(ms, rest);
      }
  }

  /** A written member followed by any text: its key and its value both read back. */
  lemma ParseMemberParts(key: string, v: Json, after: string)
    ensures var s := StringifyMember(Member(key, v)) + after;
            var r1 := ":" + Stringify(v) + after;
            |s| > 0 && s[0] == '"' && ParseStringBody(s[1..]) == Some((key, r1)) &&
            r1[0] == ':' && ParseValue(r1[1..]) == Some((v, after))
    decreases v, 2
  {
    var s := StringifyMember(Member(key, v)) + after;
    var r1 := ":" + Stringify(v) + after;
    RegroupSix("\"", Escape(key), "\"", ":", Stringify(v), after);
    assert s[1..] == Escape(key) + "\"" + r1;
    ParseEscaped(key, r1);
    assert r1[1..] == Stringify(v) + after;
    ParseStringified(v, after);
  }

  /** `ParseMembers` on a text whose key and value have already been read. */
  lemma ParseMembersStep(s: string, key: string, r1: string, v: Json, after: string)
    requires |s| > 0 && s[0] == '"'
    requires ParseStringBody(s[1..]) == Some((key, r1))
    requires |r1| > 0 && r1[0] == ':'
    requires ParseValue(r1[1..]) == Some((v, after))
    requires |after| > 0
    ensures ParseMembers(s) ==
      if after[0] == '}' then Some(([Member(key, v)], after[1..]))
      else if after[0] == ',' then
        match ParseMembers(after[1..])
        case None => None
        case Some((ms, r3)) => Some(([Member(key, v)] + ms, r3))
      else None
  {
  }

  lemma {:induction false} ParseStringifiedMembers(ms: seq<Member>, rest: string)
    requires |ms| > 0
    ensures ParseMembers(StringifyMembers(ms) + "}" + rest) == Some((ms, rest))
    decreases ms, 1
  {
    if |ms| == 1 {
      ParseLastMember(ms, rest);
    } else {
      ParseStringifiedMembers(ms[1..], rest);
      ParseFirstMember(ms, rest);
    }
  }

  /** The first of several members, once the others are known to read back. */
  lemma ParseFirstMember(ms: seq<Member>, rest: string)
    requires |ms| > 1
    requires ParseMembers(StringifyMembers(ms[1..]) + "}" + rest) == Some((ms[1..], rest))
    ensures ParseMembers(StringifyMembers(ms) + "}" + rest) == Some((ms, rest))
    decreases ms, 0
  {
    var m := ms[0];
    var a := StringifyMember(m);
    var t := StringifyMembers(ms[1..]) + "}" + rest;
    var after := "," + t;
    assert StringifyMembers(ms) == a + "," + StringifyMembers(ms[1..]);
    Regroup(a, ",", StringifyMembers(ms[1..]), "}", rest);
    ParseMemberParts(m.key, m.value, after);
    ParseMembersStep(a + after, m.key, ":" + Stringify(m.value) + after, m.value, after);
    assert after[1..] == t;
    assert [m] + ms[1..] == ms;
  }

  /** A single member followed by the closing brace. */
  lemma ParseLastMember(ms: seq<Member>, rest: string)
    requires |ms| == 1
    ensures ParseMembers(StringifyMembers(ms) + "}" + rest) == Some((ms, rest))
    decreases ms, 0
  {
    var m := ms[0];
    var a := StringifyMember(m);
    var after := "}" + rest;
    assert StringifyMembers(ms) + "}" + rest == a + after;
    ParseMemberParts(m.key, m.value, after);
    ParseMembersStep(a + after, m.key, ":" + Stringify(m.value) + after, m.value, after);
    assert after[1..] == rest;
    assert [m] == ms;
  }

  /** Round trip: parsing what `Stringify` writes gives back the same value. */
  lemma ParseStringify(j: Json)
    ensures Parse(Stringify(j)) == Some(j)
  {
    ParseStringified(j, "");
    assert Stringify(j) + "" == Stringify(j);
  }
}
