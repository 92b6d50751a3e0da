/**
 * The dashboard's profile record and its JSON text form: `JSON.stringify` of the record, and
 * the part of `JSON.parse` that reads such text back. The record's key order is that of its
 * initial value, which every update of the dashboard keeps.
 */
module ProfileJson {
  import opened Wrappers

  /** `ProfileData`: eight free-text fields. */
  datatype ProfileData = ProfileData(
    fullName: string, title: string, email: string, phone: string,
    summary: string, experience: string, education: string, skills: string)

  /** The record's keys, in the order JSON.stringify writes them. */
  const Keys: seq<string> :=
    ["fullName", "title", "email", "phone", "summary", "experience", "education", "skills"]

  /** The field values in key order. */
  function Values(p: ProfileData): (r: seq<string>)
    ensures |r| == |Keys|
  {
    [p.fullName, p.title, p.email, p.phone, p.summary, p.experience, p.education, p.skills]
  }

  /** The record with the given values in key order. */
  function FromValues(vs: seq<string>): (p: ProfileData)
    requires |vs| == |Keys|
    ensures Values(p) == vs
  {
    ProfileData(vs[0], vs[1], vs[2], vs[3], vs[4], vs[5], vs[6], vs[7])
  }

  /** A lower-case hexadecimal digit. */
  function HexDigit(n: nat): char
    requires n < 16
  {
    if n < 10 then ('0' as int + n) as char else ('a' as int + n - 10) as char
  }

  predicate IsHexDigit(c: char)
  {
    '0' <= c <= '9' || 'a' <= c <= 'f' || 'A' <= c <= 'F'
  }

  function HexValue(c: char): (n: nat)
    requires IsHexDigit(c)
    ensures n < 16
  {
    if '0' <= c <= '9' then c as int - '0' as int
    else if 'a' <= c <= 'f' then c as int - 'a' as int + 10
    else c as int - 'A' as int + 10
  }

  lemma HexDigitValue(n: nat)
    requires n < 16
    ensures IsHexDigit(HexDigit(n)) && HexValue(HexDigit(n)) == n
  {
  }

  /** How JSON.stringify writes one character inside a string literal: the quote and the
      backslash are escaped, the five control characters with a short escape use it, the other
      control characters become `\u00XX`, and everything else is written as it is. */
  function EscapeChar(c: char): string
  {
    if c == '"' then "\\\""
    else if c == '\\' then "\\\\"
    else if c == '\U{8}' then "\\b"
    else if c == '\U{C}' then "\\f"
    else if c == '\n' then "\\n"
    else if c == '\r' then "\\r"
    else if c == '\t' then "\\t"
    else if c < ' ' then "\\u00" + [HexDigit(c as int / 16), HexDigit(c as int % 16)]
    else [c]
  }

  function Escape(s: string): string
  {
    if s == [] then [] else EscapeChar(s[0]) + Escape(s[1..])
  }

  /** `JSON.stringify` of a string. */
  function Quote(s: string): string
  {
    "\"" + Escape(s) + "\""
  }

  /** One `"key":"value"` member. */
  function Member(key: string, value: string): string
  {
    Quote(key) + ":" + Quote(value)
  }

  /** The members for keys and values, separated by commas. */
  function Members(keys: seq<string>, vals: seq<string>): string
    requires |keys| == |vals|
  {
    if keys == [] then []
    else if |keys| == 1 then Member(keys[0], vals[0])
    else Member(keys[0], vals[0]) + "," + Members(keys[1..], vals[1..])
  }

  /** `JSON.stringify(formData)`. */
  function Stringify(p: ProfileData): (r: string)
    ensures |r| >= 2 && r[0] == '{' && r[|r| - 1] == '}'
  {
    "{" + Members(Keys, Values(p)) + "}"
  }

  /** Prepends a character to a parsed string, passing failure on. */
  function Cons(c: char, parsed: Option<(string, string)>): (r: Option<(string, string)>)
    ensures r.Some? <==> parsed.Some?
    ensures r.Some? ==> r.value.1 == parsed.value.1
  {
    match parsed
    case None => None
    case Some((t, rest)) => Some(([c] + t, rest))
  }

  /** Reads the inside of a JSON string literal up to its closing quote, as JSON.parse does:
      the content and the text after the quote, or None for an unterminated literal, an
      unknown escape, a raw control character, or an escaped surrogate (which cannot stand
      alone as a character here). */
  function ParseStringBody(s: string): Option<(string, string)>
    decreases |s|
  {
    if |s| == 0 then None
    else if s[0] == '"' then Some(([], s[1..]))
    else if s[0] == '\\' then
      if |s| < 2 then None
      else if s[1] == '"' then Cons('"', ParseStringBody(s[2..]))
      else if s[1] == '\\' then Cons('\\', ParseStringBody(s[2..]))
      else if s[1] == '/' then Cons('/', ParseStringBody(s[2..]))
      else if s[1] == 'b' then Cons('\U{8}', ParseStringBody(s[2..]))
      else if s[1] == 'f' then Cons('\U{C}', ParseStringBody(s[2..]))
      else if s[1] == 'n' then Cons('\n', ParseStringBody(s[2..]))
      else if s[1] == 'r' then Cons('\r', ParseStringBody(s[2..]))
      else if s[1] == 't' then Cons('\t', ParseStringBody(s[2..]))
      else if s[1] == 'u' && |s| >= 6 && IsHexDigit(s[2]) && IsHexDigit(s[3]) && IsHexDigit(s[4]) && IsHexDigit(s[5]) then
        var v := HexValue(s[2]) * 4096 + HexValue(s[3]) * 256 + HexValue(s[4]) * 16 + HexValue(s[5]);
        if 0xD800 <= v < 0xE000 then None else Cons(v as char, ParseStringBody(s[6..]))
      else None
    else if s[0] < ' ' then None
    else Cons(s[0], ParseStringBody(s[1..]))
  }

  /** Reads a JSON string literal at the start of `s`. */
  function ParseString(s: string): (r: Option<(string, string)>)
    ensures r.Some? ==> |r.value.1| < |s|
  {
    if |s| > 0 && s[0] == '"' then
      ParseStringBodyShrinks(s[1..]);
      ParseStringBody(s[1..])
    else None
  }

  /** Reading a string body consumes at least its closing quote. */
  lemma {:induction false} ParseStringBodyShrinks(s: string)
    decreases |s|
    ensures ParseStringBody(s).Some? ==> |ParseStringBody(s).value.1| < |s|
  {
    if |s| >= 2 && s[0] == '\\' {
      if s[1] == 'u' && |s| >= 6 {
        ParseStringBodyShrinks(s[6..]);
      }
      ParseStringBodyShrinks(s[2..]);
    } else if |s| > 0 && s[0] != '"' {
      ParseStringBodyShrinks(s[1..]);
    }
  }

  /** Reads one member whose key must be `key`, returning its value and the rest. */
  function ParseMember(key: string, s: string): (r: Option<(string, string)>)
    ensures r.Some? ==> |r.value.1| < |s|
  {
    match ParseString(s)
    case None => None
    case Some((k, afterKey)) =>
      if k != key || |afterKey| == 0 || afterKey[0] != ':' then None
      else ParseString(afterKey[1..])
  }

  /** Reads the members for `keys`, in that order, returning their values and the rest. */
  function ParseMembers(keys: seq<string>, s: string): (r: Option<(seq<string>, string)>)
    ensures r.Some? ==> |r.value.0| == |keys|
    ensures r.Some? ==> |r.value.1| <= |s|
  {
    if keys == [] then Some(([], s))
    else match ParseMember(keys[0], s)
      case None => None
      case Some((value, afterValue)) =>
        if |keys| == 1 then Some(([value], afterValue))
        else if |afterValue| == 0 || afterValue[0] != ',' then None
        else match ParseMembers(keys[1..], afterValue[1..])
          case None => None
          case Some((values, rest)) => Some(([value] + values, rest))
  }

  /** `JSON.parse` of a stored profile: the record when the text is an object with exactly the
      eight keys in order, each holding a string, and None otherwise. */
  function Parse(s: string): (r: Option<ProfileData>)
    ensures r.Some? ==> |s| >= 2 && s[0] == '{'
  {
    if |s| == 0 || s[0] != '{' then None
    else match ParseMembers(Keys, s[1..])
      case None => None
      case Some((values, rest)) => if rest == "}" then Some(FromValues(values)) else None
  }

  /** One escaped character reads back as itself, whatever follows it. */
  lemma EscapeCharParses(c: char, t: string)
    ensures ParseStringBody(EscapeChar(c) + t) == Cons(c, ParseStringBody(t))
  {
    var s := EscapeChar(c) + t;
    if c == '"' || c == '\\' || c == '\U{8}' || c == '\U{C}' || c == '\n' || c == '\r' || c == '\t' {
      assert s[2..] == t;
    } else if c < ' ' {
      var hi, lo := c as int / 16, c as int % 16;
      HexDigitValue(hi);
      HexDigitValue(lo);
      assert s[..6] == "\\u00" + [HexDigit(hi), HexDigit(lo)];
      assert s[2] == '0' && s[3] == '0' && s[4] == HexDigit(hi) && s[5] == HexDigit(lo);
      assert s[6..] == t;
    } else {
      assert s[0] == c && s[1..] == t;
    }
  }

  /** An escaped string followed by the closing quote reads back as the string. */
  lemma {:induction false} EscapeParses(s: string, rest: string)
    ensures ParseStringBody(Escape(s) + "\"" + rest) == Some((s, rest))
  {
    if s == [] {
      assert Escape(s) + "\"" + rest == "\"" + rest;
      assert ("\"" + rest)[1..] == rest;
    } else {
      var t := Escape(s[1..]) + "\"" + rest;
      assert Escape(s) + "\"" + rest == EscapeChar(s[0]) + t;
      EscapeCharParses(s[0], t);
      EscapeParses(s[1..], rest);
      assert [s[0]] + s[1..] == s;
    }
  }

  /** JSON.parse reads back what JSON.stringify wrote for a string. */
  lemma QuoteParses(s: string, rest: string)
    ensures ParseString(Quote(s) + rest) == Some((s, rest))
  {
    var q := Quote(s) + rest;
    assert q[1..] == Escape(s) + "\"" + rest;
    EscapeParses(s, rest);
  }

  /** One member followed by `tail` reads back as its value and `tail`. */
  lemma MemberParses(key: string, value: string, tail: string)
    ensures ParseMember(key, Member(key, value) + tail) == Some((value, tail))
  {
    var afterKey := ":" + Quote(value) + tail;
    assert Member(key, value) + tail == Quote(key) + afterKey;
    QuoteParses(key, afterKey);
    assert afterKey[1..] == Quote(value) + tail;
    QuoteParses(value, tail);
  }

  /** The members written for keys and values read back as those values. */
  lemma {:induction false} MembersParse(keys: seq<string>, vals: seq<string>, rest: string)
    requires |keys| == |vals|
    ensures ParseMembers(keys, Members(keys, vals) + rest) == Some((vals, rest))
  {
    if keys == [] {
      assert Members(keys, vals) + rest == rest && vals == [];
    } else if |keys| == 1 {
      MemberParses(keys[0], vals[0], rest);
      assert vals == [vals[0]];
    } else {
      MembersParse(keys[1..], vals[1..], rest);
      MembersParseCons(keys, vals, rest);
    }
  }

  /** One step of the above: the first member, a comma, and members that read back. */
  lemma MembersParseCons(keys: seq<string>, vals: seq<string>, rest: string)
    requires |keys| == |vals| && |keys| >= 2
    requires ParseMembers(keys[1..], Members(keys[1..], vals[1..]) + rest) == Some((vals[1..], rest))
    ensures ParseMembers(keys, Members(keys, vals) + rest) == Some((vals, rest))
  {
    var more := Members(keys[1..], vals[1..]) + rest;
    MembersSplit(keys, vals, rest);
    MemberParses(keys[0], vals[0], "," + more);
    TailAfterComma(more);
    ParseMembersStep(keys, Members(keys, vals) + rest, vals[0], "," + more, vals[1..], rest);
    assert vals == [vals[0]] + vals[1..];
  }

  /** The members text of two or more keys is the first member, a comma and the others. */
  lemma MembersSplit(keys: seq<string>, vals: seq<string>, rest: string)
    requires |keys| == |vals| && |keys| >= 2
    ensures Members(keys, vals) + rest ==
      Member(keys[0], vals[0]) + ("," + (Members(keys[1..], vals[1..]) + rest))
  {
    var first := Member(keys[0], vals[0]);
    var others := Members(keys[1..], vals[1..]);
    assert Members(keys, vals) == first + "," + others;
    Regroup(first, others, rest);
  }

  lemma Regroup(first: string, others: string, rest: string)
    ensures first + "," + others + rest == first + ("," + (others + rest))
  {
  }

  lemma TailAfterComma(more: string)
    ensures |"," + more| > 0 && ("," + more)[0] == ',' && ("," + more)[1..] == more
  {
  }

  /** How ParseMembers reads a member, a comma, and the members for the remaining keys. */
  lemma ParseMembersStep(keys: seq<string>, s: string, value: string, afterValue: string,
                         values: seq<string>, rest: string)
    requires |keys| >= 2 && ParseMember(keys[0], s) == Some((value, afterValue))
    requires |afterValue| > 0 && afterValue[0] == ','
    requires ParseMembers(keys[1..], afterValue[1..]) == Some((values, rest))
    ensures ParseMembers(keys, s) == Some(([value] + values, rest))
  {
  }

  /** Round trip: parsing the stored text of a profile gives the profile back. */
  lemma ParseStringify(p: ProfileData)
    ensures Parse(Stringify(p)) == Some(p)
  {
    var vs := Values(p);
    var body := Members(Keys, vs);
    MembersParse(Keys, vs, "}");
    ParseBraced(body, vs);
    assert FromValues(vs) == p;
  }

  /** An object whose members read back as eight values parses to the record of those values. */
  lemma ParseBraced(body: string, vals: seq<string>)
    requires |vals| == |Keys| && ParseMembers(Keys, body + "}") == Some((vals, "}"))
    ensures Parse("{" + body + "}") == Some(FromValues(vals))
  {
    var s := "{" + body + "}";
    assert s[0] == '{' && s[1..] == body + "}";
  }
}
