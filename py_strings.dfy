/**
 * Python's built-in string operations used by the API service:
 * `str.lower`, the substring test `needle in hay`, `str.replace` and `str.strip`.
 */
module PyStrings {

  /** `c.lower()` for ASCII and the Latin-1 capitals U+00C0..U+00DE (except U+00D7, the
      multiplication sign); every other character is its own lower case here. */
  function LowerChar(c: char): (r: char)
    ensures 'A' <= c <= 'Z' ==> r as int == c as int + 32
    ensures !('A' <= c <= 'Z') && !('\U{C0}' <= c <= '\U{DE}' && c != '\U{D7}') ==> r == c
  {
    if 'A' <= c <= 'Z' || ('\U{C0}' <= c <= '\U{DE}' && c != '\U{D7}') then
      (c as int + 32) as char
    else
      c
  }

  /** `s.lower()`: lower-cases character by character and keeps the length. */
  function Lower(s: string): (r: string)
    ensures |r| == |s|
    ensures forall i :: 0 <= i < |s| ==> r[i] == LowerChar(s[i])
  {
    if s == [] then [] else [LowerChar(s[0])] + Lower(s[1..])
  }

  /** `needle in hay`: the needle occurs at some position of hay (the empty needle always does). */
  predicate Contains(hay: string, needle: string)
    ensures Contains(hay, needle) ==> |needle| <= |hay|
    ensures needle == [] ==> Contains(hay, needle)
  {
    needle <= hay || (|hay| > 0 && Contains(hay[1..], needle))
  }

  /** Contains means: some slice of hay equals the needle. */
  lemma {:induction false} ContainsAt(hay: string, needle: string, i: nat)
    requires i + |needle| <= |hay| && hay[i..i + |needle|] == needle
    ensures Contains(hay, needle)
  {
    if i > 0 {
      assert hay[1..][i - 1..i - 1 + |needle|] == needle;
      ContainsAt(hay[1..], needle, i - 1);
    }
  }

  /** A needle starting with a character that never occurs in hay is not contained in it. */
  lemma {:induction false} NotContainsWithoutFirst(hay: string, needle: string)
    requires |needle| > 0 && needle[0] !in hay
    ensures !Contains(hay, needle)
  {
    if |hay| > 0 {
      assert hay[0] in hay;
      assert forall c :: c in hay[1..] ==> c in hay;
      NotContainsWithoutFirst(hay[1..], needle);
    }
  }

  /** `s.replace(pat, repl)`: every non-overlapping occurrence of pat, scanned left to right, is
      replaced by repl. Python's special case of an empty pat string is never used here. */
  function Replace(s: string, pat: string, repl: string): (r: string)
    requires |pat| > 0
    ensures repl == [] ==> |r| <= |s|
    ensures |s| < |pat| ==> r == s
  {
    if |s| == 0 then []
    else if pat <= s then repl + Replace(s[|pat|..], pat, repl)
    else [s[0]] + Replace(s[1..], pat, repl)
  }

  /** If no character of `a` starts `pat`, replacing in `a + b` leaves `a` in front untouched. */
  lemma {:induction false} ReplaceSkipsPrefix(a: string, b: string, pat: string, repl: string)
    requires |pat| > 0 && pat[0] !in a
    ensures Replace(a + b, pat, repl) == a + Replace(b, pat, repl)
  {
    if |a| > 0 {
      assert (a + b)[0] == a[0] && a[0] in a;
      assert !(pat <= a + b);
      assert (a + b)[1..] == a[1..] + b;
      assert forall c :: c in a[1..] ==> c in a;
      ReplaceSkipsPrefix(a[1..], b, pat, repl);
    } else {
      assert a + b == b;
    }
  }

  /** Replacing a string whose characters never start `pat` is the identity. */
  lemma ReplaceAbsent(s: string, pat: string, repl: string)
    requires |pat| > 0 && pat[0] !in s
    ensures Replace(s, pat, repl) == s
  {
    ReplaceSkipsPrefix(s, [], pat, repl);
    assert s + [] == s;
  }

  /** `str.isspace()` for one character: the Unicode White_Space characters together with the
      four information separators U+001C..U+001F, as CPython classifies them. */
  predicate IsSpace(c: char)
  {
    '\t' <= c <= '\r' || '\U{1C}' <= c <= ' ' || c == '\U{85}' || c == '\U{A0}' ||
    c == '\U{1680}' || '\U{2000}' <= c <= '\U{200A}' || c == '\U{2028}' || c == '\U{2029}' ||
    c == '\U{202F}' || c == '\U{205F}' || c == '\U{3000}'
  }

  /** The characters removed from the front by `str.lstrip()`. */
  function StripStart(s: string): (r: string)
    ensures |r| <= |s| && r == s[|s| - |r|..]
    ensures forall i :: 0 <= i < |s| - |r| ==> IsSpace(s[i])
    ensures r == [] || !IsSpace(r[0])
  {
    if |s| > 0 && IsSpace(s[0]) then StripStart(s[1..]) else s
  }

  /** The characters removed from the back by `str.rstrip()`. */
  function StripEnd(s: string): (r: string)
    ensures |r| <= |s| && r == s[..|r|]
    ensures forall i :: |r| <= i < |s| ==> IsSpace(s[i])
    ensures r == [] || !IsSpace(r[|r| - 1])
  {
    if |s| > 0 && IsSpace(s[|s| - 1]) then StripEnd(s[..|s| - 1]) else s
  }

  /** `s.strip()`: s without its leading and trailing whitespace. */
  function Strip(s: string): (r: string)
    ensures |r| <= |s|
    ensures r == [] || (!IsSpace(r[0]) && !IsSpace(r[|r| - 1]))
  {
    StripEnd(StripStart(s))
  }

  /** Everything of `s` outside the slice `s[i..j]` is whitespace. */
  predicate SpaceOutside(s: string, i: nat, j: nat)
    requires i <= j <= |s|
  {
    (forall k :: 0 <= k < i ==> IsSpace(s[k])) && (forall k :: j <= k < |s| ==> IsSpace(s[k]))
  }

  /** What strip returns: a slice of s, and everything cut off around it is whitespace. */
  lemma StripSpec(s: string)
    ensures exists i: nat, j: nat :: i <= j <= |s| && Strip(s) == s[i..j] && SpaceOutside(s, i, j)
  {
    var t := StripStart(s);
    var i := |s| - |t|;
    assert t == s[i..];
    var j := StripEndSlice(s, i);
    assert Strip(s) == s[i..j];
    assert SpaceOutside(s, i, j);
  }

  /** Stripping the back of the slice `s[i..]` leaves a slice `s[i..j]` followed by whitespace. */
  lemma StripEndSlice(s: string, i: nat) returns (j: nat)
    requires i <= |s|
    ensures i <= j <= |s| && StripEnd(s[i..]) == s[i..j]
    ensures forall k :: j <= k < |s| ==> IsSpace(s[k])
  {
    var t := s[i..];
    var r := StripEnd(t);
    j := i + |r|;
    assert r == t[..|r|];
    forall k | j <= k < |s| ensures IsSpace(s[k]) {
      assert s[k] == t[k - i];
    }
  }
}
