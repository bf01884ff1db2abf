/**
 * The string operations the source leans on: Python's str.lower / str.title,
 * JavaScript's toLowerCase / includes / trim / length, str(int) and ", ".join.
 * Case mapping is modelled for ASCII letters only; every other character is
 * left as it is.
 */
module Text {

  predicate IsUpper(c: char) { 'A' <= c <= 'Z' }
  predicate IsLower(c: char) { 'a' <= c <= 'z' }
  predicate IsLetter(c: char) { IsUpper(c) || IsLower(c) }

  function LowerChar(c: char): (r: char)
    ensures !IsUpper(r)
    ensures IsLetter(c) <==> IsLetter(r)
  {
    if IsUpper(c) then (c as int - 'A' as int + 'a' as int) as char else c
  }

  function UpperChar(c: char): (r: char)
    ensures !IsLower(r)
    ensures IsLetter(c) <==> IsLetter(r)
  {
    if IsLower(c) then (c as int - 'a' as int + 'A' as int) as char else c
  }

  /** Python `s.lower()` / JavaScript `s.toLowerCase()` on ASCII letters. */
  function Lower(s: string): (r: string)
    ensures |r| == |s|
    ensures forall i :: 0 <= i < |s| ==> r[i] == LowerChar(s[i])
  {
    if s == [] then [] else [LowerChar(s[0])] + Lower(s[1..])
  }

  lemma {:induction false} LowerIdempotent(s: string)
    ensures Lower(Lower(s)) == Lower(s)
  {
    if s != [] {
      LowerIdempotent(s[1..]);
      assert Lower(s)[1..] == Lower(s[1..]);
    }
  }

  /** `t` is the lower-cased `s` when it agrees with it character by character. */
  lemma LowerOfWord(s: string, t: string)
    requires |s| == |t| && forall i :: 0 <= i < |s| ==> LowerChar(s[i]) == t[i]
    ensures Lower(s) == t
  {
  }

  /** A string without capitals is its own lower case. */
  lemma LowerOfLowercase(s: string)
    requires forall i :: 0 <= i < |s| ==> !IsUpper(s[i])
    ensures Lower(s) == s
  {
    LowerOfWord(s, s);
  }

  /**
   * Python `s.title()` on ASCII: a letter that follows a letter is lower-cased,
   * any other letter is upper-cased; `prevLetter` says whether the character
   * before `s` was a letter.
   */
  function TitleFrom(s: string, prevLetter: bool): (r: string)
    ensures |r| == |s|
    ensures forall i :: 0 <= i < |s| ==>
      r[i] == if (if i == 0 then prevLetter else IsLetter(s[i - 1])) then LowerChar(s[i]) else UpperChar(s[i])
  {
    if s == [] then []
    else
      var c := if prevLetter then LowerChar(s[0]) else UpperChar(s[0]);
      var rest := TitleFrom(s[1..], IsLetter(s[0]));
      assert forall i :: 1 <= i < |s| ==> ([c] + rest)[i] == rest[i - 1] && s[1..][i - 1] == s[i];
      [c] + rest
  }

  /** Each character of `s.title()` depends only on itself and on whether the character before it is a letter. */
  function Title(s: string): (r: string)
    ensures |r| == |s|
    ensures forall i :: 0 <= i < |s| ==>
      r[i] == if i > 0 && IsLetter(s[i - 1]) then LowerChar(s[i]) else UpperChar(s[i])
  {
    TitleFrom(s, false)
  }

  /**
   * `title()` on ASCII: a letter comes out upper case exactly when the
   * character before it is not a letter (or it is the first), and every
   * other character is kept as it is.
   */
  lemma TitleCase(s: string)
    ensures forall i :: 0 <= i < |s| ==>
      (IsLetter(s[i]) ==> IsLetter(Title(s)[i]) && (IsUpper(Title(s)[i]) <==> !(i > 0 && IsLetter(s[i - 1]))))
    ensures forall i :: 0 <= i < |s| ==> (!IsLetter(s[i]) ==> Title(s)[i] == s[i])
  {
    var t := Title(s);
    forall i | 0 <= i < |s| && IsLetter(s[i])
      ensures IsLetter(t[i])
      ensures IsUpper(t[i]) <==> !(i > 0 && IsLetter(s[i - 1]))
    {
      CaseOfChar(s[i]);
      assert t[i] == if i > 0 && IsLetter(s[i - 1]) then LowerChar(s[i]) else UpperChar(s[i]);
    }
    forall i | 0 <= i < |s| && !IsLetter(s[i])
      ensures t[i] == s[i]
    {
      CaseOfChar(s[i]);
      assert t[i] == if i > 0 && IsLetter(s[i - 1]) then LowerChar(s[i]) else UpperChar(s[i]);
    }
  }

  /** Lower-casing a letter gives a lower-case letter, upper-casing one an upper-case letter; both keep every other character. */
  lemma CaseOfChar(c: char)
    ensures IsLetter(c) ==> IsLower(LowerChar(c)) && IsUpper(UpperChar(c))
    ensures !IsLetter(c) ==> LowerChar(c) == c && UpperChar(c) == c
  {
  }

  /** Title-casing keeps the lower-case form of a string: it only changes the case of letters. */
  lemma {:induction false} LowerOfTitleFrom(s: string, prevLetter: bool)
    ensures Lower(TitleFrom(s, prevLetter)) == Lower(s)
  {
    if s != [] {
      LowerOfTitleFrom(s[1..], IsLetter(s[0]));
      var t := TitleFrom(s, prevLetter);
      assert t[1..] == TitleFrom(s[1..], IsLetter(s[0]));
      assert Lower(t)[0] == Lower(s)[0];
      assert Lower(t)[1..] == Lower(t[1..]);
      assert Lower(s)[1..] == Lower(s[1..]);
    }
  }

  lemma LowerOfTitle(s: string)
    ensures Lower(Title(s)) == Lower(s)
  {
    LowerOfTitleFrom(s, false);
  }

  /** JavaScript `s.includes(sub)` / Python `sub in s`. */
  function Contains(s: string, sub: string): (r: bool)
    decreases |s|
  {
    if sub <= s then true
    else if |s| == 0 then false
    else Contains(s[1..], sub)
  }

  /** `sub` occurs in `s` starting at index `i`. */
  predicate OccursAt(s: string, sub: string, i: int) {
    0 <= i <= |s| - |sub| && s[i..i + |sub|] == sub
  }

  /** `Contains` holds exactly when `sub` occurs at some position of `s`. */
  lemma {:induction false} ContainsAt(s: string, sub: string)
    ensures Contains(s, sub) <==> exists i :: OccursAt(s, sub, i)
    decreases |s|
  {
    if sub <= s {
      assert OccursAt(s, sub, 0);
    } else if |s| > 0 {
      ContainsAt(s[1..], sub);
      if Contains(s[1..], sub) {
        var i :| OccursAt(s[1..], sub, i);
        assert s[i + 1..i + 1 + |sub|] == s[1..][i..i + |sub|];
        assert OccursAt(s, sub, i + 1);
      }
      if exists i :: OccursAt(s, sub, i) {
        var i :| OccursAt(s, sub, i);
        assert i != 0;
        assert s[1..][i - 1..i - 1 + |sub|] == s[i..i + |sub|];
        assert OccursAt(s[1..], sub, i - 1);
      }
    } else {
      assert forall i :: !OccursAt(s, sub, i);
    }
  }

  lemma ContainsPrefix(s: string, sub: string)
    requires sub <= s
    ensures Contains(s, sub)
  {
  }

  /**
   * The characters JavaScript's `String.prototype.trim` removes: the WhiteSpace
   * and LineTerminator productions of ECMAScript (section 12.2 and 12.3 of ECMA-262).
   */
  predicate IsJsWhitespace(c: char) {
    c == '\t' || c == '\n' || c == '\U{000B}' || c == '\U{000C}' || c == '\r' || c == ' '
    || c == '\U{00A0}' || c == '\U{1680}' || ('\U{2000}' <= c <= '\U{200A}')
    || c == '\U{2028}' || c == '\U{2029}' || c == '\U{202F}' || c == '\U{205F}'
    || c == '\U{3000}' || c == '\U{FEFF}'
  }

  function TrimStart(s: string): (r: string)
    ensures r == [] || !IsJsWhitespace(r[0])
  {
    if s != [] && IsJsWhitespace(s[0]) then TrimStart(s[1..]) else s
  }

  function TrimEnd(s: string): (r: string)
  {
    if s != [] && IsJsWhitespace(s[|s| - 1]) then TrimEnd(s[..|s| - 1]) else s
  }

  /** JavaScript `s.trim()`. */
  function Trim(s: string): (r: string)
  {
    TrimEnd(TrimStart(s))
  }

  predicate AllWhitespace(s: string) {
    forall i :: 0 <= i < |s| ==> IsJsWhitespace(s[i])
  }

  /** A non-empty string is all whitespace exactly when its head is and its tail is. */
  lemma AllWhitespaceCons(s: string)
    requires s != []
    ensures AllWhitespace(s) <==> IsJsWhitespace(s[0]) && AllWhitespace(s[1..])
  {
    if IsJsWhitespace(s[0]) && AllWhitespace(s[1..]) {
      forall i | 1 <= i < |s| ensures IsJsWhitespace(s[i]) {
        assert s[i] == s[1..][i - 1];
      }
    }
  }

  lemma {:induction false} TrimStartEmpty(s: string)
    ensures TrimStart(s) == [] <==> AllWhitespace(s)
  {
    if s != [] {
      AllWhitespaceCons(s);
      if IsJsWhitespace(s[0]) {
        TrimStartEmpty(s[1..]);
      }
    }
  }

  lemma TrimEndOfNonEmpty(s: string)
    requires s != [] && !IsJsWhitespace(s[0])
    ensures TrimEnd(s) != []
    decreases |s|
  {
    if IsJsWhitespace(s[|s| - 1]) {
      TrimEndOfNonEmpty(s[..|s| - 1]);
    }
  }

  /** A string trims to nothing exactly when every character of it is whitespace. */
  lemma TrimEmpty(s: string)
    ensures Trim(s) == [] <==> AllWhitespace(s)
  {
    TrimStartEmpty(s);
    var t := TrimStart(s);
    if t != [] {
      TrimEndOfNonEmpty(t);
    }
  }

  /** JavaScript's `s.length`: characters outside the Basic Multilingual Plane count as two UTF-16 units. */
  function Utf16Length(s: string): (n: nat)
    ensures |s| <= n <= 2 * |s|
  {
    if s == [] then 0
    else (if s[0] as int >= 0x1_0000 then 2 else 1) + Utf16Length(s[1..])
  }

  lemma {:induction false} Utf16LengthAscii(s: string)
    requires forall i :: 0 <= i < |s| ==> s[i] as int < 0x1_0000
    ensures Utf16Length(s) == |s|
  {
    if s != [] {
      Utf16LengthAscii(s[1..]);
    }
  }

  function DigitChar(d: nat): (c: char)
    requires d < 10
    ensures '0' <= c <= '9'
  {
    ('0' as int + d) as char
  }

  /** Python `str(n)` / a JavaScript template `${n}` for a natural number. */
  function NatToString(n: nat): (s: string)
    ensures |s| >= 1
    ensures forall i :: 0 <= i < |s| ==> '0' <= s[i] <= '9'
    ensures n == 0 <==> s == "0"
  {
    if n < 10 then [DigitChar(n)] else NatToString(n / 10) + [DigitChar(n % 10)]
  }

  function IntToString(i: int): (s: string)
    ensures |s| >= 1
  {
    if i < 0 then "-" + NatToString(-i) else NatToString(i)
  }

  /** Python `sep.join(parts)`. */
  function Join(parts: seq<string>, sep: string): (r: string)
    ensures parts == [] ==> r == ""
    ensures |parts| == 1 ==> r == parts[0]
  {
    if parts == [] then ""
    else if |parts| == 1 then parts[0]
    else parts[0] + sep + Join(parts[1..], sep)
  }
}
