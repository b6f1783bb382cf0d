/**
 * The few Python string built-ins the bot relies on: `str.strip()`, `str.split()` (on whitespace),
 * `str.split(sep)`, `str(int)` and `int(str)`.
 */
module Text {
  import opened Wrappers

  /** Python's `str.isspace()` for one character (whitespace as `strip()` and `split()` see it). */
  predicate IsSpace(c: char)
  {
    c == ' ' || ('\t' <= c <= '\r') || ('\U{1c}' <= c <= '\U{1f}') || c == '\U{85}' || c == '\U{a0}'
    || c == '\U{1680}' || ('\U{2000}' <= c <= '\U{200a}') || c == '\U{2028}' || c == '\U{2029}'
    || c == '\U{202f}' || c == '\U{205f}' || c == '\U{3000}'
  }

  predicate NoSpace(s: string)
  {
    forall i :: 0 <= i < |s| ==> !IsSpace(s[i])
  }

  // ---------- str.strip() ----------

  function DropLeadingSpace(s: string): (r: string)
    ensures |r| <= |s| && r == s[|s| - |r|..]
    ensures r == [] || !IsSpace(r[0])
    ensures forall i :: 0 <= i < |s| - |r| ==> IsSpace(s[i])
  {
    if s != [] && IsSpace(s[0]) then DropLeadingSpace(s[1..]) else s
  }

  function DropTrailingSpace(s: string): (r: string)
    ensures |r| <= |s| && r == s[..|r|]
    ensures r == [] || !IsSpace(r[|r| - 1])
    ensures forall i :: |r| <= i < |s| ==> IsSpace(s[i])
  {
    if s != [] && IsSpace(s[|s| - 1]) then DropTrailingSpace(s[..|s| - 1]) else s
  }

  /** `s.strip()`: the longest infix of `s` that neither starts nor ends with whitespace. */
  function Strip(s: string): (r: string)
    ensures |r| <= |s|
    ensures r == [] || (!IsSpace(r[0]) && !IsSpace(r[|r| - 1]))
    ensures exists i, j :: 0 <= i <= j <= |s| && r == s[i..j]
              && (forall k :: 0 <= k < i ==> IsSpace(s[k]))
              && (forall k :: j <= k < |s| ==> IsSpace(s[k]))
  {
    var lead := DropLeadingSpace(s);
    var i := |s| - |lead|;
    var r := DropTrailingSpace(lead);
    assert r == s[i..i + |r|];
    assert forall k :: i + |r| <= k < |s| ==> s[k] == lead[k - i];
    r
  }

  lemma StripNoSpace(s: string)
    requires NoSpace(s)
    ensures Strip(s) == s
  {
    if s != [] {
      assert !IsSpace(s[0]) && !IsSpace(s[|s| - 1]);
    }
  }

  /** Stripping removes a blank in front of a word. */
  lemma StripLeadingBlank(w: string)
    requires NoSpace(w)
    ensures Strip(" " + w) == w
  {
    var s := " " + w;
    assert IsSpace(s[0]) && s[1..] == w;
    if w != [] {
      assert !IsSpace(w[0]);
    }
    assert DropLeadingSpace(w) == w;
    StripNoSpace(w);
  }

  // ---------- str.split() (no argument) ----------

  /** The first word of `s`: its longest prefix without whitespace. */
  function Word(s: string): (w: string)
    ensures |w| <= |s| && w == s[..|w|] && NoSpace(w)
    ensures |w| == |s| || IsSpace(s[|w|])
    ensures s != [] && !IsSpace(s[0]) ==> w != []
  {
    if s == [] || IsSpace(s[0]) then [] else [s[0]] + Word(s[1..])
  }

  /** `s.split()`: the maximal runs of non-whitespace characters, in order. */
  function SplitWords(s: string): seq<string>
    decreases |s|
  {
    var t := DropLeadingSpace(s);
    if t == [] then []
    else
      var w := Word(t);
      assert w != [];
      [w] + SplitWords(t[|w|..])
  }

  /** Every element is a nonempty run without whitespace. */
  predicate AllWords(ws: seq<string>)
  {
    forall i :: 0 <= i < |ws| ==> ws[i] != [] && NoSpace(ws[i])
  }

  lemma ConsWords(w: string, rest: seq<string>)
    requires w != [] && NoSpace(w) && AllWords(rest)
    ensures AllWords([w] + rest)
  {
    var ws := [w] + rest;
    forall i | 0 <= i < |ws|
      ensures ws[i] != [] && NoSpace(ws[i])
    {
      if i > 0 {
        assert ws[i] == rest[i - 1];
      }
    }
  }

  /** Every piece `str.split()` returns is a nonempty run without whitespace. */
  lemma {:induction false} SplitWordsAreWords(s: string)
    ensures AllWords(SplitWords(s))
    decreases |s|
  {
    var t := DropLeadingSpace(s);
    if t != [] {
      var w := Word(t);
      SplitWordsAreWords(t[|w|..]);
      ConsWords(w, SplitWords(t[|w|..]));
    }
  }

  lemma {:induction false} WordOfNoSpace(w: string, rest: string)
    requires NoSpace(w)
    requires rest == [] || IsSpace(rest[0])
    ensures Word(w + rest) == w
  {
    if w != [] {
      assert (w + rest)[1..] == w[1..] + rest;
      WordOfNoSpace(w[1..], rest);
    }
  }

  /** A single word, with or without one space before it, splits into just that word. */
  lemma {:induction false} SplitWordsOfWord(pre: string, w: string)
    requires pre == [] || pre == " "
    requires w != [] && NoSpace(w)
    ensures SplitWords(pre + w) == [w]
  {
    var s := pre + w;
    assert !IsSpace(w[0]);
    assert DropLeadingSpace(w) == w;
    if pre == " " {
      assert s[1..] == w;
    } else {
      assert s == w;
    }
    assert DropLeadingSpace(s) == w;
    WordOfNoSpace(w, []);
    assert w + [] == w;
    assert w[|w|..] == [];
    assert SplitWords(w[|w|..]) == [];
  }

  /** Two words separated by one space split back into exactly those two words. */
  lemma {:induction false} SplitTwoWords(a: string, b: string)
    requires a != [] && NoSpace(a) && b != [] && NoSpace(b)
    ensures SplitWords(a + " " + b) == [a, b]
  {
    var s := a + " " + b;
    assert s[0] == a[0] && !IsSpace(a[0]);
    assert DropLeadingSpace(s) == s;
    assert s == a + (" " + b);
    WordOfNoSpace(a, " " + b);
    assert Word(s) == a;
    assert s[|a|..] == " " + b;
    SplitWordsOfWord(" ", b);
    assert SplitWords(s) == [a] + SplitWords(" " + b);
  }

  // ---------- str.split(sep) ----------

  /** `s.split(sep)` for a one-character separator: the pieces between separators, empty ones kept. */
  function SplitOn(s: string, sep: char): (parts: seq<string>)
    ensures |parts| >= 1
    ensures forall i :: 0 <= i < |parts| ==> sep !in parts[i]
  {
    if s == [] then [[]]
    else
      var tail := SplitOn(s[1..], sep);
      if s[0] == sep then [[]] + tail
      else [[s[0]] + tail[0]] + tail[1..]
  }

  /** `sep.join(parts)`. */
  function Join(parts: seq<string>, sep: char): string
    requires |parts| >= 1
  {
    if |parts| == 1 then parts[0] else parts[0] + [sep] + Join(parts[1..], sep)
  }

  lemma JoinCons(piece: string, parts: seq<string>, sep: char)
    requires |parts| >= 1
    ensures Join([piece] + parts, sep) == piece + [sep] + Join(parts, sep)
  {
    assert ([piece] + parts)[1..] == parts;
  }

  lemma {:induction false} SplitOnPiece(piece: string, rest: string, sep: char)
    requires sep !in piece
    ensures SplitOn(piece + rest, sep)
         == [piece + SplitOn(rest, sep)[0]] + SplitOn(rest, sep)[1..]
  {
    var r := SplitOn(rest, sep);
    if piece == [] {
      assert piece + rest == rest;
      assert piece + r[0] == r[0];
      assert [r[0]] + r[1..] == r;
    } else {
      var s := piece + rest;
      assert s[0] == piece[0] && s[0] != sep;
      assert s[1..] == piece[1..] + rest;
      SplitOnPiece(piece[1..], rest, sep);
      var tail := SplitOn(s[1..], sep);
      assert tail == [piece[1..] + r[0]] + r[1..];
      assert SplitOn(s, sep) == [[s[0]] + tail[0]] + tail[1..];
      assert [piece[0]] + (piece[1..] + r[0]) == piece + r[0];
    }
  }

  /** Splitting undoes joining, as long as no piece holds the separator. */
  lemma {:induction false} SplitOnJoin(parts: seq<string>, sep: char)
    requires |parts| >= 1
    requires forall i :: 0 <= i < |parts| ==> sep !in parts[i]
    ensures SplitOn(Join(parts, sep), sep) == parts
  {
    if |parts| == 1 {
      SplitOnPiece(parts[0], [], sep);
      assert parts[0] + [] == parts[0];
    } else {
      var rest := Join(parts[1..], sep);
      SplitOnJoin(parts[1..], sep);
      assert parts[0] + [sep] + rest == parts[0] + ([sep] + rest);
      SplitOnPiece(parts[0], [sep] + rest, sep);
      assert ([sep] + rest)[1..] == rest;
      assert parts[0] + [] == parts[0];
    }
  }

  // ---------- str(int) and int(str) ----------

  predicate IsDigit(c: char) { '0' <= c <= '9' }

  function DigitChar(d: nat): (c: char)
    requires d < 10
    ensures IsDigit(c)
  {
    ('0' as int + d) as char
  }

  function DigitValue(c: char): (d: nat)
    requires IsDigit(c)
    ensures d < 10 && DigitChar(d) == c
    ensures forall e: nat :: e < 10 && DigitChar(e) == c ==> e == d
  {
    (c as int - '0' as int) as nat
  }

  predicate AllDigits(s: string)
  {
    forall i :: 0 <= i < |s| ==> IsDigit(s[i])
  }

  /** The value of a run of decimal digits (leading zeros allowed, as Python's `int()` allows). */
  function DigitsValue(s: string): nat
    requires AllDigits(s)
  {
    if s == [] then 0 else 10 * DigitsValue(s[..|s| - 1]) + DigitValue(s[|s| - 1])
  }

  /** `str(n)` for a natural number: decimal digits, no leading zero. */
  function NatToString(n: nat): (s: string)
    ensures s != [] && AllDigits(s)
    ensures |s| > 1 ==> s[0] != '0'
  {
    if n < 10 then [DigitChar(n)] else NatToString(n / 10) + [DigitChar(n % 10)]
  }

  /** `str(n)`: an optional minus sign followed by the digits of `|n|`. */
  function IntToString(n: int): (s: string)
  {
    if n < 0 then "-" + NatToString(-n) else NatToString(n)
  }

  /**
   * `int(s)` on a string: surrounding whitespace is ignored, then an optional sign and one or more
   * decimal digits; anything else is a ValueError (here None).
   */
  function ParseInt(s: string): (r: Option<int>)
    ensures r.Some? ==> Strip(s) != []
  {
    var t := Strip(s);
    if t == [] then None
    else
      var sign, digits := if t[0] == '-' then -1 else 1, if t[0] == '-' || t[0] == '+' then t[1..] else t;
      if digits != [] && AllDigits(digits) then Some(sign * DigitsValue(digits)) else None
  }

  lemma {:induction false} DigitsOfNat(n: nat)
    ensures DigitsValue(NatToString(n)) == n
  {
    var s := NatToString(n);
    if n >= 10 {
      DigitsOfNat(n / 10);
      assert s[..|s| - 1] == NatToString(n / 10);
    }
  }

  lemma IntToStringShape(n: int)
    ensures IntToString(n) != [] && NoSpace(IntToString(n))
    ensures forall i :: 0 <= i < |IntToString(n)| ==> IsDigit(IntToString(n)[i]) || IntToString(n)[i] == '-'
  {
  }

  lemma DigitsHaveNoSpace(d: string)
    requires AllDigits(d)
    ensures NoSpace(d)
  {
    forall i | 0 <= i < |d| ensures !IsSpace(d[i]) {
      assert IsDigit(d[i]);
    }
  }

  lemma ParseUnsigned(d: string, v: int)
    requires d != [] && AllDigits(d) && v == DigitsValue(d)
    ensures ParseInt(d) == Some(v)
  {
    DigitsHaveNoSpace(d);
    StripNoSpace(d);
    assert IsDigit(d[0]);
  }

  lemma ParseNegative(d: string, v: int)
    requires d != [] && AllDigits(d) && v == -(DigitsValue(d) as int)
    ensures ParseInt("-" + d) == Some(v)
  {
    var s := "-" + d;
    DigitsHaveNoSpace(d);
    assert NoSpace(s) by {
      forall i | 0 <= i < |s| ensures !IsSpace(s[i]) {
        if i > 0 {
          assert s[i] == d[i - 1];
        }
      }
    }
    StripNoSpace(s);
    assert s[0] == '-' && s[1..] == d;
  }

  /** `int(str(n)) == n` for every integer. */
  lemma IntRoundTrip(n: int)
    ensures ParseInt(IntToString(n)) == Some(n)
  {
    if n < 0 {
      var d := NatToString(-n);
      assert IntToString(n) == "-" + d;
      DigitsOfNat(-n);
      ParseNegative(d, n);
    } else {
      var d := NatToString(n);
      assert IntToString(n) == d;
      DigitsOfNat(n);
      ParseUnsigned(d, n);
    }
  }

  /** Different integers print differently, so `str(chat_id)` is a collision-free job name. */
  lemma IntToStringInjective(m: int, n: int)
    requires IntToString(m) == IntToString(n)
    ensures m == n
  {
    IntRoundTrip(m);
    IntRoundTrip(n);
  }
}
