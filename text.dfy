/**
 * Strings for the transcoder model. The code itself uses JavaScript's rendering of a whole
 * number in a template literal, appending with a terminator (`Terminated`),
 * `String.prototype.trim` and `slice(0, -1)`; joining with a separator and splitting at a
 * character are specification tools that say what the appended and trimmed text means.
 */
module Text {

  predicate IsDigit(c: char) {
    '0' <= c <= '9'
  }

  predicate IsDigits(s: string) {
    forall i :: 0 <= i < |s| ==> IsDigit(s[i])
  }

  lemma DigitsExclude(s: string, c: char)
    requires IsDigits(s) && !IsDigit(c)
    ensures c !in s
  {
  }

  function DigitChar(d: nat): (c: char)
    requires d < 10
    ensures IsDigit(c)
  {
    (('0' as int) + d) as char
  }

  function DigitValue(c: char): (d: nat)
    requires IsDigit(c)
    ensures d < 10
  {
    (c as int) - ('0' as int)
  }

  /** A non-negative whole number as JavaScript writes it in a template literal. */
  function ShowNat(n: nat): (s: string)
    ensures |s| >= 1 && IsDigits(s)
    ensures n < 10 <==> |s| == 1
  {
    if n < 10 then [DigitChar(n)] else ShowNat(n / 10) + [DigitChar(n % 10)]
  }

  /** A whole number as JavaScript writes it in a template literal (leading '-' when negative). */
  function ShowInt(i: int): (s: string)
    ensures |s| >= 1
    ensures i < 0 <==> s[0] == '-'
  {
    if i < 0 then "-" + ShowNat(-i) else ShowNat(i)
  }

  /** The value of a string of decimal digits; the inverse of ShowNat. */
  function ParseDigits(s: string): nat
    requires IsDigits(s)
  {
    if |s| == 0 then 0 else 10 * ParseDigits(s[..|s| - 1]) + DigitValue(s[|s| - 1])
  }

  lemma {:induction false} ParseShowNat(n: nat)
    ensures ParseDigits(ShowNat(n)) == n
  {
    var s := ShowNat(n);
    if n >= 10 {
      ParseShowNat(n / 10);
      assert s[..|s| - 1] == ShowNat(n / 10);
    }
  }

  /** Different numbers are written differently, so a rendered index names one index. */
  lemma ShowNatInjective(m: nat, n: nat)
    ensures ShowNat(m) == ShowNat(n) <==> m == n
  {
    ParseShowNat(m);
    ParseShowNat(n);
  }

  /** `parts.join(sep)`. */
  function JoinWith(sep: string, parts: seq<string>): string
  {
    if |parts| == 0 then ""
    else if |parts| == 1 then parts[0]
    else JoinWith(sep, parts[..|parts| - 1]) + sep + parts[|parts| - 1]
  }

  /** The position of the last occurrence of c in s. */
  function LastIndexOf(s: string, c: char): (k: nat)
    requires c in s
    ensures k < |s| && s[k] == c && c !in s[k + 1..]
  {
    if s[|s| - 1] == c then |s| - 1
    else
      assert c in s[..|s| - 1] by {
        var j :| 0 <= j < |s| && s[j] == c;
        assert s[..|s| - 1][j] == c;
      }
      var k := LastIndexOf(s[..|s| - 1], c);
      assert s[k + 1..] == s[..|s| - 1][k + 1..] + [s[|s| - 1]];
      k
  }

  /** `s.split(c)`: the pieces between the occurrences of c. */
  function Split(s: string, c: char): (r: seq<string>)
    ensures |r| >= 1
    decreases |s|
  {
    if c !in s then [s]
    else
      var k := LastIndexOf(s, c);
      Split(s[..k], c) + [s[k + 1..]]
  }

  /** Splitting a join at its one-character separator gives back the parts, when no part holds it. */
  lemma {:induction false} SplitJoin(parts: seq<string>, c: char)
    requires |parts| > 0
    requires forall i :: 0 <= i < |parts| ==> c !in parts[i]
    ensures Split(JoinWith([c], parts), c) == parts
  {
    var s := JoinWith([c], parts);
    if |parts| == 1 {
    } else {
      var init := parts[..|parts| - 1];
      var x, y := JoinWith([c], init), parts[|parts| - 1];
      assert s == x + [c] + y;
      assert s[|x|] == c;
      assert c in s;
      var k := LastIndexOf(s, c);
      assert k == |x|;
      assert s[..k] == x;
      assert s[k + 1..] == y;
      SplitJoin(init, c);
    }
  }

  /** What a loop produces that appends `p + t` for every part `p` in order. */
  function Terminated(parts: seq<string>, t: string): string
  {
    if |parts| == 0 then "" else Terminated(parts[..|parts| - 1], t) + parts[|parts| - 1] + t
  }

  lemma TerminatedStep(parts: seq<string>, i: nat, t: string)
    requires i < |parts|
    ensures Terminated(parts[..i + 1], t) == Terminated(parts[..i], t) + parts[i] + t
  {
    assert parts[..i + 1][..i] == parts[..i];
  }

  /** A terminated list of parts is the joined list followed by one terminator. */
  lemma {:induction false} TerminatedIsJoined(parts: seq<string>, t: string)
    requires |parts| > 0
    ensures Terminated(parts, t) == JoinWith(t, parts) + t
  {
    if |parts| > 1 {
      var init := parts[..|parts| - 1];
      TerminatedIsJoined(init, t);
      assert init[..|init| - 1] == parts[..|parts| - 2];
    } else {
      assert parts[..0] == [];
    }
  }

  /** The first character of a join is the first part's first character, its last the last part's last. */
  lemma {:induction false} JoinEnds(sep: string, parts: seq<string>)
    requires |parts| > 0
    requires forall i :: 0 <= i < |parts| ==> |parts[i]| > 0
    ensures |JoinWith(sep, parts)| > 0
    ensures JoinWith(sep, parts)[0] == parts[0][0]
    ensures JoinWith(sep, parts)[|JoinWith(sep, parts)| - 1] == parts[|parts| - 1][|parts[|parts| - 1]| - 1]
  {
    if |parts| > 1 {
      var init := parts[..|parts| - 1];
      JoinEnds(sep, init);
    }
  }

  /** `s.slice(0, -1)`: drops the last character; the empty string stays empty. */
  function DropLast(s: string): (r: string)
    ensures |s| == 0 ==> r == ""
    ensures |s| > 0 ==> |r| == |s| - 1 && r + [s[|s| - 1]] == s
  {
    if |s| == 0 then s else s[..|s| - 1]
  }

  /** The characters `String.prototype.trim` removes: white space and line terminators. */
  predicate IsJsWhitespace(c: char) {
    c in {'\t', '\n', '\U{000B}', '\U{000C}', '\r', ' ', '\U{00A0}', '\U{1680}',
          '\U{2000}', '\U{2001}', '\U{2002}', '\U{2003}', '\U{2004}', '\U{2005}',
          '\U{2006}', '\U{2007}', '\U{2008}', '\U{2009}', '\U{200A}', '\U{2028}',
          '\U{2029}', '\U{202F}', '\U{205F}', '\U{3000}', '\U{FEFF}'}
  }

  /** Removes the longest prefix of white space, and nothing else. */
  function TrimStart(s: string): (r: string)
    ensures |r| <= |s| && r == s[|s| - |r|..]
    ensures |r| > 0 ==> !IsJsWhitespace(r[0])
    ensures forall i :: 0 <= i < |s| - |r| ==> IsJsWhitespace(s[i])
  {
    if |s| > 0 && IsJsWhitespace(s[0]) then
      var r := TrimStart(s[1..]);
      assert s[1..][|s| - 1 - |r|..] == s[|s| - |r|..];
      assert forall i :: 1 <= i < |s| - |r| ==> s[i] == s[1..][i - 1];
      r
    else s
  }

  /** Removes the longest suffix of white space, and nothing else. */
  function TrimEnd(s: string): (r: string)
    ensures |r| <= |s| && r == s[..|r|]
    ensures |r| > 0 ==> !IsJsWhitespace(r[|r| - 1])
    ensures forall i :: |r| <= i < |s| ==> IsJsWhitespace(s[i])
  {
    if |s| > 0 && IsJsWhitespace(s[|s| - 1]) then
      var r := TrimEnd(s[..|s| - 1]);
      assert s[..|s| - 1][..|r|] == s[..|r|];
      r
    else s
  }

  /** `s.trim()`. */
  function Trim(s: string): string
  {
    TrimEnd(TrimStart(s))
  }

  /** Trimming a string that starts and ends with non-space, padded by one space, gives it back. */
  lemma TrimPadded(x: string, pad: char)
    requires |x| > 0 && !IsJsWhitespace(x[0]) && !IsJsWhitespace(x[|x| - 1])
    requires IsJsWhitespace(pad)
    ensures Trim(x + [pad]) == x
  {
    var y := x + [pad];
    assert TrimStart(y) == y;
    assert y[..|y| - 1] == x;
    assert TrimEnd(x) == x;
  }
}
