/**
 * The JavaScript string operations the core relies on, on `seq<char>`:
 * `includes`, `split` with a string separator, `trim`, the ASCII part of
 * `toLowerCase`, `repeat`, `padEnd` and `substring`.
 */
module Text {
  import opened Wrappers

  /** The characters `String.prototype.trim` removes: ECMAScript WhiteSpace and LineTerminator. */
  predicate IsWhite(c: char) {
    || c == '\t' || c == '\n' || c == '\U{B}' || c == '\U{C}' || c == '\r' || c == ' '
    || c == '\U{A0}' || c == '\U{1680}' || ('\U{2000}' <= c <= '\U{200A}')
    || c == '\U{2028}' || c == '\U{2029}' || c == '\U{202F}' || c == '\U{205F}'
    || c == '\U{3000}' || c == '\U{FEFF}'
  }

  /** `toLowerCase` on one character, for the ASCII letters. */
  function LowerChar(c: char): char {
    if 'A' <= c <= 'Z' then (c as int + 32) as char else c
  }

  function Lower(s: string): string {
    seq(|s|, i requires 0 <= i < |s| => LowerChar(s[i]))
  }

  /** `needle` sits in `s` at position `j`. */
  predicate OccursAt(s: string, needle: string, j: int) {
    0 <= j && j + |needle| <= |s| && s[j..j + |needle|] == needle
  }

  /** The first position at or after `i` where `needle` occurs in `s`, or -1 (`indexOf`). */
  function IndexFrom(s: string, needle: string, i: nat): (k: int)
    requires i <= |s|
    ensures k == -1 || i <= k <= |s| - |needle|
    decreases |s| - i
  {
    if i + |needle| > |s| then -1
    else if s[i..i + |needle|] == needle then i
    else if i == |s| then -1
    else IndexFrom(s, needle, i + 1)
  }

  /** `IndexFrom` finds an occurrence, and no earlier one at or after `i`. */
  lemma {:induction false} IndexFromFirst(s: string, needle: string, i: nat)
    requires i <= |s|
    ensures var k := IndexFrom(s, needle, i);
      && (k == -1 || OccursAt(s, needle, k))
      && forall j :: i <= j && (k == -1 || j < k) ==> !OccursAt(s, needle, j)
    decreases |s| - i
  {
    if i + |needle| <= |s| && s[i..i + |needle|] != needle && i < |s| {
      IndexFromFirst(s, needle, i + 1);
    }
  }

  /** `s` does not hold `needle` at `j`, because the first characters differ. */
  lemma FirstCharDiffers(s: string, needle: string, j: nat)
    requires j < |s| && |needle| > 0 && s[j] != needle[0]
    ensures !OccursAt(s, needle, j)
  {
  }

  /** `hay.includes(needle)`. */
  function Contains(hay: string, needle: string): bool {
    IndexFrom(hay, needle, 0) >= 0
  }

  lemma ContainsIff(hay: string, needle: string)
    ensures Contains(hay, needle) <==> exists j :: OccursAt(hay, needle, j)
  {
    IndexFromFirst(hay, needle, 0);
  }

  /** `s.split(sep)` for a non-empty string separator: left to right, non-overlapping. */
  function Split(s: string, sep: string): (parts: seq<string>)
    requires |sep| > 0
    ensures |parts| >= 1
    decreases |s|
  {
    var k := IndexFrom(s, sep, 0);
    if k < 0 then [s] else [s[..k]] + Split(s[k + |sep|..], sep)
  }

  /** `parts.join(sep)`, the inverse of `Split`. */
  function Join(parts: seq<string>, sep: string): string {
    if |parts| == 0 then ""
    else if |parts| == 1 then parts[0]
    else parts[0] + sep + Join(parts[1..], sep)
  }

  /** Splitting and joining again gives the original string back. */
  lemma {:induction false} JoinSplit(s: string, sep: string)
    requires |sep| > 0
    ensures Join(Split(s, sep), sep) == s
    decreases |s|
  {
    var k := IndexFrom(s, sep, 0);
    IndexFromFirst(s, sep, 0);
    if k >= 0 {
      var rest := s[k + |sep|..];
      var tail := Split(rest, sep);
      JoinSplit(rest, sep);
      var parts := Split(s, sep);
      assert parts == [s[..k]] + tail;
      assert parts[1..] == tail;
      assert |parts| >= 2;
      assert Join(parts, sep) == s[..k] + sep + Join(tail, sep);
      assert s[k..k + |sep|] == sep;
      assert s == s[..k] + s[k..k + |sep|] + rest;
    }
  }

  /** No piece that `Split` returns contains the separator. */
  lemma {:induction false} SplitPiecesFree(s: string, sep: string, p: nat, j: int)
    requires |sep| > 0 && p < |Split(s, sep)|
    ensures !OccursAt(Split(s, sep)[p], sep, j)
    decreases |s|
  {
    var k := IndexFrom(s, sep, 0);
    IndexFromFirst(s, sep, 0);
    if k < 0 {
      assert Split(s, sep)[p] == s;
    } else if p == 0 {
      if OccursAt(s[..k], sep, j) {
        assert s[..k][j..j + |sep|] == s[j..j + |sep|];
        assert OccursAt(s, sep, j);
      }
    } else {
      SplitPiecesFree(s[k + |sep|..], sep, p - 1, j);
    }
  }

  /** The first piece of a split is a prefix of the string. */
  lemma SplitFirstIsPrefix(s: string, sep: string)
    requires |sep| > 0
    ensures |Split(s, sep)[0]| <= |s| && Split(s, sep)[0] == s[..|Split(s, sep)[0]|]
  {
  }

  /** `s.split(' ')[0]`: the text before the first space. */
  function FirstWord(s: string): string {
    Split(s, " ")[0]
  }

  /** `trimStart`: drops the leading white space. */
  function TrimStart(s: string): string {
    if |s| > 0 && IsWhite(s[0]) then TrimStart(s[1..]) else s
  }

  /** `trimEnd`: drops the trailing white space. */
  function TrimEnd(s: string): string {
    if |s| > 0 && IsWhite(s[|s| - 1]) then TrimEnd(s[..|s| - 1]) else s
  }

  /** `s.trim()`. */
  function Trim(s: string): string {
    TrimEnd(TrimStart(s))
  }

  /** `TrimStart` leaves a suffix that does not start with white space, and only white space went. */
  lemma {:induction false} TrimStartShape(s: string)
    ensures var r := TrimStart(s);
      && |r| <= |s| && r == s[|s| - |r|..]
      && (r == [] || !IsWhite(r[0]))
      && forall i :: 0 <= i < |s| - |r| ==> IsWhite(s[i])
    decreases |s|
  {
    if |s| > 0 && IsWhite(s[0]) {
      TrimStartShape(s[1..]);
      var r := TrimStart(s[1..]);
      assert s[1..][|s| - 1 - |r|..] == s[|s| - |r|..];
      forall i | 0 <= i < |s| - |r| ensures IsWhite(s[i]) {
        if i > 0 { assert s[i] == s[1..][i - 1]; }
      }
    }
  }

  /** `TrimEnd` leaves a prefix that does not end with white space, and only white space went. */
  lemma {:induction false} TrimEndShape(s: string)
    ensures var r := TrimEnd(s);
      && |r| <= |s| && r == s[..|r|]
      && (r == [] || !IsWhite(r[|r| - 1]))
      && forall i :: |r| <= i < |s| ==> IsWhite(s[i])
    decreases |s|
  {
    if |s| > 0 && IsWhite(s[|s| - 1]) {
      var init := s[..|s| - 1];
      TrimEndShape(init);
      var r := TrimEnd(init);
      assert init[..|r|] == s[..|r|];
      forall i | |r| <= i < |s| ensures IsWhite(s[i]) {
        if i < |s| - 1 { assert s[i] == init[i]; }
      }
    }
  }

  /**
   * `trim` gives the slice of `s` that neither starts nor ends with white
   * space and has only white space before and after it, and it is empty
   * exactly when `s` is all white space.
   */
  lemma TrimShape(s: string)
    ensures exists a ::
      && OccursAt(s, Trim(s), a)
      && (forall i :: 0 <= i < a ==> IsWhite(s[i]))
      && (forall i :: a + |Trim(s)| <= i < |s| ==> IsWhite(s[i]))
    ensures Trim(s) == [] || (!IsWhite(Trim(s)[0]) && !IsWhite(Trim(s)[|Trim(s)| - 1]))
    ensures Trim(s) == [] <==> forall i :: 0 <= i < |s| ==> IsWhite(s[i])
  {
    var t := TrimStart(s);
    var r := TrimEnd(t);
    TrimStartShape(s);
    TrimEndShape(t);
    var a := |s| - |t|;
    assert r == t[..|r|];
    assert s[a..][..|r|] == s[a..a + |r|];
    assert OccursAt(s, r, a);
    if r != [] {
      assert r[0] == t[0];
    } else {
      assert |t| == 0;
      assert forall i :: 0 <= i < |s| ==> IsWhite(s[i]);
    }
    assert OccursAt(s, Trim(s), a);
    forall i | a + |r| <= i < |s| ensures IsWhite(s[i]) {
      assert s[i] == t[i - a];
    }
  }

  /** `String(c).repeat(n)`, which throws a RangeError when `n` is negative. */
  function Repeat(c: char, n: int): (r: Option<string>)
    ensures r.Some? <==> n >= 0
    ensures r.Some? ==> |r.value| == n && forall i :: 0 <= i < n ==> r.value[i] == c
  {
    if n < 0 then None else Some(seq(n, i => c))
  }

  /** `s.padEnd(n, c).substring(0, n)`: exactly `n` characters, cut or filled with `c`. */
  function FitTo(s: string, n: nat, c: char): (r: string)
    ensures |r| == n
    ensures forall i :: 0 <= i < n ==> r[i] == if i < |s| then s[i] else c
  {
    if |s| >= n then s[..n] else s + seq(n - |s|, i => c)
  }

  /** The decimal digits of a natural number, most significant first. */
  function Digits(n: nat): (r: string)
    ensures |r| >= 1 && forall i :: 0 <= i < |r| ==> '0' <= r[i] <= '9'
    decreases n
  {
    if n < 10 then [('0' as int + n) as char] else Digits(n / 10) + [('0' as int + n % 10) as char]
  }

  /** `String(n)` for an integer: its digits, after a minus sign when negative. */
  function DecimalString(n: int): string {
    if n < 0 then "-" + Digits(-n) else Digits(n)
  }
}
