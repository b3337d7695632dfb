/** String helpers shared by the commands: JavaScript's `join`, `split`,
    `startsWith`, number printing, ASCII lower-casing, and the shapes of the
    few regular-expression replacements the commands perform. Strings are
    sequences of Unicode scalar values (see README for UTF-16). */
module Text {
  import opened Wrappers

  predicate IsPrefix(p: string, s: string) {
    |p| <= |s| && s[..|p|] == p
  }

  /** `s` contains `pat` as a contiguous block. */
  predicate Contains(s: string, pat: string)
    decreases |s|
  {
    if |s| < |pat| then false else s[..|pat|] == pat || Contains(s[1..], pat)
  }

  /** `parts.join(sep)`. */
  function Join(parts: seq<string>, sep: string): string
    decreases |parts|
  {
    if |parts| == 0 then ""
    else if |parts| == 1 then parts[0]
    else parts[0] + sep + Join(parts[1..], sep)
  }

  /** Every character in `from` replaced by `to`, the others kept. */
  function SubstChars(s: string, from: set<char>, to: char): (r: string)
    ensures |r| == |s|
    ensures forall i | 0 <= i < |s| :: r[i] == if s[i] in from then to else s[i]
    decreases |s|
  {
    if |s| == 0 then ""
    else [if s[0] in from then to else s[0]] + SubstChars(s[1..], from, to)
  }

  /** `s.split(/[seps]/)`: the pieces between separator characters. */
  function Split(s: string, seps: set<char>): (r: seq<string>)
    ensures |r| >= 1
    ensures forall k, i | 0 <= k < |r| && 0 <= i < |r[k]| :: r[k][i] !in seps
    decreases |s|
  {
    if |s| == 0 then [""]
    else if s[0] in seps then [""] + Split(s[1..], seps)
    else
      var rest := Split(s[1..], seps);
      [[s[0]] + rest[0]] + rest[1..]
  }

  /** Joining the pieces of a split with one separator gives the original
      text with every separator character replaced by that one. */
  lemma {:induction false} JoinSplit(s: string, seps: set<char>, sep: char)
    ensures Join(Split(s, seps), [sep]) == SubstChars(s, seps, sep)
    decreases |s|
  {
    if |s| == 0 {
    } else if s[0] in seps {
      var rest := Split(s[1..], seps);
      JoinSplit(s[1..], seps, sep);
      assert Split(s, seps) == [""] + rest;
      assert ([""] + rest)[1..] == rest;
      assert SubstChars(s, seps, sep) == [sep] + SubstChars(s[1..], seps, sep);
    } else {
      var rest := Split(s[1..], seps);
      JoinSplit(s[1..], seps, sep);
      var parts := [[s[0]] + rest[0]] + rest[1..];
      assert Split(s, seps) == parts;
      assert SubstChars(s, seps, sep) == [s[0]] + SubstChars(s[1..], seps, sep);
      if |rest| == 1 {
        assert parts == [[s[0]] + rest[0]];
      } else {
        assert parts[1..] == rest[1..];
        assert Join(rest, [sep]) == rest[0] + [sep] + Join(rest[1..], [sep]);
      }
    }
  }

  /** A text without separators is one piece. */
  lemma {:induction false} SplitNoSeparator(s: string, seps: set<char>)
    requires forall i | 0 <= i < |s| :: s[i] !in seps
    ensures Split(s, seps) == [s]
    decreases |s|
  {
    if |s| > 0 {
      SplitNoSeparator(s[1..], seps);
      assert [s[0]] + s[1..] == s;
    }
  }

  /** The first separator ends the first piece. */
  lemma {:induction false} SplitAtSeparator(a: string, c: char, b: string, seps: set<char>)
    requires forall i | 0 <= i < |a| :: a[i] !in seps
    requires c in seps
    ensures Split(a + [c] + b, seps) == [a] + Split(b, seps)
    decreases |a|
  {
    var s := a + [c] + b;
    if |a| == 0 {
      assert s == [c] + b && s[1..] == b;
    } else {
      assert s[0] == a[0] && s[1..] == a[1..] + [c] + b;
      SplitAtSeparator(a[1..], c, b, seps);
      assert [a[0]] + a[1..] == a;
    }
  }

  /** Finding `pat` at any position makes the text contain it. */
  lemma {:induction false} ContainsAt(s: string, pat: string, i: nat)
    requires i + |pat| <= |s| && s[i..i + |pat|] == pat
    ensures Contains(s, pat)
    decreases i
  {
    if i > 0 {
      assert s[1..][i - 1..i - 1 + |pat|] == pat;
      ContainsAt(s[1..], pat, i - 1);
    }
  }

  /** Containment always has a witness position. */
  lemma {:induction false} ContainsWitness(s: string, pat: string) returns (i: nat)
    requires Contains(s, pat)
    ensures i + |pat| <= |s| && s[i..i + |pat|] == pat
    decreases |s|
  {
    if s[..|pat|] == pat {
      i := 0;
    } else {
      var k := ContainsWitness(s[1..], pat);
      assert s[1..][k..k + |pat|] == s[k + 1..k + 1 + |pat|];
      i := k + 1;
    }
  }

  predicate IsLineTerminator(c: char) {
    c == '\n' || c == '\r' || c == '\U{2028}' || c == '\U{2029}'
  }

  predicate NoLineTerminator(s: string) {
    forall i | 0 <= i < |s| :: !IsLineTerminator(s[i])
  }

  /** The first index at or after `from` holding a line terminator, or |s|:
      where a regular expression's `.` stops matching. */
  function LineEnd(s: string, from: nat): (k: nat)
    requires from <= |s|
    ensures from <= k <= |s|
    ensures forall i | from <= i < k :: !IsLineTerminator(s[i])
    ensures k < |s| ==> IsLineTerminator(s[k])
    decreases |s| - from
  {
    if from == |s| || IsLineTerminator(s[from]) then from else LineEnd(s, from + 1)
  }

  /** The largest j in [lo, hi) with s[j] == c. */
  function LastIndexIn(s: string, c: char, lo: nat, hi: nat): (r: Option<nat>)
    requires hi <= |s|
    ensures r.Some? ==> lo <= r.value < hi && s[r.value] == c
    ensures r.Some? ==> forall j | r.value < j < hi :: s[j] != c
    ensures r.None? ==> forall j | lo <= j < hi :: s[j] != c
    decreases hi
  {
    if hi <= lo then None
    else if s[hi - 1] == c then Some(hi - 1)
    else LastIndexIn(s, c, lo, hi - 1)
  }

  /** The smallest j in [lo, hi) with s[j] == c. */
  function FirstIndexIn(s: string, c: char, lo: nat, hi: nat): (r: Option<nat>)
    requires hi <= |s|
    ensures r.Some? ==> lo <= r.value < hi && s[r.value] == c
    ensures r.Some? ==> forall j | lo <= j < r.value :: s[j] != c
    ensures r.None? ==> forall j | lo <= j < hi :: s[j] != c
    decreases hi - lo
  {
    if hi <= lo then None
    else if s[lo] == c then Some(lo)
    else FirstIndexIn(s, c, lo + 1, hi)
  }

  /** One global, greedy pass of `s.replace(/O(.{minInner,})C/g, ...)`:
      scanning left to right, an `open` character starts a match that runs
      to the LAST `close` before the next line terminator, provided at least
      `minInner` characters lie between them; the match is replaced by the
      text between the brackets when `keepInner`, and deleted otherwise.
      Where no match starts, the character is kept and the scan moves on. */
  function ReplaceBracketed(s: string, open: char, close: char, minInner: nat, keepInner: bool): string
    decreases |s|
  {
    if |s| == 0 then ""
    else if s[0] == open then
      match LastIndexIn(s, close, 1 + minInner, LineEnd(s, 1))
      case Some(j) =>
        (if keepInner then s[1..j] else "") + ReplaceBracketed(s[j + 1..], open, close, minInner, keepInner)
      case None =>
        [s[0]] + ReplaceBracketed(s[1..], open, close, minInner, keepInner)
    else
      [s[0]] + ReplaceBracketed(s[1..], open, close, minInner, keepInner)
  }

  /** Text before the first `open` passes through untouched. */
  lemma {:induction false} ReplaceBracketedPrefix(p: string, rest: string, open: char, close: char, minInner: nat, keepInner: bool)
    requires forall i | 0 <= i < |p| :: p[i] != open
    ensures ReplaceBracketed(p + rest, open, close, minInner, keepInner)
         == p + ReplaceBracketed(rest, open, close, minInner, keepInner)
    decreases |p|
  {
    if |p| > 0 {
      var s := p + rest;
      assert s[0] == p[0] && s[1..] == p[1..] + rest;
      ReplaceBracketedPrefix(p[1..], rest, open, close, minInner, keepInner);
      assert p == [p[0]] + p[1..];
    } else {
      assert p + rest == rest;
    }
  }

  /** A text holding no `open` character is left unchanged. */
  lemma ReplaceBracketedNoOpen(s: string, open: char, close: char, minInner: nat, keepInner: bool)
    requires forall i | 0 <= i < |s| :: s[i] != open
    ensures ReplaceBracketed(s, open, close, minInner, keepInner) == s
  {
    ReplaceBracketedPrefix(s, "", open, close, minInner, keepInner);
    assert s + "" == s;
  }

  /** A whole bracketed group on one line is one match: `open inner close`
      becomes `inner` (kept) or nothing (deleted), whatever brackets `inner`
      itself holds. */
  lemma ReplaceBracketedGroup(inner: string, open: char, close: char, minInner: nat, keepInner: bool)
    requires NoLineTerminator(inner) && |inner| >= minInner
    requires !IsLineTerminator(close)
    ensures ReplaceBracketed([open] + inner + [close], open, close, minInner, keepInner)
         == if keepInner then inner else ""
  {
    var s := [open] + inner + [close];
    var k := LineEnd(s, 1);
    forall i | 1 <= i < |s|
      ensures !IsLineTerminator(s[i])
    {
      if i < |s| - 1 {
        assert s[i] == inner[i - 1];
      }
    }
    assert k == |s|;
    assert s[|s| - 1] == close;
    var r := LastIndexIn(s, close, 1 + minInner, k);
    assert r == Some(|s| - 1);
    assert s[1..|s| - 1] == inner;
    assert s[|s|..] == "";
  }

  function DigitChar(d: nat): char
    requires d < 10
  {
    "0123456789"[d]
  }

  predicate IsDigit(c: char) {
    '0' <= c <= '9'
  }

  /** Decimal rendering of a natural number, as JavaScript prints it. */
  function NatToString(n: nat): (r: string)
    ensures |r| >= 1
    ensures forall i | 0 <= i < |r| :: IsDigit(r[i])
    decreases n
  {
    if n < 10 then [DigitChar(n)] else NatToString(n / 10) + [DigitChar(n % 10)]
  }

  /** The value of a string of decimal digits. */
  function DigitsValue(s: string): nat
    requires forall i | 0 <= i < |s| :: IsDigit(s[i])
    decreases |s|
  {
    if |s| == 0 then 0
    else
      assert IsDigit(s[|s| - 1]);
      DigitsValue(s[..|s| - 1]) * 10 + (s[|s| - 1] as int - '0' as int)
  }

  /** Printing is faithful: reading the digits back gives the number. */
  lemma {:induction false} NatToStringRoundTrip(n: nat)
    ensures DigitsValue(NatToString(n)) == n
    decreases n
  {
    var r := NatToString(n);
    if n < 10 {
      assert r[..0] == "";
    } else {
      NatToStringRoundTrip(n / 10);
      assert r[..|r| - 1] == NatToString(n / 10);
    }
  }

  /** JavaScript `toLowerCase` restricted to ASCII letters. */
  function LowerChar(c: char): char {
    if 'A' <= c <= 'Z' then (c as int + 32) as char else c
  }

  function LowerAscii(s: string): (r: string)
    ensures |r| == |s|
    ensures forall i | 0 <= i < |s| :: r[i] == LowerChar(s[i])
    decreases |s|
  {
    if |s| == 0 then "" else [LowerChar(s[0])] + LowerAscii(s[1..])
  }

  /** Lower-casing text without capitals changes nothing. */
  lemma LowerAsciiKeepsLower(s: string)
    requires forall i | 0 <= i < |s| :: !('A' <= s[i] <= 'Z')
    ensures LowerAscii(s) == s
  {
  }

  /** Lower-casing twice is lower-casing once. */
  lemma LowerAsciiIdempotent(s: string)
    ensures LowerAscii(LowerAscii(s)) == LowerAscii(s)
  {
    var l := LowerAscii(s);
    forall i | 0 <= i < |s|
      ensures LowerChar(l[i]) == l[i]
    {
    }
  }
}
