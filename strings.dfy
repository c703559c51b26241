/**
 * The JavaScript string operations the console relies on, over `seq<char>`:
 * `startsWith`, `endsWith`, `indexOf`/`includes`, `replace` with a string
 * pattern (first occurrence, with `$` substitution patterns), `trim`,
 * `toLowerCase` (ASCII letters only) and `String(n)` for integers.
 */
module Strings {
  import opened Options

  predicate StartsWith(s: string, prefix: string) {
    |prefix| <= |s| && s[..|prefix|] == prefix
  }

  predicate EndsWith(s: string, suffix: string) {
    |suffix| <= |s| && s[|s| - |suffix|..] == suffix
  }

  predicate OccursAt(s: string, pat: string, i: int) {
    0 <= i && i + |pat| <= |s| && s[i..i + |pat|] == pat
  }

  /** `s.indexOf(pat, from)`: the first position at or after `from` where `pat` occurs. */
  function IndexOfFrom(s: string, pat: string, from: nat): (r: Option<nat>)
    ensures r.Some? ==> from <= r.value && OccursAt(s, pat, r.value)
    ensures r.Some? ==> forall j :: from <= j < r.value ==> !OccursAt(s, pat, j)
    ensures r.None? ==> forall j :: from <= j ==> !OccursAt(s, pat, j)
    decreases |s| - from
  {
    if from + |pat| > |s| then None
    else if s[from..from + |pat|] == pat then Some(from)
    else IndexOfFrom(s, pat, from + 1)
  }

  function IndexOf(s: string, pat: string): Option<nat> {
    IndexOfFrom(s, pat, 0)
  }

  /** `s.includes(pat)`. */
  predicate Contains(s: string, pat: string) {
    IndexOf(s, pat).Some?
  }

  lemma ContainsIff(s: string, pat: string)
    ensures Contains(s, pat) <==> exists i :: OccursAt(s, pat, i)
  {
    if !Contains(s, pat) {
      forall i ensures !OccursAt(s, pat, i) {
        if 0 <= i { assert !OccursAt(s, pat, i); }
      }
    }
  }

  /**
   * The replacement text that `String.prototype.replace` inserts for a string
   * pattern: `$$` is a dollar sign, `$&` the matched text, `` $` `` the text
   * before the match and `$'` the text after it; every other character,
   * including a `$` before anything else, is copied.
   */
  function Substitution(repl: string, matched: string, before: string, after: string): string
    decreases |repl|
  {
    if repl == [] then []
    else if repl[0] == '$' && |repl| >= 2 && repl[1] in "$&`'" then
      (if repl[1] == '$' then "$"
       else if repl[1] == '&' then matched
       else if repl[1] == '`' then before
       else after)
      + Substitution(repl[2..], matched, before, after)
    else [repl[0]] + Substitution(repl[1..], matched, before, after)
  }

  /** A replacement without `$` is inserted literally. */
  lemma {:induction false} SubstitutionLiteral(repl: string, matched: string, before: string, after: string)
    requires '$' !in repl
    ensures Substitution(repl, matched, before, after) == repl
    decreases |repl|
  {
    if repl != [] {
      assert '$' !in repl[1..] by {
        forall c | c in repl[1..] ensures c != '$' { assert c in repl; }
      }
      SubstitutionLiteral(repl[1..], matched, before, after);
    }
  }

  /** `s.replace(pat, repl)` with a string pattern: only the first occurrence is replaced. */
  function ReplaceFirst(s: string, pat: string, repl: string): string {
    match IndexOf(s, pat)
    case None => s
    case Some(p) =>
      s[..p] + Substitution(repl, pat, s[..p], s[p + |pat|..]) + s[p + |pat|..]
  }

  /** Replacing a pattern that does not occur changes nothing. */
  lemma ReplaceAbsent(s: string, pat: string, repl: string)
    requires forall i :: !OccursAt(s, pat, i)
    ensures ReplaceFirst(s, pat, repl) == s
  {

  }

  /**
   * With a replacement free of `$`, the first occurrence of `pat` (at `p`,
   * with no earlier occurrence) is cut out and `repl` put in its place.
   */
  lemma ReplaceAtFirst(s: string, pat: string, repl: string, p: nat)
    requires '$' !in repl
    requires OccursAt(s, pat, p)
    requires forall j :: 0 <= j < p ==> !OccursAt(s, pat, j)
    ensures ReplaceFirst(s, pat, repl) == s[..p] + repl + s[p + |pat|..]
  {
    var r := IndexOf(s, pat);
    assert r.Some?;
    assert OccursAt(s, pat, r.value);
    assert r.value == p;
    SubstitutionLiteral(repl, pat, s[..p], s[p + |pat|..]);
  }

  /** The white space JavaScript's `trim` removes (WhiteSpace and LineTerminator). */
  predicate IsSpace(c: char) {
    c == '\t' || c == '\n' || c == '\U{000B}' || c == '\U{000C}' || c == '\r' || c == ' '
    || c == '\U{00A0}' || c == '\U{1680}' || ('\U{2000}' <= c <= '\U{200A}')
    || c == '\U{2028}' || c == '\U{2029}' || c == '\U{202F}' || c == '\U{205F}'
    || c == '\U{3000}' || c == '\U{FEFF}'
  }

  function TrimStart(s: string): (r: string)
    ensures |r| <= |s| && r == s[|s| - |r|..]
    ensures r == [] || !IsSpace(r[0])
    ensures forall j :: 0 <= j < |s| - |r| ==> IsSpace(s[j])
  {
    if s != [] && IsSpace(s[0]) then TrimStart(s[1..]) else s
  }

  function TrimEnd(s: string): (r: string)
    ensures |r| <= |s| && r == s[..|r|]
    ensures r == [] || !IsSpace(r[|r| - 1])
    ensures forall j :: |r| <= j < |s| ==> IsSpace(s[j])
  {
    if s != [] && IsSpace(s[|s| - 1]) then TrimEnd(s[..|s| - 1]) else s
  }

  /** `s.trim()`: the middle of `s` that neither starts nor ends with white space, with only white space around it. */
  function Trim(s: string): (r: string)
    ensures |r| <= |s|
    ensures r == [] || (!IsSpace(r[0]) && !IsSpace(r[|r| - 1]))
    ensures exists a :: 0 <= a <= |s| - |r| && r == s[a..][..|r|]
                         && (forall j :: 0 <= j < a ==> IsSpace(s[j]))
                         && (forall j :: a + |r| <= j < |s| ==> IsSpace(s[j]))
  {
    var t := TrimStart(s);
    TrimMiddle(s, t, TrimEnd(t));
    TrimEnd(t)
  }

  lemma TrimMiddle(s: string, t: string, r: string)
    requires t == TrimStart(s) && r == TrimEnd(t)
    ensures exists a :: 0 <= a <= |s| - |r| && r == s[a..][..|r|]
                        && (forall j :: 0 <= j < a ==> IsSpace(s[j]))
                        && (forall j :: a + |r| <= j < |s| ==> IsSpace(s[j]))
  {
    var a := |s| - |t|;
    assert t == s[a..];
    forall j | a + |r| <= j < |s|
      ensures IsSpace(s[j])
    {
      assert s[j] == t[j - a];
    }
    assert r == s[a..][..|r|];
  }

  /** `s.trim()` is empty exactly when `s` is all white space. */
  lemma TrimEmptyIff(s: string)
    ensures Trim(s) == [] <==> forall j :: 0 <= j < |s| ==> IsSpace(s[j])
  {
    var t := TrimStart(s);
    if Trim(s) == [] {
      assert t == [];
    } else {
      var k := |s| - |t|;
      assert Trim(s)[0] == t[0] == s[k];
      assert !IsSpace(s[k]);
    }
  }

  function LowerChar(c: char): char {
    if 'A' <= c <= 'Z' then (c as int + 32) as char else c
  }

  /** `s.toLowerCase()` restricted to ASCII letters. */
  function ToLower(s: string): (r: string)
    ensures |r| == |s|
  {
    seq(|s|, i requires 0 <= i < |s| => LowerChar(s[i]))
  }

  function DigitChar(d: nat): char
    requires d < 10
  {
    "0123456789"[d]
  }

  predicate IsDigit(c: char) {
    '0' <= c <= '9'
  }

  /** `String(n)` for a natural number: its decimal digits, without leading zeros. */
  function NatToString(n: nat): (r: string)
    ensures |r| >= 1
    ensures forall i :: 0 <= i < |r| ==> IsDigit(r[i])
    ensures r[0] == '0' <==> n == 0
    decreases n
  {
    if n < 10 then [DigitChar(n)]
    else NatToString(n / 10) + [DigitChar(n % 10)]
  }

  /** The number a string of decimal digits denotes. */
  function DigitsValue(s: string): nat
    requires forall i :: 0 <= i < |s| ==> IsDigit(s[i])
  {
    if s == [] then 0
    else
      assert IsDigit(s[|s| - 1]);
      DigitsValue(s[..|s| - 1]) * 10 + (s[|s| - 1] as int - '0' as int)
  }

  /** Reading back the digits of `String(n)` gives `n`. */
  lemma {:induction false} NatToStringRoundTrip(n: nat)
    ensures DigitsValue(NatToString(n)) == n
    decreases n
  {
    if n >= 10 {
      var s := NatToString(n);
      assert s[..|s| - 1] == NatToString(n / 10);
      NatToStringRoundTrip(n / 10);
    }
  }

  /** `String(n)` for an integer. */
  function IntToString(n: int): (r: string)
    ensures |r| >= 1
  {
    if n < 0 then "-" + NatToString(-n) else NatToString(n)
  }

  lemma DropHead(c: char, t: string)
    ensures ([c] + t)[1..] == t
  {
  }

  /** The text of an integer: an optional `-` followed by decimal digits. */
  predicate IsIntText(s: string) {
    if s != [] && s[0] == '-' then forall i :: 1 <= i < |s| ==> IsDigit(s[i])
    else forall i :: 0 <= i < |s| ==> IsDigit(s[i])
  }

  /** The integer such a text denotes. */
  function ParseInt(s: string): int
    requires IsIntText(s)
  {
    if s != [] && s[0] == '-' then -(DigitsValue(s[1..]) as int) else DigitsValue(s)
  }

  /** Reading back `String(n)` gives `n`. */
  lemma IntToStringRoundTrip(n: int)
    ensures IsIntText(IntToString(n)) && ParseInt(IntToString(n)) == n
  {
    var r := IntToString(n);
    if n < 0 {
      var m := NatToString(-n);
      assert r == "-" + m;
      DropHead('-', m);
      NatToStringRoundTrip(-n);
    } else {
      assert r == NatToString(n);
      assert IsDigit(r[0]);
      NatToStringRoundTrip(n);
    }
  }
}
