// Shared vocabulary of the model: optional values, results, ASCII character
// classes, the handful of Go `strings` functions the core relies on, and the
// foreign IP parser.

module Basics {

  datatype Option<T> = None | Some(value: T)

  /** A Go `(value, error)` pair: exactly one side is meaningful. */
  datatype Result<T, E> = Ok(value: T) | Err(error: E)

  /** What Go's net.ParseIP (with To4) tells about a string: not an address,
    * an IPv4 address, or an IPv6 address that is not IPv4-mapped. The three
    * answers are disjoint by construction. */
  datatype IpKind = Invalid | V4 | V6

  /** net.ParseIP is foreign code: the model takes it as a parameter. */
  type IpParser = string -> IpKind

  /** Seconds in a day; instants are whole seconds. */
  const SecondsPerDay: int := 86400

  // ---------------------------------------------------------------- characters

  predicate IsAsciiLetter(c: char) { 'a' <= c <= 'z' || 'A' <= c <= 'Z' }

  predicate IsDigit(c: char) { '0' <= c <= '9' }

  predicate IsAlnum(c: char) { IsAsciiLetter(c) || IsDigit(c) }

  predicate IsHexDigit(c: char) { IsDigit(c) || 'a' <= c <= 'f' || 'A' <= c <= 'F' }

  /** A character of the class `[\w-]` (RE2 and Python `re` on ASCII text). */
  predicate IsWordOrDash(c: char) { IsAlnum(c) || c == '_' || c == '-' }

  /** `^[\w-]+$` in Go's RE2: a nonempty string of word characters and dashes. */
  predicate IsWordLabel(s: string) {
    |s| > 0 && forall i :: 0 <= i < |s| ==> IsWordOrDash(s[i])
  }

  predicate AllDigits(s: string) { forall i :: 0 <= i < |s| ==> IsDigit(s[i]) }

  // ---------------------------------------------------------------- strings

  predicate HasPrefix(s: string, p: string) { |p| <= |s| && s[..|p|] == p }

  predicate HasSuffix(s: string, x: string) { |x| <= |s| && s[|s| - |x|..] == x }

  /** `sub` occurs in `s` starting at index `k`. */
  predicate OccursAt(s: string, sub: string, k: int) {
    0 <= k && k + |sub| <= |s| && s[k..k + |sub|] == sub
  }

  /** Go's strings.Contains. */
  predicate Contains(s: string, sub: string) {
    exists k :: 0 <= k <= |s| - |sub| && OccursAt(s, sub, k)
  }
  /** One differing character rules out an occurrence at k. */
  lemma NoOccurrenceAt(s: string, sub: string, k: int, i: int)
    requires 0 <= k && 0 <= i < |sub| && k + i < |s| && s[k + i] != sub[i]
    ensures !OccursAt(s, sub, k)
  {
  }


  /** The first index at or after `from` where `sub` occurs, as strings.Index does from 0. */
  function IndexFrom(s: string, sub: string, from: nat): (r: Option<nat>)
    requires from <= |s|
    ensures r.Some? ==> from <= r.value && OccursAt(s, sub, r.value)
    ensures r.Some? ==> forall k :: from <= k < r.value ==> !OccursAt(s, sub, k)
    ensures r.None? ==> forall k :: from <= k ==> !OccursAt(s, sub, k)
    decreases |s| - from
  {
    if from + |sub| > |s| then None
    else if s[from..from + |sub|] == sub then Some(from)
    else if from == |s| then None
    else IndexFrom(s, sub, from + 1)
  }

  function Index(s: string, sub: string): (r: Option<nat>)
    ensures r.Some? <==> Contains(s, sub)
    ensures r.Some? ==> OccursAt(s, sub, r.value) && forall k :: 0 <= k < r.value ==> !OccursAt(s, sub, k)
  {
    var r := IndexFrom(s, sub, 0);
    if r.Some? then assert 0 <= r.value <= |s| - |sub| && OccursAt(s, sub, r.value); r
    else r
  }

  /** strings.Split(s, sep)[0] for a nonempty separator: the text before the
    * first occurrence of `sep`, or all of `s` when it does not occur. */
  function TextBefore(s: string, sep: string): (r: string)
    ensures HasPrefix(s, r)
    ensures !Contains(s, sep) ==> r == s
    ensures Contains(s, sep) ==> OccursAt(s, sep, |r|) && forall k :: 0 <= k < |r| ==> !OccursAt(s, sep, k)
  {
    match Index(s, sep)
    case None => s
    case Some(i) => s[..i]
  }

  /** TextBefore is the text up to the first occurrence. */
  lemma TextBeforeFirst(s: string, sep: string, i: nat)
    requires OccursAt(s, sep, i)
    requires forall k :: 0 <= k < i ==> !OccursAt(s, sep, k)
    ensures TextBefore(s, sep) == s[..i]
  {
    assert Contains(s, sep);
  }

  /** A text in which the pattern's first character never appears does not contain it. */
  lemma AbsentFirstChar(s: string, pat: string)
    requires |pat| > 0
    requires forall i :: 0 <= i < |s| ==> s[i] != pat[0]
    ensures !Contains(s, pat)
  {
    forall k | 0 <= k <= |s| - |pat|
      ensures !OccursAt(s, pat, k)
    {
      assert s[k..k + |pat|][0] == s[k];
    }
  }

  /** Go's strings.ReplaceAll for a nonempty pattern: scan left to right and
    * replace non-overlapping occurrences. */
  function ReplaceAll(s: string, pat: string, rep: string): (r: string)
    requires |pat| > 0
    decreases |s|
  {
    if |s| < |pat| then s
    else if s[..|pat|] == pat then rep + ReplaceAll(s[|pat|..], pat, rep)
    else [s[0]] + ReplaceAll(s[1..], pat, rep)
  }

  /** Text without any occurrence of the pattern passes through ReplaceAll unchanged. */
  lemma {:induction false} ReplaceAllAbsent(s: string, pat: string, rep: string)
    requires |pat| > 0
    requires !Contains(s, pat)
    ensures ReplaceAll(s, pat, rep) == s
    decreases |s|
  {
    if |s| >= |pat| {
      assert !OccursAt(s, pat, 0);
      assert !Contains(s[1..], pat) by {
        forall k | 0 <= k <= |s[1..]| - |pat|
          ensures !OccursAt(s[1..], pat, k)
        {
          assert !OccursAt(s, pat, k + 1);
          assert s[1..][k..k + |pat|] == s[k + 1..k + 1 + |pat|];
        }
      }
      ReplaceAllAbsent(s[1..], pat, rep);
    }
  }

  /** A leading occurrence is replaced and scanning resumes after it. */
  lemma ReplaceAllLeading(pat: string, rest: string, rep: string)
    requires |pat| > 0
    ensures ReplaceAll(pat + rest, pat, rep) == rep + ReplaceAll(rest, pat, rep)
  {
    var s := pat + rest;
    assert s[..|pat|] == pat && s[|pat|..] == rest;
  }

  /** ASCII lower-casing (strings.ToLower restricted to ASCII letters). */
  function LowerChar(c: char): (r: char)
    ensures 'A' <= c <= 'Z' ==> r as int == c as int + 32
    ensures !('A' <= c <= 'Z') ==> r == c
  {
    if 'A' <= c <= 'Z' then (c as int + 32) as char else c
  }

  function ToLower(s: string): (r: string)
    ensures |r| == |s|
    ensures forall i :: 0 <= i < |s| ==> r[i] == LowerChar(s[i])
  {
    seq(|s|, i requires 0 <= i < |s| => LowerChar(s[i]))
  }

  /** Lower-casing twice is lower-casing once. */
  lemma ToLowerIdempotent(s: string)
    ensures ToLower(ToLower(s)) == ToLower(s)
  {
  }

  /** Text without capitals is its own lower case. */
  lemma ToLowerUnchanged(s: string)
    requires forall i :: 0 <= i < |s| ==> !('A' <= s[i] <= 'Z')
    ensures ToLower(s) == s
  {
  }

  /** Bytes of a character in UTF-8. */
  function Utf8Width(c: char): (n: nat)
    ensures 1 <= n <= 4
    ensures n == 1 <==> c as int < 0x80
  {
    if c as int < 0x80 then 1 else if c as int < 0x800 then 2 else if c as int < 0x1_0000 then 3 else 4
  }

  /** Length of a string in UTF-8 bytes, which is what Go's len counts. It
    * equals the character count exactly for ASCII text. */
  function ByteLen(s: string): (n: nat)
    ensures n >= |s|
    ensures n == |s| <==> forall i :: 0 <= i < |s| ==> s[i] as int < 0x80
    decreases |s|
  {
    if |s| == 0 then 0
    else
      var n := Utf8Width(s[0]) + ByteLen(s[1..]);
      assert forall i :: 1 <= i < |s| ==> s[i] == s[1..][i - 1];
      n
  }

  /** strings.Join. */
  function Join(parts: seq<string>, sep: string): (r: string)
    ensures |parts| == 1 ==> r == parts[0]
    decreases |parts|
  {
    if |parts| == 0 then ""
    else if |parts| == 1 then parts[0]
    else parts[0] + sep + Join(parts[1..], sep)
  }

  /** Concatenation of all parts (Join with an empty separator). */
  function Concat(parts: seq<string>): string
    decreases |parts|
  {
    if |parts| == 0 then "" else parts[0] + Concat(parts[1..])
  }

  lemma {:induction false} ConcatAppend(parts: seq<string>, last: string)
    ensures Concat(parts + [last]) == Concat(parts) + last
    decreases |parts|
  {
    if |parts| == 0 {
      assert parts + [last] == [last];
    } else {
      assert (parts + [last])[1..] == parts[1..] + [last];
      ConcatAppend(parts[1..], last);
    }
  }

  /** Decimal value of a string of digits (Python int() on an isdigit() string). */
  function DigitsValue(s: string): (n: nat)
    requires AllDigits(s)
    decreases |s|
  {
    if |s| == 0 then 0 else DigitsValue(s[..|s| - 1]) * 10 + (s[|s| - 1] as int - '0' as int)
  }
}
