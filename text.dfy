/**
 * The string library operations the application relies on, with the JVM semantics the
 * source gets from Kotlin's standard library.  Locale- and Unicode-dependent character
 * services are not interpreted: they are carried by a `CharServices` value, and every
 * property of the model holds for every choice of them.
 */
module Text {

  /**
   * The platform's character services: `lower`/`upper` stand for `lowercase()`/`uppercase()`
   * under the default locale, `isLetter` for `Char.isLetter()`, and `isWhitespace` for
   * `Char.isWhitespace()`.  Case mapping is taken character by character, so it keeps the
   * length of a string (the highlighting code mixes indices of `text` and `text.lowercase()`).
   */
  datatype CharServices = CharServices(
    lower: char -> char,
    upper: char -> char,
    isLetter: char -> bool,
    isWhitespace: char -> bool)

  /** `s.lowercase()` */
  function Lower(cs: CharServices, s: string): (r: string)
    ensures |r| == |s|
    ensures forall i :: 0 <= i < |s| ==> r[i] == cs.lower(s[i])
  {
    seq(|s|, i requires 0 <= i < |s| => cs.lower(s[i]))
  }

  /** `s.isBlank()`: every character is whitespace (true of the empty string). */
  predicate IsBlank(cs: CharServices, s: string) {
    forall i :: 0 <= i < |s| ==> cs.isWhitespace(s[i])
  }

  function TrimStart(cs: CharServices, s: string): (r: string)
    ensures |r| <= |s| && r == s[|s| - |r|..]
    ensures r == [] <==> IsBlank(cs, s)
    ensures r != [] ==> !cs.isWhitespace(r[0])
  {
    if s != [] && cs.isWhitespace(s[0]) then TrimStart(cs, s[1..]) else s
  }

  function TrimEnd(cs: CharServices, s: string): (r: string)
    ensures |r| <= |s| && r == s[..|r|]
    ensures r != [] ==> !cs.isWhitespace(r[|r| - 1])
    ensures s != [] && !cs.isWhitespace(s[0]) ==> r != []
  {
    if s != [] && cs.isWhitespace(s[|s| - 1]) then TrimEnd(cs, s[..|s| - 1]) else s
  }

  /** `s.trim()`: leading and trailing whitespace removed. */
  function Trim(cs: CharServices, s: string): (r: string)
    ensures |r| <= |s|
    ensures r == [] <==> IsBlank(cs, s)
    ensures r != [] ==> !cs.isWhitespace(r[0]) && !cs.isWhitespace(r[|r| - 1])
  {
    TrimEnd(cs, TrimStart(cs, s))
  }

  /** `p` occurs in `s` starting at index `i`. */
  predicate OccursAt(s: string, p: string, i: int) {
    0 <= i && i + |p| <= |s| && s[i..i + |p|] == p
  }

  /** The first occurrence of `p` in `s` at or after `i`, or -1. */
  function SearchFrom(s: string, p: string, i: nat): (r: int)
    requires i <= |s|
    ensures r == -1 || (i <= r && r + |p| <= |s|)
    decreases |s| - i
  {
    if i + |p| > |s| then -1
    else if s[i..i + |p|] == p then i
    else SearchFrom(s, p, i + 1)
  }

  /** The search finds an occurrence, and none is skipped. */
  lemma {:induction false} SearchFromFirst(s: string, p: string, i: nat)
    requires i <= |s|
    decreases |s| - i
    ensures SearchFrom(s, p, i) != -1 ==> OccursAt(s, p, SearchFrom(s, p, i))
    ensures forall j :: i <= j && (SearchFrom(s, p, i) == -1 || j < SearchFrom(s, p, i)) ==> !OccursAt(s, p, j)
  {
    if i + |p| <= |s| && s[i..i + |p|] != p {
      SearchFromFirst(s, p, i + 1);
    }
  }

  /**
   * `s.indexOf(p, from)` as the JVM defines it: a negative `from` counts as 0, and a `from`
   * at or past the end finds only the empty string, at `|s|`.
   */
  function IndexOf(s: string, p: string, from: int): (r: int)
    ensures -1 <= r <= |s|
    ensures r >= 0 ==> r + |p| <= |s|
    ensures r >= 0 && p != [] ==> from <= r
  {
    if from >= |s| then (if p == [] then |s| else -1)
    else SearchFrom(s, p, if from < 0 then 0 else from)
  }

  /** `IndexOf` returns the first occurrence at or after `from`, and -1 only when there is none. */
  lemma IndexOfFirst(s: string, p: string, from: int)
    ensures IndexOf(s, p, from) == -1 ==> forall j :: from <= j ==> !OccursAt(s, p, j)
    ensures IndexOf(s, p, from) >= 0 ==>
              OccursAt(s, p, IndexOf(s, p, from)) && forall j :: from <= j < IndexOf(s, p, from) ==> !OccursAt(s, p, j)
  {
    if from < |s| {
      SearchFromFirst(s, p, if from < 0 then 0 else from);
    }
  }

  /** An occurrence at or after `from` means `indexOf` finds one no later. */
  lemma IndexOfAtMost(s: string, p: string, from: int, j: int)
    requires from <= j && OccursAt(s, p, j)
    ensures 0 <= IndexOf(s, p, from) <= j
  {
    IndexOfFirst(s, p, from);
  }

  /** The characters the regular expression `\s` matches on the JVM. */
  predicate IsRegexSpace(c: char) {
    c == ' ' || c == '\t' || c == '\n' || c == '\r' || c == 11 as char || c == 12 as char
  }

  /** The first index at or after `i` holding a `\s` character, or `|s|`. */
  function NextSpace(s: string, i: nat): (r: nat)
    requires i <= |s|
    ensures i <= r <= |s|
    ensures r < |s| ==> IsRegexSpace(s[r])
    ensures forall k :: i <= k < r ==> !IsRegexSpace(s[k])
    decreases |s| - i
  {
    if i == |s| || IsRegexSpace(s[i]) then i else NextSpace(s, i + 1)
  }

  /** The end of the run of `\s` characters that starts at `i`. */
  function SpaceRunEnd(s: string, i: nat): (r: nat)
    requires i <= |s|
    ensures i <= r <= |s|
    ensures i < |s| && IsRegexSpace(s[i]) ==> i < r
    ensures r < |s| ==> !IsRegexSpace(s[r])
    decreases |s| - i
  {
    if i < |s| && IsRegexSpace(s[i]) then SpaceRunEnd(s, i + 1) else i
  }

  /**
   * `s.split(Regex("\\s+"))` as Kotlin computes it: the pieces between maximal runs of `\s`,
   * keeping the empty piece before a leading run and after a trailing one.
   */
  function SplitOnSpaces(s: string): (r: seq<string>)
    ensures |r| >= 1
    ensures forall k, i :: 0 <= k < |r| && 0 <= i < |r[k]| ==> !IsRegexSpace(r[k][i])
    decreases |s|
  {
    var i := NextSpace(s, 0);
    if i == |s| then [s]
    else
      var j := SpaceRunEnd(s, i);
      [s[..i]] + SplitOnSpaces(s[j..])
  }

  /** The characters the regular expression `[a-záéíóúñ]` accepts. */
  predicate IsKeptLetter(c: char) {
    ('a' <= c <= 'z') || c == 'á' || c == 'é' || c == 'í' || c == 'ó' || c == 'ú' || c == 'ñ'
  }

  /** `s.replace(Regex("[^a-záéíóúñ]"), "")`: only the kept letters remain, in order. */
  function KeepLetters(s: string): (r: string)
    ensures |r| <= |s|
    ensures forall i :: 0 <= i < |r| ==> IsKeptLetter(r[i])
    ensures (forall i :: 0 <= i < |s| ==> IsKeptLetter(s[i])) ==> r == s
  {
    if s == [] then []
    else (if IsKeptLetter(s[0]) then [s[0]] else []) + KeepLetters(s[1..])
  }

  /** The index of the last `c` in `s`, or -1. */
  function LastIndexOf(s: string, c: char): (r: int)
    ensures -1 <= r < |s|
    ensures r >= 0 ==> s[r] == c
    ensures forall k :: r < k < |s| ==> s[k] != c
  {
    if s == [] then -1
    else if s[|s| - 1] == c then |s| - 1
    else LastIndexOf(s[..|s| - 1], c)
  }

  /** `s.substringAfterLast(c, missing)` */
  function SubstringAfterLast(s: string, c: char, missing: string): (r: string)
    ensures c !in s ==> r == missing
    ensures c in s ==> c !in r && exists k :: 0 <= k < |s| && s[k] == c && r == s[k + 1..]
  {
    var k := LastIndexOf(s, c);
    if k == -1 then missing else s[k + 1..]
  }

  /** `s.substringBeforeLast(c)`: everything before the last `c`, or all of `s`. */
  function SubstringBeforeLast(s: string, c: char): (r: string)
    ensures c !in s ==> r == s
    ensures c in s ==> exists k :: 0 <= k < |s| && s[k] == c && r == s[..k] && c !in s[k + 1..]
  {
    var k := LastIndexOf(s, c);
    if k == -1 then s else s[..k]
  }

  /** The last `c` of `p + [c] + q` is the one between them when `q` has none. */
  lemma LastIndexOfSplit(p: string, c: char, q: string)
    requires c !in q
    ensures LastIndexOf(p + [c] + q, c) == |p|
  {
    var s := p + [c] + q;
    var r := LastIndexOf(s, c);
    assert s[|p|] == c;
  }

  lemma AfterLastSplit(p: string, c: char, q: string, missing: string)
    requires c !in q
    ensures SubstringAfterLast(p + [c] + q, c, missing) == q
  {
    LastIndexOfSplit(p, c, q);
    assert (p + [c] + q)[|p| + 1..] == q;
  }

  lemma BeforeLastSplit(p: string, c: char, q: string)
    requires c !in q
    ensures SubstringBeforeLast(p + [c] + q, c) == p
  {
    LastIndexOfSplit(p, c, q);
    assert (p + [c] + q)[..|p|] == p;
  }
}
