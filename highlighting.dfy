/**
 * highlightDetectedWords: marking every detected idiom in the original text with a colour
 * span and a bold span.  A word is marked at each exact (case-insensitive) occurrence; only
 * when it has none, every whitespace-separated token that starts with the word's root is
 * marked instead.
 */
module Highlighting {
  import opened Text
  import opened Lexicon

  datatype Style = Highlight | Bold

  /** A style applied to the characters `start .. end - 1`. */
  datatype Span = Span(start: nat, end: nat, style: Style)

  /** A text and the spans set on it, in the order they were set. */
  class SpannableString {
    const text: string
    var spans: seq<Span>

    constructor (text: string)
      ensures this.text == text && spans == []
    {
      this.text := text;
      spans := [];
    }

    /** `setSpan`, which throws unless the range lies within the text. */
    method SetSpan(start: nat, end: nat, style: Style)
      requires start <= end <= |text|
      modifies this
      ensures spans == old(spans) + [Span(start, end, style)]
    {
      spans := spans + [Span(start, end, style)];
    }
  }

  /** The two spans set for each marked range, in order. */
  function SpansOf(rs: seq<(nat, nat)>): (r: seq<Span>)
    ensures |r| == 2 * |rs|
    ensures forall k :: 0 <= k < |rs| ==>
              r[2 * k] == Span(rs[k].0, rs[k].1, Highlight) && r[2 * k + 1] == Span(rs[k].0, rs[k].1, Bold)
  {
    if rs == [] then []
    else
      var tail := SpansOf(rs[1..]);
      assert forall k :: 1 <= k < |rs| ==> rs[k] == rs[1..][k - 1];
      [Span(rs[0].0, rs[0].1, Highlight), Span(rs[0].0, rs[0].1, Bold)] + tail
  }

  lemma {:induction false} SpansOfAppend(a: seq<(nat, nat)>, b: seq<(nat, nat)>)
    ensures SpansOf(a + b) == SpansOf(a) + SpansOf(b)
  {
    if a != [] {
      assert (a + b)[1..] == a[1..] + b;
      SpansOfAppend(a[1..], b);
    } else {
      assert a + b == b;
    }
  }

  lemma AppendAssoc<T>(a: seq<T>, b: seq<T>, c: seq<T>)
    ensures (a + b) + c == a + (b + c)
  {
  }

  // ----- Exact matches -----

  /** The range of a match of `wl` at `index`. */
  function MatchAt(index: nat, wl: string): (nat, nat) {
    (index, index + |wl|)
  }

  /**
   * The exact-match loop from `from` on: each search resumes at the end of the previous
   * match.
   */
  function ExactRanges(tl: string, wl: string, from: nat): seq<(nat, nat)>
    requires wl != [] && from <= |tl|
    decreases |tl| - from
  {
    if from == |tl| then []
    else
      var idx := IndexOf(tl, wl, from);
      if idx == -1 then [] else [MatchAt(idx, wl)] + ExactRanges(tl, wl, idx + |wl|)
  }

  /** `m` is a match of `wl` found by a search starting at `from`. */
  predicate IsMatch(tl: string, wl: string, from: nat, m: (nat, nat)) {
    from <= m.0 && m.1 == m.0 + |wl| && OccursAt(tl, wl, m.0)
  }

  /** Every match is an occurrence of the word at or after `from`, as long as the word. */
  lemma {:induction false} ExactRangesOccur(tl: string, wl: string, from: nat)
    requires wl != [] && from <= |tl|
    decreases |tl| - from
    ensures forall k :: 0 <= k < |ExactRanges(tl, wl, from)| ==> IsMatch(tl, wl, from, ExactRanges(tl, wl, from)[k])
  {
    if from < |tl| {
      var idx := IndexOf(tl, wl, from);
      IndexOfFirst(tl, wl, from);
      ExactStep(tl, wl, from, idx);
      if idx != -1 {
        var r := ExactRanges(tl, wl, from);
        var rest := ExactRanges(tl, wl, idx + |wl|);
        ExactRangesOccur(tl, wl, idx + |wl|);
        forall k | 0 <= k < |r|
          ensures IsMatch(tl, wl, from, r[k])
        {
          if k > 0 {
            assert r[k] == rest[k - 1];
          }
        }
      }
    }
  }

  /** Each match starts at or after the end of the previous one: the matches do not overlap. */
  lemma {:induction false} ExactRangesOrdered(tl: string, wl: string, from: nat)
    requires wl != [] && from <= |tl|
    decreases |tl| - from
    ensures forall k :: 0 <= k < |ExactRanges(tl, wl, from)| - 1 ==>
              ExactRanges(tl, wl, from)[k].1 <= ExactRanges(tl, wl, from)[k + 1].0
  {
    if from < |tl| {
      var idx := IndexOf(tl, wl, from);
      ExactStep(tl, wl, from, idx);
      if idx != -1 {
        var r := ExactRanges(tl, wl, from);
        var rest := ExactRanges(tl, wl, idx + |wl|);
        ExactRangesOrdered(tl, wl, idx + |wl|);
        ExactRangesOccur(tl, wl, idx + |wl|);
        forall k | 0 <= k < |r| - 1
          ensures r[k].1 <= r[k + 1].0
        {
          assert r[k + 1] == rest[k];
          if k > 0 {
            assert r[k] == rest[k - 1];
          } else {
            assert IsMatch(tl, wl, idx + |wl|, rest[0]);
          }
        }
      }
    }
  }

  /** One step of the exact-match loop. */
  lemma ExactStep(tl: string, wl: string, from: nat, index: int)
    requires wl != [] && from < |tl| && index == IndexOf(tl, wl, from)
    ensures index == -1 ==> ExactRanges(tl, wl, from) == []
    ensures index != -1 ==> 0 <= index && from < index + |wl| <= |tl|
    ensures index != -1 ==> forall acc :: ExactLoop(tl, wl, from, acc) == ExactLoop(tl, wl, index + |wl|, acc + [MatchAt(index, wl)])
  {
  }

  /** The exact-match loop as it runs: `acc` holds the matches found before `from`. */
  function ExactLoop(tl: string, wl: string, from: nat, acc: seq<(nat, nat)>): seq<(nat, nat)>
    requires wl != [] && from <= |tl|
    decreases |tl| - from
  {
    if from == |tl| then acc
    else
      var idx := IndexOf(tl, wl, from);
      if idx == -1 then acc else ExactLoop(tl, wl, idx + |wl|, acc + [MatchAt(idx, wl)])
  }

  lemma {:induction false} ExactLoopRanges(tl: string, wl: string, from: nat, acc: seq<(nat, nat)>)
    requires wl != [] && from <= |tl|
    decreases |tl| - from
    ensures ExactLoop(tl, wl, from, acc) == acc + ExactRanges(tl, wl, from)
  {
    if from < |tl| {
      var idx := IndexOf(tl, wl, from);
      if idx != -1 {
        var rest := ExactRanges(tl, wl, idx + |wl|);
        assert ExactRanges(tl, wl, from) == [MatchAt(idx, wl)] + rest;
        assert ExactLoop(tl, wl, from, acc) == ExactLoop(tl, wl, idx + |wl|, acc + [MatchAt(idx, wl)]);
        ExactLoopRanges(tl, wl, idx + |wl|, acc + [MatchAt(idx, wl)]);
        AppendAssoc(acc, [MatchAt(idx, wl)], rest);
      } else {
        assert ExactRanges(tl, wl, from) == [];
        assert acc + [] == acc;
      }
    } else {
      assert acc + [] == acc;
    }
  }

  /** One step of the exact-match loop, as the loop runs it. */
  lemma ExactLoopStep(tl: string, wl: string, from: nat, index: int, acc: seq<(nat, nat)>)
    requires wl != [] && from < |tl| && index == IndexOf(tl, wl, from)
    ensures index == -1 ==> ExactLoop(tl, wl, from, acc) == acc
    ensures index != -1 ==> ExactLoop(tl, wl, from, acc) == ExactLoop(tl, wl, index + |wl|, acc + [MatchAt(index, wl)])
  {
  }

  /** Maximality: every occurrence from `from` on lies inside one of the matches. */
  lemma {:induction false} ExactRangesCover(tl: string, wl: string, from: nat, j: int) returns (k: nat)
    requires wl != [] && from <= |tl|
    requires from <= j && OccursAt(tl, wl, j)
    decreases |tl| - from
    ensures k < |ExactRanges(tl, wl, from)|
    ensures ExactRanges(tl, wl, from)[k].0 <= j < ExactRanges(tl, wl, from)[k].1
  {
    var idx := IndexOf(tl, wl, from);
    IndexOfAtMost(tl, wl, from, j);
    ExactStep(tl, wl, from, idx);
    var rest := ExactRanges(tl, wl, idx + |wl|);
    var m := MatchAt(idx, wl);
    assert ExactRanges(tl, wl, from) == [m] + rest;
    if j >= idx + |wl| {
      var k' := ExactRangesCover(tl, wl, idx + |wl|, j);
      k := k' + 1;
      assert ([m] + rest)[k] == rest[k'];
    } else {
      k := 0;
      assert ([m] + rest)[0] == m;
    }
  }

  /** The root search runs exactly when the word does not occur anywhere in the text. */
  lemma NoExactIffNoOccurrence(tl: string, wl: string)
    requires wl != []
    ensures ExactRanges(tl, wl, 0) == [] <==> forall j :: !OccursAt(tl, wl, j)
  {
    if ExactRanges(tl, wl, 0) == [] {
      forall j | OccursAt(tl, wl, j) ensures false {
        var k := ExactRangesCover(tl, wl, 0, j);
      }
    } else {
      ExactRangesOccur(tl, wl, 0);
      assert IsMatch(tl, wl, 0, ExactRanges(tl, wl, 0)[0]);
    }
  }

  // ----- Matches by root -----

  /** The root: the lowercased word without its last two characters when it is longer than four. */
  function Root(wl: string): (r: string)
    ensures r <= wl
    ensures |wl| > 4 ==> |r| == |wl| - 2
    ensures |wl| <= 4 ==> r == wl
  {
    if |wl| > 4 then wl[..|wl| - 2] else wl
  }

  /** The end of the run of letters starting at `e` (the `endWord` loop's result). */
  function LetterRunEnd(cs: CharServices, text: string, e: nat): (r: nat)
    requires e <= |text|
    decreases |text| - e
    ensures e <= r <= |text|
    ensures forall k :: e <= k < r ==> cs.isLetter(text[k])
    ensures r == |text| || !cs.isLetter(text[r])
  {
    if e < |text| && cs.isLetter(text[e]) then LetterRunEnd(cs, text, e + 1) else e
  }

  lemma PrefixOccurs(tl: string, root: string, c: string, pos: int)
    requires root <= c && OccursAt(tl, c, pos)
    ensures OccursAt(tl, root, pos)
  {
    assert tl[pos..pos + |root|] == tl[pos..pos + |c|][..|root|];
  }

  /** The mark one token contributes: the text's letters from where its cleaned form is found. */
  function TokenRange(cs: CharServices, text: string, root: string, token: string, cp: int): seq<(nat, nat)> {
    var c := KeepLetters(Lower(cs, token));
    if root <= c then
      var pos := IndexOf(Lower(cs, text), c, cp);
      if pos == -1 then [] else [(pos as nat, LetterRunEnd(cs, text, pos + |c|))]
    else []
  }

  /** `currentPosition` after a token: just past the token's lowercase form, searched from `cp`. */
  function NextPosition(cs: CharServices, text: string, token: string, cp: int): int {
    IndexOf(Lower(cs, text), Lower(cs, token), cp) + |token|
  }

  /**
   * The token loop of the root search over `tokens` with the search position `cp`: a token
   * whose letters (lowercased, punctuation removed) start with the root is searched for from
   * `cp` and marked up to the end of the run of letters there; then `cp` moves past the
   * token's own lowercase form.
   */
  function RootRanges(cs: CharServices, text: string, root: string, tokens: seq<string>, cp: int): seq<(nat, nat)>
    decreases |tokens|
  {
    if tokens == [] then []
    else TokenRange(cs, text, root, tokens[0], cp) + RootRanges(cs, text, root, tokens[1..], NextPosition(cs, text, tokens[0], cp))
  }

  lemma RootStep(cs: CharServices, text: string, root: string, tokens: seq<string>, i: nat, cp: int)
    requires i < |tokens|
    ensures RootRanges(cs, text, root, tokens[i..], cp)
            == TokenRange(cs, text, root, tokens[i], cp) + RootRanges(cs, text, root, tokens[i + 1..], NextPosition(cs, text, tokens[i], cp))
  {
    assert tokens[i..][1..] == tokens[i + 1..];
  }

  /**
   * A mark made for a token whose cleaned form is `c`: `c` is made of letters only, begins
   * with the root and occurs in the lowercase text where the mark starts; past `c` the mark
   * covers only letters, and it ends at the end of the text or before a non-letter.
   */
  predicate CleanedMark(cs: CharServices, text: string, root: string, c: string, m: (nat, nat)) {
    root <= c && (forall i :: 0 <= i < |c| ==> IsKeptLetter(c[i]))
    && OccursAt(Lower(cs, text), c, m.0) && m.0 + |c| <= m.1 <= |text|
    && (forall k :: m.0 + |c| <= k < m.1 ==> cs.isLetter(text[k]))
    && (m.1 == |text| || !cs.isLetter(text[m.1]))
  }

  /** A mark the root search can make: one made for some cleaned token. */
  ghost predicate RootMark(cs: CharServices, text: string, root: string, m: (nat, nat)) {
    exists c :: CleanedMark(cs, text, root, c, m)
  }

  /** A root mark starts where the root occurs in the lowercase text. */
  lemma RootMarkStartsWithRoot(cs: CharServices, text: string, root: string, m: (nat, nat))
    requires RootMark(cs, text, root, m)
    ensures OccursAt(Lower(cs, text), root, m.0) && m.0 + |root| <= m.1
  {
    var c :| CleanedMark(cs, text, root, c, m);
    PrefixOccurs(Lower(cs, text), root, c, m.0);
  }

  /** Every range of `ms` is a root mark. */
  ghost predicate AllRootMarks(cs: CharServices, text: string, root: string, ms: seq<(nat, nat)>) {
    forall k :: 0 <= k < |ms| ==> RootMark(cs, text, root, ms[k])
  }

  lemma AllRootMarksAppend(cs: CharServices, text: string, root: string, a: seq<(nat, nat)>, b: seq<(nat, nat)>)
    requires AllRootMarks(cs, text, root, a) && AllRootMarks(cs, text, root, b)
    ensures AllRootMarks(cs, text, root, a + b)
  {
    forall k | 0 <= k < |a + b| ensures RootMark(cs, text, root, (a + b)[k]) {
      if k >= |a| {
        assert (a + b)[k] == b[k - |a|];
      }
    }
  }

  /** A token's mark is made for the token's own cleaned form. */
  lemma TokenRangeSound(cs: CharServices, text: string, root: string, token: string, cp: int)
    ensures forall m :: m in TokenRange(cs, text, root, token, cp) ==>
              CleanedMark(cs, text, root, KeepLetters(Lower(cs, token)), m)
    ensures AllRootMarks(cs, text, root, TokenRange(cs, text, root, token, cp))
  {
    var c := KeepLetters(Lower(cs, token));
    var tl := Lower(cs, text);
    IndexOfFirst(tl, c, cp);
    if root <= c && IndexOf(tl, c, cp) != -1 {
      var m := (IndexOf(tl, c, cp) as nat, LetterRunEnd(cs, text, IndexOf(tl, c, cp) + |c|));
      assert TokenRange(cs, text, root, token, cp) == [m];
      assert CleanedMark(cs, text, root, c, m);
    }
  }

  /**
   * Every mark of the root search is made for some cleaned token: it starts where that
   * token's letters (which begin with the root) occur, goes on past them only over letters
   * and ends at the end of the text or before a character that is not a letter.
   */
  lemma {:induction false} RootRangesSound(cs: CharServices, text: string, root: string, tokens: seq<string>, cp: int)
    decreases |tokens|
    ensures forall m :: m in RootRanges(cs, text, root, tokens, cp) ==>
              exists t :: t in tokens && CleanedMark(cs, text, root, KeepLetters(Lower(cs, t)), m)
    ensures AllRootMarks(cs, text, root, RootRanges(cs, text, root, tokens, cp))
  {
    if tokens != [] {
      var next := NextPosition(cs, text, tokens[0], cp);
      var here := TokenRange(cs, text, root, tokens[0], cp);
      var rest := RootRanges(cs, text, root, tokens[1..], next);
      TokenRangeSound(cs, text, root, tokens[0], cp);
      RootRangesSound(cs, text, root, tokens[1..], next);
      forall m | m in here + rest
        ensures exists t :: t in tokens && CleanedMark(cs, text, root, KeepLetters(Lower(cs, t)), m)
      {
        if m in here {
          assert tokens[0] in tokens;
        } else {
          var t :| t in tokens[1..] && CleanedMark(cs, text, root, KeepLetters(Lower(cs, t)), m);
          assert t in tokens;
        }
      }
      AllRootMarksAppend(cs, text, root, here, rest);
    }
  }

  // ----- The whole text -----

  /** The ranges marked for one detected word. */
  function WordRanges(cs: CharServices, text: string, palabra: string): seq<(nat, nat)>
    requires palabra != []
  {
    var tl := Lower(cs, text);
    var wl := Lower(cs, palabra);
    var exact := ExactRanges(tl, wl, 0);
    if exact != [] then exact
    else RootRanges(cs, text, Root(wl), SplitOnSpaces(text), 0)
  }

  predicate AllNamed(modismos: seq<Modismo>) {
    forall k :: 0 <= k < |modismos| ==> modismos[k].palabra != []
  }

  function AllRanges(cs: CharServices, text: string, modismos: seq<Modismo>): seq<(nat, nat)>
    requires AllNamed(modismos)
  {
    if modismos == [] then []
    else WordRanges(cs, text, modismos[0].palabra) + AllRanges(cs, text, modismos[1..])
  }

  /** Every range marked for a word is non-empty and lies within the text. */
  lemma WordRangesWithin(cs: CharServices, text: string, palabra: string)
    requires palabra != []
    ensures forall k :: 0 <= k < |WordRanges(cs, text, palabra)| ==>
              WordRanges(cs, text, palabra)[k].0 < WordRanges(cs, text, palabra)[k].1 <= |text|
  {
    var tl := Lower(cs, text);
    var wl := Lower(cs, palabra);
    if ExactRanges(tl, wl, 0) != [] {
      ExactRangesOccur(tl, wl, 0);
    } else {
      RootRangesSound(cs, text, Root(wl), SplitOnSpaces(text), 0);
      assert Root(wl) != [];
    }
  }

  lemma {:induction false} AllRangesWithin(cs: CharServices, text: string, modismos: seq<Modismo>)
    requires AllNamed(modismos)
    ensures forall k :: 0 <= k < |AllRanges(cs, text, modismos)| ==>
              AllRanges(cs, text, modismos)[k].0 < AllRanges(cs, text, modismos)[k].1 <= |text|
  {
    if modismos != [] {
      var here := WordRanges(cs, text, modismos[0].palabra);
      var rest := AllRanges(cs, text, modismos[1..]);
      WordRangesWithin(cs, text, modismos[0].palabra);
      AllRangesWithin(cs, text, modismos[1..]);
      assert forall k :: |here| <= k < |here + rest| ==> (here + rest)[k] == rest[k - |here|];
    }
  }

  /**
   * The ranges highlightDetectedWords marks: none for an empty idiom list or a blank text,
   * otherwise those of each idiom in turn.  Every range is non-empty and within the text, so
   * no `setSpan` call can throw.
   */
  function HighlightRanges(cs: CharServices, text: string, modismos: seq<Modismo>): (r: seq<(nat, nat)>)
    requires AllNamed(modismos)
    ensures modismos == [] || IsBlank(cs, text) ==> r == []
    ensures forall k :: 0 <= k < |r| ==> r[k].0 < r[k].1 <= |text|
  {
    if modismos == [] || IsBlank(cs, text) then []
    else
      AllRangesWithin(cs, text, modismos);
      AllRanges(cs, text, modismos)
  }

  /** Sets the colour span and the bold span of one range. */
  method Mark(sp: SpannableString, s: nat, e: nat)
    requires s <= e <= |sp.text|
    modifies sp
    ensures sp.spans == old(sp.spans) + SpansOf([(s, e)])
  {
    sp.SetSpan(s, e, Highlight);
    sp.SetSpan(s, e, Bold);
  }

  /** One round of the exact-match loop: the next match from `from` is marked, if there is one. */
  method MarkNextExact(sp: SpannableString, tl: string, wl: string, from: nat,
                       ghost base: seq<Span>, ghost acc: seq<(nat, nat)>, ghost all: seq<(nat, nat)>)
    returns (index: int, nextFrom: nat, ghost next: seq<(nat, nat)>)
    requires wl != [] && from < |tl| == |sp.text|
    requires sp.spans == base + SpansOf(acc)
    requires ExactLoop(tl, wl, from, acc) == all
    modifies sp
    ensures index == -1 ==> sp.spans == old(sp.spans)
    ensures index == -1 ==> acc == all
    ensures index != -1 ==> 0 <= index && from < index + |wl| <= |tl|
    ensures index != -1 ==> nextFrom == index + |wl| && next == acc + [MatchAt(index, wl)] && next != []
    ensures index != -1 ==> nextFrom <= |tl| && ExactLoop(tl, wl, nextFrom, next) == all
    ensures index != -1 ==> sp.spans == base + SpansOf(next)
  {
    index := IndexOf(tl, wl, from);
    ExactLoopStep(tl, wl, from, index, acc);
    next, nextFrom := acc, from;
    if index != -1 {
      var m := MatchAt(index, wl);
      next, nextFrom := acc + [m], m.1;
      Mark(sp, m.0, m.1);
      SpansOfAppend(acc, [m]);
      AppendAssoc(base, SpansOf(acc), SpansOf([m]));
      assert sp.spans == (base + SpansOf(acc)) + SpansOf([m]);
    }
  }

  /** The exact-match loop; `found` is false when it marked nothing (`startIndex == 0`). */
  method MarkExact(sp: SpannableString, tl: string, wl: string) returns (found: bool)
    requires wl != [] && |tl| == |sp.text|
    modifies sp
    ensures sp.spans == old(sp.spans) + SpansOf(ExactRanges(tl, wl, 0))
    ensures found <==> ExactRanges(tl, wl, 0) != []
  {
    var startIndex: nat := 0;
    ghost var done: seq<(nat, nat)> := [];
    ghost var all := ExactLoop(tl, wl, 0, []);
    while startIndex < |tl|
      invariant startIndex <= |tl|
      invariant ExactLoop(tl, wl, startIndex, done) == all
      invariant sp.spans == old(sp.spans) + SpansOf(done)
      invariant done == [] <==> startIndex == 0
      decreases |tl| - startIndex
    {
      var index, nextFrom;
      index, nextFrom, done := MarkNextExact(sp, tl, wl, startIndex, old(sp.spans), done, all);
      if index == -1 {
        break;
      }
      startIndex := nextFrom;
    }
    ExactLoopRanges(tl, wl, 0, []);
    assert [] + ExactRanges(tl, wl, 0) == ExactRanges(tl, wl, 0);
    found := startIndex != 0;
  }

  /** One round of the token loop, with the inner loop that extends the mark over the letters that follow. */
  method MarkToken(sp: SpannableString, cs: CharServices, tl: string, root: string, palabraTexto: string, currentPosition: int)
    requires tl == Lower(cs, sp.text)
    modifies sp
    ensures sp.spans == old(sp.spans) + SpansOf(TokenRange(cs, sp.text, root, palabraTexto, currentPosition))
  {
    var text := sp.text;
    var palabraTextoLower := KeepLetters(Lower(cs, palabraTexto));
    ghost var mark := TokenRange(cs, text, root, palabraTexto, currentPosition);
    if root <= palabraTextoLower {
      var posicionEnTexto := IndexOf(tl, palabraTextoLower, currentPosition);
      if posicionEnTexto == -1 {
        assert mark == [];
      } else {
        var endWord := posicionEnTexto + |palabraTextoLower|;
        while endWord < |text| && cs.isLetter(text[endWord])
          invariant posicionEnTexto + |palabraTextoLower| <= endWord <= |text|
          invariant LetterRunEnd(cs, text, endWord) == LetterRunEnd(cs, text, posicionEnTexto + |palabraTextoLower|)
          decreases |text| - endWord
        {
          endWord := endWord + 1;
        }
        assert LetterRunEnd(cs, text, endWord) == endWord;
        assert mark == [(posicionEnTexto as nat, endWord)];
        Mark(sp, posicionEnTexto, endWord);
      }
    } else {
      assert mark == [];
    }
  }

  /** The root search's token loop. */
  method MarkRoots(sp: SpannableString, cs: CharServices, text: string, root: string)
    requires sp.text == text
    modifies sp
    ensures sp.spans == old(sp.spans) + SpansOf(RootRanges(cs, text, root, SplitOnSpaces(text), 0))
  {
    var tl := Lower(cs, text);
    var tokens := SplitOnSpaces(text);
    var currentPosition := 0;
    ghost var done: seq<(nat, nat)> := [];
    ghost var all := RootRanges(cs, text, root, tokens, 0);
    for i := 0 to |tokens|
      invariant done + RootRanges(cs, text, root, tokens[i..], currentPosition) == all
      invariant sp.spans == old(sp.spans) + SpansOf(done)
    {
      ghost var here := TokenRange(cs, text, root, tokens[i], currentPosition);
      ghost var rest := RootRanges(cs, text, root, tokens[i + 1..], NextPosition(cs, text, tokens[i], currentPosition));
      RootStep(cs, text, root, tokens, i, currentPosition);
      AppendAssoc(done, here, rest);
      ghost var before := sp.spans;
      MarkToken(sp, cs, tl, root, tokens[i], currentPosition);
      SpansOfAppend(done, here);
      assert sp.spans == old(sp.spans) + SpansOf(done + here) by {
        assert sp.spans == before + SpansOf(here);
        AppendAssoc(old(sp.spans), SpansOf(done), SpansOf(here));
      }
      done := done + here;
      currentPosition := NextPosition(cs, text, tokens[i], currentPosition);
    }
    assert tokens[|tokens|..] == [];
    assert RootRanges(cs, text, root, tokens[|tokens|..], currentPosition) == [];
    assert done == all;
  }

  /** The marks for one idiom: its exact matches, or the root search when there are none. */
  method MarkWord(sp: SpannableString, cs: CharServices, palabra: string)
    requires palabra != []
    modifies sp
    ensures sp.spans == old(sp.spans) + SpansOf(WordRanges(cs, sp.text, palabra))
  {
    var text := sp.text;
    var textLower := Lower(cs, text);
    var palabraLower := Lower(cs, palabra);
    ghost var e := ExactRanges(textLower, palabraLower, 0);
    ghost var r := RootRanges(cs, text, Root(palabraLower), SplitOnSpaces(text), 0);
    assert WordRanges(cs, text, palabra) == if e != [] then e else r;
    ghost var before := sp.spans;
    var found := MarkExact(sp, textLower, palabraLower);
    if !found {
      assert e == [] && sp.spans == before;
      MarkRoots(sp, cs, text, Root(palabraLower));
    }
  }

  /**
   * highlightDetectedWords.  The spans set on the fresh result are those of
   * `HighlightRanges`; the idioms' words are non-empty, as the analysis never lists an empty one.
   */
  method HighlightDetectedWords(cs: CharServices, text: string, modismos: seq<Modismo>) returns (sp: SpannableString)
    requires AllNamed(modismos)
    ensures fresh(sp) && sp.text == text
    ensures sp.spans == SpansOf(HighlightRanges(cs, text, modismos))
  {
    sp := new SpannableString(text);
    if modismos == [] || IsBlank(cs, text) {
      assert HighlightRanges(cs, text, modismos) == [];
      assert SpansOf([]) == [];
      return;
    }
    ghost var done: seq<(nat, nat)> := [];
    ghost var all := AllRanges(cs, text, modismos);
    assert SpansOf([]) == [];
    for m := 0 to |modismos|
      invariant done + AllRanges(cs, text, modismos[m..]) == all
      invariant sp.spans == SpansOf(done) && sp.text == text
    {
      ghost var here := WordRanges(cs, text, modismos[m].palabra);
      ghost var rest := AllRanges(cs, text, modismos[m + 1..]);
      assert modismos[m..][1..] == modismos[m + 1..];
      assert AllRanges(cs, text, modismos[m..]) == here + rest;
      AppendAssoc(done, here, rest);
      ghost var before := sp.spans;
      MarkWord(sp, cs, modismos[m].palabra);
      SpansOfAppend(done, here);
      assert sp.spans == SpansOf(done + here) by {
        assert sp.spans == before + SpansOf(here);
      }
      done := done + here;
    }
    assert modismos[|modismos|..] == [];
    assert AllRanges(cs, text, modismos[|modismos|..]) == [];
    assert done == all;
    assert HighlightRanges(cs, text, modismos) == all;
  }
}
