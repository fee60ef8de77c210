/** Without breaking words, the greedy wrap fails only where it must and never wastes a line. */
module FewestLines {
  import opened Basics
  import opened TextWrap

  /** A run of words on one line. */
  function Join(words: seq<string>): string {
    if words == [] then "" else Joined(Join(words[..|words| - 1]), words[|words| - 1])
  }

  function Flat(groups: seq<seq<string>>): seq<string> {
    if groups == [] then [] else Flat(groups[..|groups| - 1]) + groups[|groups| - 1]
  }

  function JoinAll(groups: seq<seq<string>>): (lines: seq<string>)
    ensures |lines| == |groups|
  {
    seq(|groups|, i requires 0 <= i < |groups| => Join(groups[i]))
  }

  /** No line of words is narrower than a part of it. */
  ghost predicate Monotone(r: Ruler) {
    forall ws, i, j :: AllWords(r, ws) && 0 <= i < j <= |ws| ==> r.length(Join(ws[i..j])) <= r.length(Join(ws))
  }

  predicate AllFit(r: Ruler, words: seq<string>) {
    forall i :: 0 <= i < |words| ==> r.Fits(words[i])
  }

  /** A whole-word wrap: the words in order, in non-empty groups that each fit a line. */
  predicate Lays(r: Ruler, words: seq<string>, groups: seq<seq<string>>) {
    Flat(groups) == words && forall i :: 0 <= i < |groups| ==> groups[i] != [] && r.Fits(Join(groups[i]))
  }

  /** Lines of words closed so far, and the words on the line being filled. */
  datatype Filling = Filling(done: seq<seq<string>>, open: seq<string>)

  /** The greedy grouping: a word joins the open line if it still fits there. */
  function Greedy(r: Ruler, words: seq<string>): (f: Filling)
    ensures f.open == [] <==> words == []
  {
    if words == [] then Filling([], [])
    else
      var f, w := Greedy(r, words[..|words| - 1]), words[|words| - 1];
      if f.open == [] then Filling(f.done, [w])
      else if r.Fits(Join(f.open + [w])) then Filling(f.done, f.open + [w])
      else Filling(f.done + [f.open], [w])
  }

  function Groups(f: Filling): (groups: seq<seq<string>>) {
    if f.open == [] then f.done else f.done + [f.open]
  }

  lemma FlatLast(groups: seq<seq<string>>, g: seq<string>)
    ensures Flat(groups + [g]) == Flat(groups) + g
  {
    assert (groups + [g])[..|groups|] == groups;
  }

  lemma JoinLast(g: seq<string>, word: string)
    ensures Join(g + [word]) == Joined(Join(g), word)
  {
    assert (g + [word])[..|g|] == g;
  }

  lemma JoinOne(w: string)
    ensures Join([w]) == w
  {
    assert [w][..0] == [];
  }

  lemma Reassociate(a: seq<string>, b: seq<string>, w: string)
    ensures a + (b + [w]) == a + b + [w]
  {
  }

  /** The greedy lines hold the words, in order, on no empty line. */
  lemma {:induction false} GreedyKeepsWords(r: Ruler, words: seq<string>)
    ensures var f := Greedy(r, words);
            Flat(f.done) + f.open == words && forall i :: 0 <= i < |f.done| ==> f.done[i] != []
  {
    hide Join, Flat;
    if words == [] {
      FlatNone();
    } else {
      var n := |words| - 1;
      GreedyKeepsWords(r, words[..n]);
      var f := Greedy(r, words[..n]);
      assert words == words[..n] + [words[n]];
      FlatLast(f.done, f.open);
      Reassociate(Flat(f.done), f.open, words[n]);
    }
  }

  lemma FlatNone()
    ensures Flat([]) == []
  {
  }

  lemma {:induction false} GreedyFits(r: Ruler, words: seq<string>)
    requires AllFit(r, words)
    ensures var f := Greedy(r, words);
            (forall i :: 0 <= i < |f.done| ==> r.Fits(Join(f.done[i]))) && (words != [] ==> r.Fits(Join(f.open)))
  {
    hide Join;
    if words != [] {
      GreedyFits(r, words[..|words| - 1]);
      JoinOne(words[|words| - 1]);
    }
  }

  lemma GreedyLays(r: Ruler, words: seq<string>)
    requires AllFit(r, words)
    ensures Lays(r, words, Groups(Greedy(r, words)))
  {
    hide Join, Flat;
    GreedyKeepsWords(r, words);
    GreedyFits(r, words);
    FlatLast(Greedy(r, words).done, Greedy(r, words).open);
  }

  lemma {:induction false} JoinShows(r: Ruler, words: seq<string>)
    requires AllWords(r, words)
    ensures Join(words) == "" <==> words == []
  {
    if words != [] {
      assert Word(r, words[|words| - 1]);
    }
  }

  lemma {:induction false} GreedyWords(r: Ruler, words: seq<string>)
    requires AllWords(r, words)
    ensures AllWords(r, Greedy(r, words).open)
  {
    hide Join, Word;
    if words != [] {
      GreedyWords(r, words[..|words| - 1]);
    }
  }

  /** Where every word fits, the wrap is the greedy grouping, line for line. */
  lemma {:induction false} WrapIsGreedy(r: Ruler, lines: seq<string>, words: seq<string>)
    requires AllWords(r, words) && AllFit(r, words)
    ensures var f := Greedy(r, words);
            PutWords(r, lines, words, false) == Some(Open(lines + JoinAll(f.done), Join(f.open)))
  {
    hide Join, Word, Joined;
    if words == [] {
      JoinNone();
      assert lines + JoinAll([]) == lines;
    } else {
      var n := |words| - 1;
      WrapIsGreedy(r, lines, words[..n]);
      var f, w := Greedy(r, words[..n]), words[n];
      if f.open == [] {
        JoinNone();
        JoinOne(w);
        JoinedEmpty(w);
      } else {
        PutOnGreedy(r, lines, f, w);
        GreedyWords(r, words[..n]);
        JoinShows(r, f.open);
      }
    }
  }

  lemma JoinNone()
    ensures Join([]) == ""
  {
  }

  lemma PutOnGreedy(r: Ruler, lines: seq<string>, f: Filling, w: string)
    requires r.Fits(w) && f.open != []
    ensures PutWord(r, Open(lines + JoinAll(f.done), Join(f.open)), w, false)
            == Some(if r.Fits(Join(f.open + [w])) then Open(lines + JoinAll(f.done), Join(f.open + [w]))
                    else Open(lines + JoinAll(f.done + [f.open]), Join([w])))
  {
    hide Join, Joined;
    JoinLast(f.open, w);
    JoinOne(w);
    assert JoinAll(f.done + [f.open]) == JoinAll(f.done) + [Join(f.open)];
    assert lines + JoinAll(f.done) + [Join(f.open)] == lines + (JoinAll(f.done) + [Join(f.open)]);
  }

  lemma JoinedEmpty(w: string)
    ensures Joined("", w) == w
  {
  }

  /** Where some word does not fit, there is no wrap. */
  lemma {:induction false} TooWideFails(r: Ruler, lines: seq<string>, words: seq<string>)
    requires AllWords(r, words) && Monotone(r) && !AllFit(r, words)
    ensures PutWords(r, lines, words, false).None?
  {
    hide Join, Word, Joined, Greedy, Monotone;
    var n := |words| - 1;
    if AllFit(r, words[..n]) {
      WrapIsGreedy(r, lines, words[..n]);
      GreedyWords(r, words[..n]);
      var open, w := Greedy(r, words[..n]).open, words[n];
      assert Word(r, w);
      JoinOne(w);
      JoinLast(open, w);
      Narrower(r, open + [w], |open|, |open| + 1);
      assert (open + [w])[|open|..|open| + 1] == [w];
    } else {
      TooWideFails(r, lines, words[..n]);
    }
  }

  lemma Narrower(r: Ruler, ws: seq<string>, i: nat, j: nat)
    requires Monotone(r) && AllWords(r, ws) && i < j <= |ws|
    ensures r.Fits(Join(ws)) ==> r.Fits(Join(ws[i..j]))
  {
  }

  // --- the fewest lines -------------------------------------------------------

  /** The words on lines that fit, the last of them not empty. */
  predicate Filled(r: Ruler, words: seq<string>, before: seq<seq<string>>, last: seq<string>) {
    && Flat(before) + last == words && last != [] && r.Fits(Join(last))
    && forall i :: 0 <= i < |before| ==> before[i] != [] && r.Fits(Join(before[i]))
  }

  /** No wrap of the words has fewer lines than the greedy one; of those with as many, none
      has less on its last line. */
  lemma {:induction false} GreedyIsShortest(r: Ruler, words: seq<string>, before: seq<seq<string>>, last: seq<string>)
    requires Monotone(r) && AllWords(r, words) && Filled(r, words, before, last)
    ensures var f := Greedy(r, words);
            |f.done| <= |before| && (|f.done| == |before| ==> |f.open| <= |last|)
    decreases |words|
  {
    hide Monotone, Join, Word, Filled, Flat;
    LastWord(r, words, before, last);
    var n, k := |words| - 1, |last| - 1;
    var f := Greedy(r, words[..n]);
    if k > 0 {
      GreedyIsShortest(r, words[..n], before, last[..k]);
      if f.open != [] && |f.done| == |before| {
        OpenLineFits(r, words, before, last);
      }
    } else if before != [] {
      var m := |before| - 1;
      GreedyIsShortest(r, words[..n], before[..m], before[m]);
    } else {
      assert f == Filling([], []);
    }
  }

  /** A filled wrap without its last word. */
  lemma LastWord(r: Ruler, words: seq<string>, before: seq<seq<string>>, last: seq<string>)
    requires Monotone(r) && AllWords(r, words) && Filled(r, words, before, last)
    ensures words != [] && last != [] && words[|words| - 1] == last[|last| - 1] && AllWords(r, last)
    ensures |last| > 1 ==> Filled(r, words[..|words| - 1], before, last[..|last| - 1])
    ensures |last| == 1 && before != [] ==>
      Filled(r, words[..|words| - 1], before[..|before| - 1], before[|before| - 1])
    ensures |last| == 1 && before == [] ==> words[..|words| - 1] == []
  {
    hide Monotone, Join, Word, Flat;
    var n, k := |words| - 1, |last| - 1;
    forall i | 0 <= i < |last| ensures Word(r, last[i]) {
      assert last[i] == words[|words| - |last| + i];
    }
    assert words[..n] == Flat(before) + last[..k];
    if k > 0 {
      Narrower(r, last, 0, k);
      assert last[0..k] == last[..k];
    } else if before != [] {
      var m := |before| - 1;
      assert before == before[..m] + [before[m]];
      FlatLast(before[..m], before[m]);
      assert words[..n] == Flat(before);
    } else {
      FlatNone();
    }
  }

  /** A greedy line no longer than the other wrap's could take the next word as well. */
  lemma OpenLineFits(r: Ruler, words: seq<string>, before: seq<seq<string>>, last: seq<string>)
    requires Monotone(r) && AllWords(r, words) && Filled(r, words, before, last) && |last| > 1
    ensures var n := |words| - 1;
            n >= 0 && (|Greedy(r, words[..n]).open| < |last| ==> r.Fits(Join(Greedy(r, words[..n]).open + [words[n]])))
  {
    hide Monotone, Join, Word, Greedy, Flat;
    LastWord(r, words, before, last);
    var n := |words| - 1;
    var f := Greedy(r, words[..n]);
    GreedyKeepsWords(r, words[..n]);
    if |f.open| < |last| {
      var i := |last| - 1 - |f.open|;
      SameEnd(words, Flat(before), last, Flat(f.done), f.open + [words[n]]) by {
        assert words == words[..n] + [words[n]];
        Reassociate(Flat(f.done), f.open, words[n]);
      }
      Narrower(r, last, i, |last|);
      assert last[i..|last|] == last[i..];
    }
  }

  lemma SameEnd(words: seq<string>, a: seq<string>, last: seq<string>, b: seq<string>, tail: seq<string>)
    requires a + last == words == b + tail && |tail| <= |last|
    ensures tail == last[|last| - |tail|..]
  {
    forall i | 0 <= i < |tail| ensures tail[i] == last[|last| - |tail| + i] {
      assert tail[i] == words[|b| + i] && last[|last| - |tail| + i] == words[|a| + |last| - |tail| + i];
    }
  }

  // --- the whole text ---------------------------------------------------------

  /** A whole-word wrap of every paragraph. */
  predicate LaysOut(r: Ruler, ps: seq<string>, layout: seq<seq<seq<string>>>) {
    |layout| == |ps| && forall i :: 0 <= i < |ps| ==> Lays(r, Words(r, ps[i]), layout[i])
  }

  /** A paragraph without words still takes a line. */
  function LinesOf(groups: seq<seq<string>>): (lines: seq<string>)
    ensures |lines| == if groups == [] then 1 else |groups|
  {
    if groups == [] then [""] else JoinAll(groups)
  }

  function Rendered(layout: seq<seq<seq<string>>>): seq<string> {
    if layout == [] then [] else Rendered(layout[..|layout| - 1]) + LinesOf(layout[|layout| - 1])
  }

  function GreedyLayout(r: Ruler, ps: seq<string>): (layout: seq<seq<seq<string>>>)
    ensures |layout| == |ps|
  {
    seq(|ps|, i requires 0 <= i < |ps| => Groups(Greedy(r, Words(r, ps[i]))))
  }

  predicate EveryWordFits(r: Ruler, ps: seq<string>) {
    forall i :: 0 <= i < |ps| ==> AllFit(r, Words(r, ps[i]))
  }

  lemma {:induction false} ParagraphsAreGreedy(r: Ruler, ps: seq<string>)
    requires EveryWordFits(r, ps)
    ensures PutParagraphs(r, ps, false) == Some(Rendered(GreedyLayout(r, ps)))
  {
    hide AllFit, Words, PutWords, Greedy, JoinAll, Groups;
    if ps != [] {
      var n := |ps| - 1;
      ParagraphsAreGreedy(r, ps[..n]);
      var layout := GreedyLayout(r, ps);
      assert layout[..n] == GreedyLayout(r, ps[..n]);
      ParagraphIsGreedy(r, Rendered(layout[..n]), Words(r, ps[n]));
    }
  }

  lemma ParagraphIsGreedy(r: Ruler, lines: seq<string>, words: seq<string>)
    requires AllWords(r, words) && AllFit(r, words)
    ensures var o := PutWords(r, lines, words, false); o.Some? && Closed(o.value) == lines + LinesOf(Groups(Greedy(r, words)))
  {
    hide Join, PutWords, Greedy;
    WrapIsGreedy(r, lines, words);
    var f := Greedy(r, words);
    if words == [] {
      EmptyParagraph(r);
    } else {
      assert JoinAll(f.done + [f.open]) == JoinAll(f.done) + [Join(f.open)];
    }
  }

  lemma EmptyParagraph(r: Ruler)
    ensures Greedy(r, []) == Filling([], []) && Join([]) == ""
  {
  }

  lemma {:induction false} OneWordTooWide(r: Ruler, ps: seq<string>)
    requires Monotone(r) && !EveryWordFits(r, ps)
    ensures PutParagraphs(r, ps, false).None?
  {
    hide AllFit, Words, PutWords, Monotone;
    var n := |ps| - 1;
    if EveryWordFits(r, ps[..n]) {
      if PutParagraphs(r, ps[..n], false).Some? {
        TooWideFails(r, PutParagraphs(r, ps[..n], false).value, Words(r, ps[n]));
      }
    } else {
      OneWordTooWide(r, ps[..n]);
    }
  }

  /** Words are not broken for want of trying: the wrap fails exactly where some word is
      too wide for a line of its own. */
  lemma WholeWordsFailIff(r: Ruler, text: string)
    requires Monotone(r)
    ensures Wrapped(r, text, false).None? <==> !EveryWordFits(r, Paragraphs(text))
  {
    hide Monotone, EveryWordFits, Rendered;
    if EveryWordFits(r, Paragraphs(text)) {
      ParagraphsAreGreedy(r, Paragraphs(text));
    } else {
      OneWordTooWide(r, Paragraphs(text));
    }
  }

  lemma {:induction false} ShortestLayout(r: Ruler, ps: seq<string>, layout: seq<seq<seq<string>>>)
    requires Monotone(r) && LaysOut(r, ps, layout)
    ensures |Rendered(GreedyLayout(r, ps))| <= |Rendered(layout)|
  {
    hide Monotone, Lays, Words, Greedy, JoinAll, Groups;
    if ps != [] {
      var n := |ps| - 1;
      ShortestLayout(r, ps[..n], layout[..n]);
      assert GreedyLayout(r, ps)[..n] == GreedyLayout(r, ps[..n]);
      ShortestParagraph(r, Words(r, ps[n]), layout[n]);
    }
  }

  lemma ShortestParagraph(r: Ruler, words: seq<string>, groups: seq<seq<string>>)
    requires Monotone(r) && AllWords(r, words) && Lays(r, words, groups)
    ensures |LinesOf(Groups(Greedy(r, words)))| <= |LinesOf(groups)|
  {
    hide Monotone, Join, Flat, Greedy, Word;
    if words == [] {
      EmptyParagraph(r);
    } else if groups == [] {
      FlatNone();
    } else {
      var m := |groups| - 1;
      assert groups == groups[..m] + [groups[m]];
      FlatLast(groups[..m], groups[m]);
      GreedyIsShortest(r, words, groups[..m], groups[m]);
    }
  }

  /** Where the wrap succeeds it is itself a whole-word wrap, and none has fewer lines. */
  lemma FewestLinesOfAnyWrap(r: Ruler, text: string, layout: seq<seq<seq<string>>>)
    requires Monotone(r) && Wrapped(r, text, false).Some?
    ensures var lines := Wrapped(r, text, false).value; var own := GreedyLayout(r, Paragraphs(text));
            && LaysOut(r, Paragraphs(text), own) && lines == Rendered(own)
            && (LaysOut(r, Paragraphs(text), layout) ==> |lines| <= |Rendered(layout)|)
  {
    hide Monotone, Rendered, Lays, Words, Greedy, Groups, AllFit, Paragraphs, PutParagraphs;
    var ps := Paragraphs(text);
    WholeWordsFailIff(r, text);
    ParagraphsAreGreedy(r, ps);
    forall i | 0 <= i < |ps| ensures Lays(r, Words(r, ps[i]), GreedyLayout(r, ps)[i]) {
      GreedyLays(r, Words(r, ps[i]));
    }
    if LaysOut(r, ps, layout) {
      ShortestLayout(r, ps, layout);
    }
  }
}
