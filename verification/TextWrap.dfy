/** Greedy wrapping of a text into lines of a given width. */
module TextWrap {
  import opened Basics

  /** How wide a string comes out in the font at hand, how wide a line may be, and which
      characters count as white space. */
  datatype Ruler = Ruler(length: string -> real, width: int, space: char -> bool) {
    predicate Fits(s: string) {
      length(s) <= width as real
    }

    /** A space separates words and a line feed paragraphs. */
    predicate Valid() {
      space(' ') && space('\n')
    }
  }

  // --- splitting --------------------------------------------------------------

  /** `text.split("\n")` */
  function Paragraphs(text: string): (r: seq<string>)
    ensures |r| >= 1
  {
    if text == "" then [""]
    else
      var n := |text| - 1;
      var ps := Paragraphs(text[..n]);
      if text[n] == '\n' then ps + [""] else ps[..|ps| - 1] + [ps[|ps| - 1] + [text[n]]]
  }

  /** `paragraph.split()`: the runs of characters between white space. */
  function Words(r: Ruler, text: string): (ws: seq<string>)
    ensures text != "" && !r.space(text[|text| - 1]) ==> ws != []
    ensures AllWords(r, ws)
  {
    if text == "" then []
    else
      var n := |text| - 1;
      var ws := Words(r, text[..n]);
      if r.space(text[n]) then ws
      else if n == 0 || r.space(text[n - 1]) then ws + [[text[n]]]
      else ws[..|ws| - 1] + [ws[|ws| - 1] + [text[n]]]
  }

  predicate AllWords(r: Ruler, ws: seq<string>) {
    forall i :: 0 <= i < |ws| ==> Word(r, ws[i])
  }

  predicate Word(r: Ruler, w: string) {
    w != "" && forall i :: 0 <= i < |w| ==> !r.space(w[i])
  }

  /** `s.strip()` */
  function Strip(r: Ruler, s: string): string {
    if s != "" && r.space(s[0]) then Strip(r, s[1..])
    else if s != "" && r.space(s[|s| - 1]) then Strip(r, s[..|s| - 1])
    else s
  }

  /** One character more makes no new word, starts one, or joins the last. */
  lemma WordsGrow(r: Ruler, t: string, c: char)
    requires t != ""
    ensures var ws := Words(r, t);
            && (r.space(c) ==> Words(r, t + [c]) == ws)
            && (!r.space(c) && r.space(t[|t| - 1]) ==> Words(r, t + [c]) == ws + [[c]])
            && (!r.space(c) && !r.space(t[|t| - 1]) ==>
                  ws != [] && Words(r, t + [c]) == ws[..|ws| - 1] + [ws[|ws| - 1] + [c]])
  {
    assert (t + [c])[..|t|] == t;
  }

  lemma LastWordGrows(front: seq<string>, ws: seq<string>, c: char)
    requires ws != []
    ensures var all := front + ws;
            all[..|all| - 1] + [all[|all| - 1] + [c]] == front + (ws[..|ws| - 1] + [ws[|ws| - 1] + [c]])
  {
  }

  /** White space separates words, wherever it is and however much of it, and nothing else does. */
  lemma {:induction false} WordsAreSplitAtSpace(r: Ruler, a: string, c: char, b: string)
    requires r.space(c)
    ensures Words(r, a + [c] + b) == Words(r, a) + Words(r, b)
  {
    if b == "" {
      assert a + [c] + b == a + [c];
      assert (a + [c])[..|a|] == a;
    } else {
      var m := |b| - 1;
      WordsAreSplitAtSpace(r, a, c, b[..m]);
      WordsSplitGrows(r, a, c, b[..m], b[m]);
      assert b == b[..m] + [b[m]] && a + [c] + b == a + [c] + b[..m] + [b[m]];
    }
  }

  lemma WordsSplitGrows(r: Ruler, a: string, c: char, b: string, d: char)
    requires r.space(c) && Words(r, a + [c] + b) == Words(r, a) + Words(r, b)
    ensures Words(r, a + [c] + b + [d]) == Words(r, a) + Words(r, b + [d])
  {
    WordsGrow(r, a + [c] + b, d);
    if b == "" {
      assert a + [c] + b == a + [c];
      FirstWord(r, d);
      assert b + [d] == [d];
    } else {
      hide Words;
      assert (a + [c] + b)[|a + [c] + b| - 1] == b[|b| - 1];
      WordsGrow(r, b, d);
      if Words(r, b) != [] {
        LastWordGrows(Words(r, a), Words(r, b), d);
      }
      assert Words(r, a) + Words(r, b) + [[d]] == Words(r, a) + (Words(r, b) + [[d]]);
    }
  }

  lemma FirstWord(r: Ruler, d: char)
    ensures Words(r, "") == [] && Words(r, [d]) == if r.space(d) then [] else [[d]]
  {
    assert [d][..0] == "";
  }

  lemma {:induction false} OneWordStaysWhole(r: Ruler, w: string)
    requires Word(r, w)
    ensures Words(r, w) == [w]
  {
    var n := |w| - 1;
    assert w == w[..n] + [w[n]];
    if n == 0 {
      assert Words(r, w[..n]) == [] && w == [w[n]];
    } else {
      OneWordStaysWhole(r, w[..n]);
    }
  }

  /** The paragraphs, a line feed between each two. */
  function Unsplit(ps: seq<string>): string
    requires ps != []
  {
    var n := |ps| - 1;
    if n == 0 then ps[0] else Unsplit(ps[..n]) + "\n" + ps[n]
  }

  lemma UnsplitLast(front: seq<string>, last: string)
    ensures Unsplit(front + [last]) == if front == [] then last else Unsplit(front) + "\n" + last
  {
    assert (front + [last])[..|front|] == front;
  }

  lemma ParagraphsGrow(text: string, c: char)
    ensures var ps := Paragraphs(text);
            Paragraphs(text + [c])
            == if c == '\n' then ps + [""] else ps[..|ps| - 1] + [ps[|ps| - 1] + [c]]
  {
    assert (text + [c])[..|text|] == text;
  }

  predicate NoLineFeeds(ps: seq<string>) {
    forall i :: 0 <= i < |ps| ==> '\n' !in ps[i]
  }

  /** Paragraphs hold no line feed, and with one between each two they are the text again. */
  lemma {:induction false} ParagraphsAreTheText(text: string)
    ensures Unsplit(Paragraphs(text)) == text && NoLineFeeds(Paragraphs(text))
  {
    hide Unsplit, NoLineFeeds;
    if text == "" {
      UnsplitLast([], "");
      assert [] + [""] == [""];
      NoneSoFar();
    } else {
      hide Paragraphs;
      var n := |text| - 1;
      ParagraphsAreTheText(text[..n]);
      var ps := Paragraphs(text[..n]);
      assert text == text[..n] + [text[n]];
      ParagraphsGrow(text[..n], text[n]);
      NoLineFeedsGrow(ps, text[n]);
      if text[n] == '\n' {
        UnsplitLast(ps, "");
        assert text[..n] + "\n" + "" == text;
      } else {
        UnsplitGrows(ps[..|ps| - 1], ps[|ps| - 1], text[n]);
        FrontAndLast(ps);
      }
    }
  }

  lemma NoneSoFar()
    ensures NoLineFeeds([""])
  {
  }

  lemma NoLineFeedsGrow(ps: seq<string>, c: char)
    requires ps != [] && NoLineFeeds(ps)
    ensures NoLineFeeds(ps + [""])
    ensures c != '\n' ==> NoLineFeeds(ps[..|ps| - 1] + [ps[|ps| - 1] + [c]])
  {
  }

  lemma UnsplitGrows(front: seq<string>, last: string, c: char)
    ensures Unsplit(front + [last + [c]]) == Unsplit(front + [last]) + [c]
  {
    hide Unsplit;
    UnsplitLast(front, last);
    UnsplitLast(front, last + [c]);
    if front != [] {
      Associates(Unsplit(front) + "\n", last, [c]);
    }
  }

  // --- the wrap as a function -------------------------------------------------

  /** The lines closed so far and the one being filled. */
  datatype Open = Open(lines: seq<string>, current: string)

  function Closed(o: Open): (r: seq<string>)
    ensures r != []
  {
    o.lines + [o.current]
  }

  function Joined(current: string, word: string): string {
    if current == "" then word else current + " " + word
  }

  /** A token wider than the line, cut at the pixel boundary. */
  function Spill(r: Ruler, o: Open, word: string): (p: Open)
    ensures word != "" ==> p.current != "" && p.current[|p.current| - 1] == word[|word| - 1]
  {
    if word == "" then o
    else
      var n := |word| - 1;
      var p := Spill(r, o, word[..n]);
      if p.current != "" && !r.Fits(p.current + [word[n]]) then Open(p.lines + [p.current], [word[n]])
      else Open(p.lines, p.current + [word[n]])
  }

  function PutWord(r: Ruler, o: Open, word: string, breakWords: bool): Option<Open> {
    if r.Fits(Joined(o.current, word)) then Some(Open(o.lines, Joined(o.current, word)))
    else if r.Fits(word) then Some(Open(o.lines + [o.current], word))
    else if !breakWords then None
    else if o.current != "" then Some(Spill(r, Open(o.lines + [o.current], ""), word))
    else Some(Spill(r, o, word))
  }

  function PutWords(r: Ruler, lines: seq<string>, words: seq<string>, breakWords: bool): Option<Open> {
    if words == [] then Some(Open(lines, ""))
    else
      var n := |words| - 1;
      match PutWords(r, lines, words[..n], breakWords)
      case None => None
      case Some(o) => PutWord(r, o, words[n], breakWords)
  }

  function PutParagraphs(r: Ruler, ps: seq<string>, breakWords: bool): Option<seq<string>> {
    if ps == [] then Some([])
    else
      var n := |ps| - 1;
      match PutParagraphs(r, ps[..n], breakWords)
      case None => None
      case Some(lines) =>
        match PutWords(r, lines, Words(r, ps[n]), breakWords)
        case None => None
        case Some(o) => Some(Closed(o))
  }

  /** `_wrap` */
  function Wrapped(r: Ruler, text: string, breakWords: bool): Option<seq<string>> {
    PutParagraphs(r, Paragraphs(text), breakWords)
  }

  // --- the wrap, line by line -------------------------------------------------

  /** Neither end is white space, so stripping does nothing. */
  predicate Tight(r: Ruler, s: string) {
    s == "" || (!r.space(s[0]) && !r.space(s[|s| - 1]))
  }

  lemma StripJoins(r: Ruler, current: string, word: string)
    requires r.Valid() && Tight(r, current) && Word(r, word)
    ensures Strip(r, current + " " + word) == Joined(current, word)
  {
    var s := current + " " + word;
    if current == "" {
      assert s[1..] == word;
    }
  }

  lemma {:induction false} SpillTight(r: Ruler, o: Open, word: string)
    requires Tight(r, o.current) && forall i :: 0 <= i < |word| ==> !r.space(word[i])
    ensures Tight(r, Spill(r, o, word).current)
  {
    if word != "" {
      SpillTight(r, o, word[..|word| - 1]);
    }
  }

  lemma {:induction false} PutWordsTight(r: Ruler, lines: seq<string>, words: seq<string>, breakWords: bool)
    requires AllWords(r, words)
    ensures var o := PutWords(r, lines, words, breakWords); o.Some? ==> Tight(r, o.value.current)
  {
    if words != [] {
      var n := |words| - 1;
      PutWordsTight(r, lines, words[..n], breakWords);
      var o := PutWords(r, lines, words[..n], breakWords);
      if o.Some? {
        SpillTight(r, Open(o.value.lines + [o.value.current], ""), words[n]);
        SpillTight(r, o.value, words[n]);
      }
    }
  }

  /** The innermost loop: one over-long word, character by character. */
  method SpillWord(r: Ruler, o: Open, word: string) returns (p: Open)
    ensures p == Spill(r, o, word)
  {
    var lines, current := o.lines, o.current;
    for i := 0 to |word|
      invariant Open(lines, current) == Spill(r, o, word[..i])
    {
      assert word[..i + 1][..i] == word[..i];
      if !r.Fits(current + [word[i]]) && current != "" {
        lines := lines + [current];
        current := [word[i]];
      } else {
        current := current + [word[i]];
      }
    }
    assert word[..|word|] == word;
    p := Open(lines, current);
  }

  method WrapParagraph(r: Ruler, lines0: seq<string>, words: seq<string>,
                       breakWords: bool) returns (lines: Option<seq<string>>)
    requires r.Valid() && AllWords(r, words)
    ensures var o := PutWords(r, lines0, words, breakWords);
            lines == if o.None? then None else Some(Closed(o.value))
  {
    hide Strip, Spill, Word, Tight;
    var o := Open(lines0, "");
    for i := 0 to |words|
      invariant PutWords(r, lines0, words[..i], breakWords) == Some(o)
    {
      var word := words[i];
      assert words[..i + 1][..i] == words[..i];
      PutWordsTight(r, lines0, words[..i], breakWords);
      StripJoins(r, o.current, word);
      var trial := Strip(r, o.current + " " + word);
      if r.Fits(trial) {
        o := Open(o.lines, trial);
      } else if !r.Fits(word) {
        if !breakWords {
          StaysFailed(r, lines0, words, breakWords, i + 1);
          return None;
        }
        if o.current != "" {
          o := Open(o.lines + [o.current], "");
        }
        o := SpillWord(r, o, word);
      } else {
        o := Open(o.lines + [o.current], word);
      }
    }
    assert words[..|words|] == words;
    lines := Some(Closed(o));
  }

  lemma {:induction false} StaysFailed(r: Ruler, lines: seq<string>, words: seq<string>, breakWords: bool, k: nat)
    requires k <= |words| && PutWords(r, lines, words[..k], breakWords).None?
    ensures PutWords(r, lines, words, breakWords).None?
  {
    hide PutWord;
    if k < |words| {
      var n := |words| - 1;
      assert words[..n][..k] == words[..k];
      StaysFailed(r, lines, words[..n], breakWords, k);
    } else {
      assert words[..k] == words;
    }
  }

  lemma {:induction false} StaysFailedAcross(r: Ruler, ps: seq<string>, breakWords: bool, k: nat)
    requires k <= |ps| && PutParagraphs(r, ps[..k], breakWords).None?
    ensures PutParagraphs(r, ps, breakWords).None?
  {
    hide PutWords, Words;
    if k < |ps| {
      var n := |ps| - 1;
      assert ps[..n][..k] == ps[..k];
      StaysFailedAcross(r, ps[..n], breakWords, k);
    } else {
      assert ps[..k] == ps;
    }
  }

  /** `_wrap`: None where words may not be broken and one does not fit. */
  method Wrap(r: Ruler, text: string, breakWords: bool) returns (lines: Option<seq<string>>)
    requires r.Valid()
    ensures lines == Wrapped(r, text, breakWords)
  {
    hide Words, PutWords, Paragraphs;
    var ps, all := Paragraphs(text), [];
    for i := 0 to |ps|
      invariant PutParagraphs(r, ps[..i], breakWords) == Some(all)
    {
      assert ps[..i + 1][..i] == ps[..i];
      var more := WrapParagraph(r, all, Words(r, ps[i]), breakWords);
      if more.None? {
        StaysFailedAcross(r, ps, breakWords, i + 1);
        return None;
      }
      all := more.value;
    }
    assert ps[..|ps|] == ps;
    lines := Some(all);
  }

  // --- nothing is lost --------------------------------------------------------

  /** The characters that leave a mark, in order. */
  function Ink(r: Ruler, s: string): string {
    if s == "" then ""
    else
      var n := |s| - 1;
      Ink(r, s[..n]) + if r.space(s[n]) then "" else [s[n]]
  }

  function InkOf(r: Ruler, lines: seq<string>): string {
    if lines == [] then "" else InkOf(r, lines[..|lines| - 1]) + Ink(r, lines[|lines| - 1])
  }

  lemma {:induction false} InkConcat(r: Ruler, a: string, b: string)
    ensures Ink(r, a + b) == Ink(r, a) + Ink(r, b)
  {
    if b == "" {
      assert a + b == a;
    } else {
      var n := |b| - 1;
      InkConcat(r, a, b[..n]);
      assert (a + b)[..|a + b| - 1] == a + b[..n];
    }
  }

  lemma Associates(a: string, b: string, c: string)
    ensures a + b + c == a + (b + c)
  {
  }

  lemma CloseInk(r: Ruler, lines: seq<string>, current: string)
    ensures InkOf(r, lines + [current]) == InkOf(r, lines) + Ink(r, current)
  {
    assert (lines + [current])[..|lines|] == lines;
  }

  lemma ExtendInk(r: Ruler, lines: seq<string>, current: string, s: string)
    ensures InkOf(r, lines + [current + s]) == InkOf(r, lines + [current]) + Ink(r, s)
  {
    hide Ink, InkOf;
    CloseInk(r, lines, current + s);
    CloseInk(r, lines, current);
    InkConcat(r, current, s);
    Associates(InkOf(r, lines), Ink(r, current), Ink(r, s));
  }

  lemma InkOfNothing(r: Ruler)
    ensures Ink(r, "") == ""
  {
  }

  lemma {:induction false} SpillKeepsInk(r: Ruler, o: Open, word: string)
    ensures InkOf(r, Closed(Spill(r, o, word))) == InkOf(r, Closed(o)) + Ink(r, word)
  {
    hide Ink, InkOf;
    if word == "" {
      InkOfNothing(r);
    } else {
      var n := |word| - 1;
      var p, c := Spill(r, o, word[..n]), [word[n]];
      SpillKeepsInk(r, o, word[..n]);
      CloseInk(r, Closed(p), c);
      ExtendInk(r, p.lines, p.current, c);
      InkConcat(r, word[..n], c);
      assert word == word[..n] + c;
      Associates(InkOf(r, Closed(o)), Ink(r, word[..n]), Ink(r, c));
    }
  }

  lemma JoinedKeepsInk(r: Ruler, lines: seq<string>, current: string, word: string)
    requires r.Valid()
    ensures InkOf(r, lines + [Joined(current, word)]) == InkOf(r, lines + [current]) + Ink(r, word)
  {
    hide Ink, InkOf;
    if current == "" {
      assert current + word == word;
      ExtendInk(r, lines, current, word);
    } else {
      ExtendInk(r, lines, current + " ", word);
      ExtendInk(r, lines, current, " ");
      InkOfOne(r, ' ');
    }
  }

  lemma PutWordKeepsInk(r: Ruler, o: Open, word: string, breakWords: bool)
    requires r.Valid()
    ensures var p := PutWord(r, o, word, breakWords);
            p.Some? ==> InkOf(r, Closed(p.value)) == InkOf(r, Closed(o)) + Ink(r, word)
  {
    hide Spill, Ink, InkOf, Joined;
    var closed := Open(o.lines + [o.current], "");
    JoinedKeepsInk(r, o.lines, o.current, word);
    SpillKeepsInk(r, o, word);
    SpillKeepsInk(r, closed, word);
    InkOfNothing(r);
    CloseInk(r, Closed(o), "");
    CloseInk(r, Closed(o), word);
  }

  lemma {:induction false} PutWordsKeepInk(r: Ruler, lines: seq<string>, words: seq<string>, breakWords: bool)
    requires r.Valid()
    ensures var p := PutWords(r, lines, words, breakWords);
            p.Some? ==> InkOf(r, Closed(p.value)) == InkOf(r, lines) + InkOf(r, words)
  {
    hide PutWord, Ink, InkOf;
    InkOfNothing(r);
    InkOfNone(r);
    if words == [] {
      CloseInk(r, lines, "");
    } else {
      var n := |words| - 1;
      PutWordsKeepInk(r, lines, words[..n], breakWords);
      var o := PutWords(r, lines, words[..n], breakWords);
      CloseInk(r, words[..n], words[n]);
      assert words == words[..n] + [words[n]];
      Associates(InkOf(r, lines), InkOf(r, words[..n]), Ink(r, words[n]));
      if o.Some? {
        PutWordKeepsInk(r, o.value, words[n], breakWords);
      }
    }
  }

  lemma InkOfOne(r: Ruler, c: char)
    ensures Ink(r, [c]) == if r.space(c) then "" else [c]
  {
    assert [c][..0] == "";
  }

  lemma {:induction false} WordsKeepInk(r: Ruler, text: string)
    ensures InkOf(r, Words(r, text)) == Ink(r, text)
  {
    hide Ink, InkOf;
    if text == "" {
      InkOfNothing(r);
      assert InkOf(r, []) == "" by { InkOfNone(r); }
    } else {
      var n := |text| - 1;
      WordsKeepInk(r, text[..n]);
      InkConcat(r, text[..n], [text[n]]);
      assert text == text[..n] + [text[n]];
      InkOfOne(r, text[n]);
      GrowWords(r, Words(r, text[..n]), text[n]);
    }
  }

  lemma InkOfNone(r: Ruler)
    ensures InkOf(r, []) == ""
  {
  }

  /** A character on a list of its own, or behind the last. */
  lemma GrowWords(r: Ruler, ws: seq<string>, c: char)
    ensures InkOf(r, ws + [[c]]) == InkOf(r, ws) + Ink(r, [c])
    ensures ws != [] ==> InkOf(r, ws[..|ws| - 1] + [ws[|ws| - 1] + [c]]) == InkOf(r, ws) + Ink(r, [c])
  {
    hide Ink, InkOf;
    CloseInk(r, ws, [c]);
    if ws != [] {
      GrowLast(r, ws[..|ws| - 1], ws[|ws| - 1], c);
      FrontAndLast(ws);
    }
  }

  lemma GrowLast(r: Ruler, front: seq<string>, last: string, c: char)
    ensures InkOf(r, front + [last + [c]]) == InkOf(r, front + [last]) + Ink(r, [c])
  {
    hide Ink, InkOf;
    ExtendInk(r, front, last, [c]);
  }

  lemma FrontAndLast(ws: seq<string>)
    requires ws != []
    ensures ws == ws[..|ws| - 1] + [ws[|ws| - 1]]
  {
  }

  lemma {:induction false} ParagraphsKeepInk(r: Ruler, text: string)
    requires r.Valid()
    ensures InkOf(r, Paragraphs(text)) == Ink(r, text)
  {
    hide Ink, InkOf;
    InkOfNothing(r);
    InkOfNone(r);
    if text == "" {
      CloseInk(r, [], "");
      assert [] + [""] == [""];
    } else {
      var n := |text| - 1;
      ParagraphsKeepInk(r, text[..n]);
      InkConcat(r, text[..n], [text[n]]);
      assert text == text[..n] + [text[n]];
      InkOfOne(r, text[n]);
      GrowWords(r, Paragraphs(text[..n]), text[n]);
      CloseInk(r, Paragraphs(text[..n]), "");
    }
  }

  lemma {:induction false} ParagraphsPutKeepInk(r: Ruler, ps: seq<string>, breakWords: bool)
    requires r.Valid()
    ensures var lines := PutParagraphs(r, ps, breakWords); lines.Some? ==> InkOf(r, lines.value) == InkOf(r, ps)
  {
    hide PutWords, Words, Ink;
    if ps != [] {
      var n := |ps| - 1;
      ParagraphsPutKeepInk(r, ps[..n], breakWords);
      var lines := PutParagraphs(r, ps[..n], breakWords);
      if lines.Some? {
        PutWordsKeepInk(r, lines.value, Words(r, ps[n]), breakWords);
        WordsKeepInk(r, ps[n]);
      }
    }
  }

  /** The lines carry exactly the text's non-white characters, in order. */
  lemma WrapIsLossless(r: Ruler, text: string, breakWords: bool)
    requires r.Valid()
    ensures var lines := Wrapped(r, text, breakWords); lines.Some? ==> InkOf(r, lines.value) == Ink(r, text)
  {
    hide Ink, InkOf, PutParagraphs;
    ParagraphsKeepInk(r, text);
    ParagraphsPutKeepInk(r, Paragraphs(text), breakWords);
  }

  // --- every line fits --------------------------------------------------------

  /** A line that cannot be shortened any further by breaking. */
  predicate Shown(r: Ruler, line: string, breakWords: bool) {
    line == "" || r.Fits(line) || (breakWords && |line| == 1)
  }

  predicate AllShown(r: Ruler, lines: seq<string>, breakWords: bool) {
    forall i :: 0 <= i < |lines| ==> Shown(r, lines[i], breakWords)
  }

  lemma {:induction false} SpillShown(r: Ruler, o: Open, word: string)
    requires AllShown(r, Closed(o), true)
    ensures AllShown(r, Closed(Spill(r, o, word)), true)
  {
    if word != "" {
      var n := |word| - 1;
      SpillShown(r, o, word[..n]);
      var p, q := Spill(r, o, word[..n]), Spill(r, o, word);
      assert Shown(r, Closed(p)[|p.lines|], true);
      forall i | 0 <= i < |Closed(q)| ensures Shown(r, Closed(q)[i], true) {
        if i < |p.lines| {
          assert Closed(q)[i] == Closed(p)[i];
        }
      }
    }
  }

  lemma PutWordShown(r: Ruler, o: Open, word: string, breakWords: bool)
    requires AllShown(r, Closed(o), breakWords)
    ensures var p := PutWord(r, o, word, breakWords); p.Some? ==> AllShown(r, Closed(p.value), breakWords)
  {
    hide Spill, Joined, Shown;
    var p := PutWord(r, o, word, breakWords);
    var closed := Open(o.lines + [o.current], "");
    ShownIfFits(r, Joined(o.current, word), breakWords);
    ShownIfFits(r, word, breakWords);
    ShownIfFits(r, "", breakWords);
    AddShown(r, Closed(o), "", breakWords);
    AddShown(r, o.lines, o.current, breakWords);
    if r.Fits(Joined(o.current, word)) {
      AddShown(r, o.lines, Joined(o.current, word), breakWords);
    } else if p.Some? && r.Fits(word) {
      AddShown(r, Closed(o), word, breakWords);
    } else if p.Some? && o.current != "" {
      SpillShown(r, closed, word);
    } else if p.Some? {
      SpillShown(r, o, word);
    }
  }

  lemma ShownIfFits(r: Ruler, line: string, breakWords: bool)
    ensures line == "" || r.Fits(line) ==> Shown(r, line, breakWords)
  {
  }

  lemma AddShown(r: Ruler, lines: seq<string>, line: string, breakWords: bool)
    ensures AllShown(r, lines, breakWords) && Shown(r, line, breakWords) ==> AllShown(r, lines + [line], breakWords)
    ensures AllShown(r, lines + [line], breakWords) ==> AllShown(r, lines, breakWords)
  {
    if AllShown(r, lines + [line], breakWords) {
      forall i | 0 <= i < |lines| ensures Shown(r, lines[i], breakWords) {
        assert (lines + [line])[i] == lines[i];
      }
    }
  }

  lemma {:induction false} PutWordsShown(r: Ruler, lines: seq<string>, words: seq<string>, breakWords: bool)
    requires AllShown(r, lines, breakWords)
    ensures var p := PutWords(r, lines, words, breakWords); p.Some? ==> AllShown(r, Closed(p.value), breakWords)
  {
    hide PutWord;
    if words != [] {
      var n := |words| - 1;
      PutWordsShown(r, lines, words[..n], breakWords);
      var o := PutWords(r, lines, words[..n], breakWords);
      if o.Some? {
        PutWordShown(r, o.value, words[n], breakWords);
      }
    }
  }

  lemma {:induction false} ParagraphsShown(r: Ruler, ps: seq<string>, breakWords: bool)
    ensures var lines := PutParagraphs(r, ps, breakWords); lines.Some? ==> AllShown(r, lines.value, breakWords)
  {
    hide PutWords, Words, Shown;
    if ps != [] {
      var n := |ps| - 1;
      ParagraphsShown(r, ps[..n], breakWords);
      var lines := PutParagraphs(r, ps[..n], breakWords);
      if lines.Some? {
        PutWordsShown(r, lines.value, Words(r, ps[n]), breakWords);
      }
    }
  }

  /** Every line fits the width, is empty, or is one character that no breaking can narrow;
      with whole words only, every line that shows anything fits. */
  lemma EveryLineIsShown(r: Ruler, text: string, breakWords: bool)
    ensures var lines := Wrapped(r, text, breakWords); lines.Some? ==> AllShown(r, lines.value, breakWords)
  {
    ParagraphsShown(r, Paragraphs(text), breakWords);
  }

  /** With breaking allowed a text can always be wrapped. */
  lemma {:induction false} BreakingNeverFails(r: Ruler, text: string)
    ensures Wrapped(r, text, true).Some?
  {
    ParagraphsNeverFail(r, Paragraphs(text));
  }

  /** Where the text can be wrapped with whole words, allowing breaks changes nothing. */
  lemma BreakingOnlyWhenNeeded(r: Ruler, text: string)
    requires Wrapped(r, text, false).Some?
    ensures Wrapped(r, text, true) == Wrapped(r, text, false)
  {
    ParagraphsUnbroken(r, Paragraphs(text));
  }

  lemma {:induction false} ParagraphsUnbroken(r: Ruler, ps: seq<string>)
    requires PutParagraphs(r, ps, false).Some?
    ensures PutParagraphs(r, ps, true) == PutParagraphs(r, ps, false)
  {
    hide PutWords, Words;
    if ps != [] {
      var n := |ps| - 1;
      ParagraphsUnbroken(r, ps[..n]);
      WordsUnbroken(r, PutParagraphs(r, ps[..n], false).value, Words(r, ps[n]));
    }
  }

  lemma {:induction false} WordsUnbroken(r: Ruler, lines: seq<string>, words: seq<string>)
    requires PutWords(r, lines, words, false).Some?
    ensures PutWords(r, lines, words, true) == PutWords(r, lines, words, false)
  {
    if words != [] {
      WordsUnbroken(r, lines, words[..|words| - 1]);
    }
  }

  lemma {:induction false} ParagraphsNeverFail(r: Ruler, ps: seq<string>)
    ensures PutParagraphs(r, ps, true).Some?
  {
    hide PutWords, Words;
    if ps != [] {
      var n := |ps| - 1;
      ParagraphsNeverFail(r, ps[..n]);
      WordsNeverFail(r, PutParagraphs(r, ps[..n], true).value, Words(r, ps[n]));
    }
  }

  lemma {:induction false} WordsNeverFail(r: Ruler, lines: seq<string>, words: seq<string>)
    ensures PutWords(r, lines, words, true).Some?
  {
    if words != [] {
      WordsNeverFail(r, lines, words[..|words| - 1]);
    }
  }
}
