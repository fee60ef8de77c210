/** Choosing a point size for a text, and cutting it where no size will do. */
module TextFit {
  import opened Arithmetic
  import opened Basics
  import opened TextWrap

  datatype Font = Font(length: string -> real, lineHeight: nat)

  /** A text element; `font` loads its typeface at a point size. */
  datatype TextSpec = TextSpec(
    value: string, minPt: real, maxPt: real, maxLines: nat, font: real -> Font, space: char -> bool)
  {
    /** What schema validation guarantees. */
    predicate Valid() {
      3.0 <= minPt <= maxPt <= 48.0 && 1 <= maxLines <= 6 && space(' ') && space('\n')
    }

    function RulerAt(pt: real, width: int): Ruler {
      Ruler(font(pt).length, width, space)
    }
  }

  const CUT: string := "\U{2026}"

  /** The search stops once the bracket is this narrow, or after so many rounds. */
  const GRAIN: real := 0.2
  const ROUNDS: nat := 24

  /** The text, wrapped at this size, fits the box. */
  predicate FitsAt(t: TextSpec, width: int, height: int, breakWords: bool, pt: real) {
    var lines := Wrapped(t.RulerAt(pt, width), t.value, breakWords);
    lines.Some? && |lines.value| <= t.maxLines && |lines.value| * t.font(pt).lineHeight <= height
  }

  // --- the size search --------------------------------------------------------

  /** The bracket, the largest size seen to fit, and the rounds left. */
  datatype Bracket = Bracket(lo: real, hi: real, best: Option<real>, left: nat)

  /** One round: try the middle and keep the half it points to. */
  function Halved(fits: real -> bool, b: Bracket): Bracket
    requires b.left > 0
  {
    var mid := (b.lo + b.hi) / 2.0;
    if fits(mid) then Bracket(mid, b.hi, Some(mid), b.left - 1) else Bracket(b.lo, mid, b.best, b.left - 1)
  }

  function Bisect(fits: real -> bool, b: Bracket): Bracket
    decreases b.left
  {
    if b.left == 0 || b.hi - b.lo <= GRAIN then b else Bisect(fits, Halved(fits, b))
  }

  function Fitting(t: TextSpec, width: int, height: int, breakWords: bool): real -> bool {
    pt => FitsAt(t, width, height, breakWords, pt)
  }

  function Searched(t: TextSpec, width: int, height: int, breakWords: bool): Bracket {
    Bisect(Fitting(t, width, height, breakWords), Bracket(t.minPt, t.maxPt, None, ROUNDS))
  }

  /** `_search` */
  method Search(t: TextSpec, width: int, height: int, breakWords: bool) returns (best: Option<(real, seq<string>)>)
    requires t.Valid()
    ensures best.None? <==> Searched(t, width, height, breakWords).best.None?
    ensures best.Some? ==>
      var pt := best.value.0;
      && Searched(t, width, height, breakWords).best == Some(pt)
      && FitsAt(t, width, height, breakWords, pt)
      && Some(best.value.1) == Wrapped(t.RulerAt(pt, width), t.value, breakWords)
  {
    hide Wrapped;
    var lo, hi, i := t.minPt, t.maxPt, 0;
    best := None;
    while i < ROUNDS
      invariant i <= ROUNDS
      invariant var found := if best.None? then None else Some(best.value.0);
                Bisect(Fitting(t, width, height, breakWords), Bracket(lo, hi, found, ROUNDS - i))
                == Searched(t, width, height, breakWords)
      invariant best.Some? ==>
        var pt := best.value.0;
        && FitsAt(t, width, height, breakWords, pt)
        && Some(best.value.1) == Wrapped(t.RulerAt(pt, width), t.value, breakWords)
    {
      if hi - lo <= GRAIN {
        break;
      }
      var mid := (lo + hi) / 2.0;
      var font := t.font(mid);
      var lines := Wrap(t.RulerAt(mid, width), t.value, breakWords);
      if lines.Some? && |lines.value| <= t.maxLines && |lines.value| * font.lineHeight <= height {
        best, lo := Some((mid, lines.value)), mid;
      } else {
        hi := mid;
      }
      i := i + 1;
    }
  }

  function Power2(k: nat): (p: nat)
    ensures p >= 1
  {
    if k == 0 then 1 else 2 * Power2(k - 1)
  }

  /** Every round halves the bracket, so so many rounds are enough. */
  lemma {:induction false} BisectCloses(fits: real -> bool, b: Bracket, k: nat)
    requires k <= b.left && b.hi - b.lo <= GRAIN * Power2(k) as real
    ensures var r := Bisect(fits, b); r.hi - r.lo <= GRAIN && b.left - k <= r.left
    decreases b.left
  {
    if b.left > 0 && b.hi - b.lo > GRAIN {
      BisectCloses(fits, Halved(fits, b), k - 1);
    }
  }

  /** For the sizes the contract allows eight rounds do, so the cap of 24 is never what ends
      the search. */
  lemma CapIsNeverReached(t: TextSpec, width: int, height: int, breakWords: bool)
    requires t.Valid()
    ensures var r := Searched(t, width, height, breakWords); r.hi - r.lo <= 0.2 && r.left >= 16
  {
    assert Power2(8) == 256 by {
      assert Power2(4) == 16;
      assert Power2(6) == 64;
    }
    BisectCloses(Fitting(t, width, height, breakWords), Bracket(t.minPt, t.maxPt, None, ROUNDS), 8);
  }

  /** What the bracket means: its lower end is the best size so far, and its upper end was
      seen not to fit unless it is the largest size of all. */
  predicate Meaningful(fits: real -> bool, lo: real, hi: real, b: Bracket) {
    && lo <= b.lo <= b.hi <= hi
    && (b.best.None? ==> b.lo == lo)
    && (b.best.Some? ==> b.best.value == b.lo > lo && fits(b.lo))
    && (b.hi == hi || !fits(b.hi))
  }

  lemma {:induction false} BisectKeepsMeaning(fits: real -> bool, lo: real, hi: real, b: Bracket)
    requires Meaningful(fits, lo, hi, b)
    ensures Meaningful(fits, lo, hi, Bisect(fits, b))
    decreases b.left
  {
    if b.left > 0 && b.hi - b.lo > GRAIN {
      BisectKeepsMeaning(fits, lo, hi, Halved(fits, b));
    }
  }

  /** A text that fits at one size fits at every smaller one. */
  ghost predicate MonotoneFit(fits: real -> bool, lo: real, hi: real) {
    forall a, b :: lo <= a <= b <= hi && fits(b) ==> fits(a)
  }

  /** The size found fits; and where fitting is monotone no size that fits is larger by more
      than the grain of the search. */
  lemma SearchFindsTheLargest(t: TextSpec, width: int, height: int, breakWords: bool, pt: real)
    requires t.Valid()
    requires t.minPt <= pt <= t.maxPt && FitsAt(t, width, height, breakWords, pt)
    ensures var r, fits := Searched(t, width, height, breakWords), Fitting(t, width, height, breakWords);
            && (r.best.Some? ==> t.minPt < r.best.value <= t.maxPt && fits(r.best.value))
            && (MonotoneFit(fits, t.minPt, t.maxPt) ==>
                  pt <= (if r.best.Some? then r.best.value else t.minPt) + 0.2)
  {
    hide FitsAt, Bisect;
    var fits := Fitting(t, width, height, breakWords);
    CapIsNeverReached(t, width, height, breakWords);
    BisectKeepsMeaning(fits, t.minPt, t.maxPt, Bracket(t.minPt, t.maxPt, None, ROUNDS));
    assert fits(pt);
  }

  /** The smallest size the search ever tries: it halves the range from below. */
  function Lowest(lo: real, hi: real, left: nat): Option<real>
    decreases left
  {
    if left == 0 || hi - lo <= GRAIN then None
    else
      var mid := (lo + hi) / 2.0;
      var lower := Lowest(lo, mid, left - 1);
      if lower.None? then Some(mid) else lower
  }

  lemma {:induction false} LowestIsInside(lo: real, hi: real, left: nat)
    requires lo <= hi
    ensures Lowest(lo, hi, left).Some? ==> lo < Lowest(lo, hi, left).value <= hi
    decreases left
  {
    if left > 0 && hi - lo > GRAIN {
      LowestIsInside(lo, (lo + hi) / 2.0, left - 1);
    }
  }

  lemma {:induction false} BestIsKept(fits: real -> bool, b: Bracket)
    requires b.best.Some?
    ensures Bisect(fits, b).best.Some?
    decreases b.left
  {
    if b.left > 0 && b.hi - b.lo > GRAIN {
      BestIsKept(fits, Halved(fits, b));
    }
  }

  lemma {:induction false} BisectFindsIff(fits: real -> bool, b: Bracket)
    requires b.best.None? && b.lo <= b.hi && MonotoneFit(fits, b.lo, b.hi)
    ensures Bisect(fits, b).best.Some? <==> Lowest(b.lo, b.hi, b.left).Some? && fits(Lowest(b.lo, b.hi, b.left).value)
    decreases b.left
  {
    if b.left > 0 && b.hi - b.lo > GRAIN {
      var mid := (b.lo + b.hi) / 2.0;
      LowestIsInside(b.lo, mid, b.left - 1);
      if fits(mid) {
        BestIsKept(fits, Bracket(mid, b.hi, Some(mid), b.left - 1));
      } else {
        BisectFindsIff(fits, Bracket(b.lo, mid, b.best, b.left - 1));
      }
    }
  }

  /** The search comes back with a size exactly where the text fits at the lowest size it
      tries, which is above the smallest size allowed: a text that fits only at the smallest
      size, or any text whose range is no wider than the grain, is not found to fit. */
  lemma SearchFindsIff(t: TextSpec, width: int, height: int, breakWords: bool)
    requires t.Valid() && MonotoneFit(Fitting(t, width, height, breakWords), t.minPt, t.maxPt)
    ensures var low := Lowest(t.minPt, t.maxPt, ROUNDS);
            && (Searched(t, width, height, breakWords).best.Some? <==>
                low.Some? && FitsAt(t, width, height, breakWords, low.value))
            && (low.None? <==> t.maxPt - t.minPt <= 0.2)
            && (low.Some? ==> t.minPt < low.value)
  {
    hide FitsAt, Bisect;
    LowestIsInside(t.minPt, t.maxPt, ROUNDS);
    BisectFindsIff(Fitting(t, width, height, breakWords), Bracket(t.minPt, t.maxPt, None, ROUNDS));
  }

  // --- fitting ----------------------------------------------------------------

  /** The line without as many of its last characters as leaves room for the mark. */
  function Trimmed(r: Ruler, line: string): (s: string)
    ensures s <= line && (s == "" || r.Fits(s + CUT))
    ensures forall k :: |s| < k <= |line| ==> !r.Fits(line[..k] + CUT)
  {
    if line != "" && !r.Fits(line + CUT) then
      var s := Trimmed(r, line[..|line| - 1]);
      assert forall k :: |s| < k < |line| ==> line[..|line| - 1][..k] == line[..k];
      assert line[..|line|] == line;
      s
    else line
  }

  method TrimLine(r: Ruler, line: string) returns (s: string)
    ensures s == Trimmed(r, line)
  {
    s := line;
    while s != "" && !r.Fits(s + CUT)
      invariant Trimmed(r, s) == Trimmed(r, line)
      decreases |s|
    {
      s := s[..|s| - 1];
    }
  }

  /** How many lines there is room for at the smallest size, one at the least. */
  function Room(t: TextSpec, height: int): (room: nat)
    requires t.Valid()
    ensures room >= 1
  {
    Max(1, Min(t.maxLines, height / Max(1, t.font(t.minPt).lineHeight)))
  }

  /** The wrap at the smallest size, cut to the lines there is room for. */
  function Cut(r: Ruler, wrapped: seq<string>, room: nat): (lines: seq<string>)
    requires room >= 1
    ensures |lines| == Min(|wrapped|, room)
  {
    if |wrapped| <= room then wrapped else wrapped[..room - 1] + [Trimmed(r, wrapped[room - 1]) + CUT]
  }

  /** `_fit`: whole words first, then broken words, then the cut; None where even a single
      line at the smallest size is too high. */
  function Fitted(t: TextSpec, width: int, height: int): Option<(real, seq<string>)>
    requires t.Valid()
  {
    var whole, broken := Searched(t, width, height, false).best, Searched(t, width, height, true).best;
    var small := Wrapped(t.RulerAt(t.minPt, width), t.value, true);
    if whole.Some? then Sized(t, width, whole.value, false)
    else if broken.Some? then Sized(t, width, broken.value, true)
    else if small.None? || height < t.font(t.minPt).lineHeight then None
    else Some((t.minPt, Cut(t.RulerAt(t.minPt, width), small.value, Room(t, height))))
  }

  function Sized(t: TextSpec, width: int, pt: real, breakWords: bool): Option<(real, seq<string>)> {
    var lines := Wrapped(t.RulerAt(pt, width), t.value, breakWords);
    if lines.None? then None else Some((pt, lines.value))
  }

  method Fit(t: TextSpec, width: int, height: int) returns (f: Option<(real, seq<string>)>)
    requires t.Valid()
    ensures f == Fitted(t, width, height)
  {
    hide Searched, Wrapped, Trimmed, FitsAt, Room;
    f := Search(t, width, height, false);
    if f.Some? {
      return;
    }
    f := Search(t, width, height, true);
    if f.Some? {
      return;
    }
    var r := t.RulerAt(t.minPt, width);
    BreakingNeverFails(r, t.value);
    SomeLine(r, t.value, true);
    var wrapped := Wrap(r, t.value, true);
    var lines, maxLines := wrapped.value, Room(t, height);
    if |lines| > maxLines {
      lines := lines[..maxLines];
      var last := TrimLine(r, lines[maxLines - 1]);
      lines := lines[..maxLines - 1] + [last + CUT];
      assert lines == wrapped.value[..maxLines - 1] + [last + CUT];
    }
    if lines == [] || height < t.font(t.minPt).lineHeight {
      return None;
    }
    f := Some((t.minPt, lines));
  }

  lemma SomeLine(r: Ruler, text: string, breakWords: bool)
    ensures var lines := Wrapped(r, text, breakWords); lines.Some? ==> lines.value != []
  {
  }

  /** What the caller of `_fit` may rely on. */
  ghost predicate Placeable(t: TextSpec, width: int, height: int, pt: real, lines: seq<string>) {
    && t.minPt <= pt <= t.maxPt
    && 1 <= |lines| <= t.maxLines && |lines| * t.font(pt).lineHeight <= height
    && AllShown(t.RulerAt(pt, width), lines, true)
  }

  /** What is shown of a text: all of it, or a first part of it and the mark. */
  ghost predicate ShowsFirstPart(r: Ruler, text: string, lines: seq<string>) {
    || InkOf(r, lines) == Ink(r, text)
    || exists before: seq<string>, last ::
         lines == before + [last + CUT] && InkOf(r, before + [last]) <= Ink(r, text)
  }

  lemma CutIsPlaceable(t: TextSpec, width: int, height: int, wrapped: seq<string>)
    requires t.Valid() && t.font(t.minPt).lineHeight <= height
    requires AllShown(t.RulerAt(t.minPt, width), wrapped, true) && wrapped != []
    ensures Placeable(t, width, height, t.minPt, Cut(t.RulerAt(t.minPt, width), wrapped, Room(t, height)))
  {
    hide Room, Trimmed;
    RoomIsEnough(t, height, |Cut(t.RulerAt(t.minPt, width), wrapped, Room(t, height))|);
  }

  lemma RoomIsEnough(t: TextSpec, height: int, n: nat)
    requires t.Valid() && t.font(t.minPt).lineHeight <= height && n <= Room(t, height)
    ensures n <= t.maxLines && n * t.font(t.minPt).lineHeight <= height
  {
    var lh := t.font(t.minPt).lineHeight;
    if lh > 0 {
      DivMod(height, lh);
      Distributes(lh, height / lh, 1);
      Ordered(lh, 1, height / lh + 1);
      Ordered(lh, n, height / lh);
    }
  }

  lemma {:induction false} InkPrefix(r: Ruler, lines: seq<string>, k: nat)
    requires k <= |lines|
    ensures InkOf(r, lines[..k]) <= InkOf(r, lines)
  {
    if k < |lines| {
      var n := |lines| - 1;
      InkPrefix(r, lines[..n], k);
      assert lines[..n][..k] == lines[..k];
    } else {
      assert lines[..k] == lines;
    }
  }

  lemma CutShowsFirstPart(r: Ruler, text: string, wrapped: seq<string>, room: nat)
    requires InkOf(r, wrapped) == Ink(r, text) && room >= 1
    ensures ShowsFirstPart(r, text, Cut(r, wrapped, room))
  {
    hide Ink, InkOf, Trimmed;
    if |wrapped| > room {
      var before, full := wrapped[..room - 1], wrapped[room - 1];
      var last := Trimmed(r, full);
      InkPrefix(r, wrapped, room);
      assert wrapped[..room] == before + [full] && full == last + full[|last|..];
      ExtendInk(r, before, last, full[|last|..]);
    }
  }

  lemma SizedIsPlaceable(t: TextSpec, width: int, height: int, breakWords: bool)
    requires t.Valid() && Searched(t, width, height, breakWords).best.Some?
    ensures var f := Sized(t, width, Searched(t, width, height, breakWords).best.value, breakWords);
            && f.Some? && Placeable(t, width, height, f.value.0, f.value.1)
            && ShowsFirstPart(t.RulerAt(f.value.0, width), t.value, f.value.1)
  {
    hide Bisect, Wrapped;
    var fits := Fitting(t, width, height, breakWords);
    BisectKeepsMeaning(fits, t.minPt, t.maxPt, Bracket(t.minPt, t.maxPt, None, ROUNDS));
    var pt := Searched(t, width, height, breakWords).best.value;
    assert fits(pt);
    EveryLineIsShown(t.RulerAt(pt, width), t.value, breakWords);
    WrapIsLossless(t.RulerAt(pt, width), t.value, breakWords);
    SomeLine(t.RulerAt(pt, width), t.value, breakWords);
  }

  /** Whatever `_fit` places has its lines inside the box, in width but for single characters,
      in number and in height, and shows all of the text or a first part of it and the mark.
      It gives up only where not even one line at the smallest size is low enough. */
  lemma FittedIsPlaceable(t: TextSpec, width: int, height: int)
    requires t.Valid()
    ensures var f := Fitted(t, width, height);
            && (f.Some? ==> Placeable(t, width, height, f.value.0, f.value.1)
                            && ShowsFirstPart(t.RulerAt(f.value.0, width), t.value, f.value.1))
            && (f.None? ==> height < t.font(t.minPt).lineHeight)
  {
    hide Searched, Wrapped, Room, Sized, Placeable, ShowsFirstPart, Cut;
    var r := t.RulerAt(t.minPt, width);
    if Searched(t, width, height, false).best.Some? {
      SizedIsPlaceable(t, width, height, false);
    } else if Searched(t, width, height, true).best.Some? {
      SizedIsPlaceable(t, width, height, true);
    } else {
      BreakingNeverFails(r, t.value);
      SomeLine(r, t.value, true);
      EveryLineIsShown(r, t.value, true);
      WrapIsLossless(r, t.value, true);
      if height >= t.font(t.minPt).lineHeight {
        CutIsPlaceable(t, width, height, Wrapped(r, t.value, true).value);
        CutShowsFirstPart(r, t.value, Wrapped(r, t.value, true).value, Room(t, height));
      }
    }
  }

  /** A text at the smallest size is shown whole or, where it is cut, line by line as far as
      there is room: on as many lines as are allowed, or so many that one more is too high.
      The last of them loses no more characters than the mark needs. */
  ghost predicate ShowsAllThereIsRoomFor(t: TextSpec, width: int, height: int, wrapped: seq<string>, lines: seq<string>) {
    var r, n := t.RulerAt(t.minPt, width), |lines|;
    || lines == wrapped
    || (&& 0 < n < |wrapped| && lines[..n - 1] == wrapped[..n - 1]
        && (n == t.maxLines || (n + 1) * Max(1, t.font(t.minPt).lineHeight) > height)
        && MarkedLate(r, wrapped[n - 1], lines[n - 1]))
  }

  /** Is this the line with the mark, short of as few characters as that takes? */
  ghost predicate MarkedLate(r: Ruler, line: string, shown: string) {
    exists k :: 0 <= k <= |line| && shown == Marked(line, k)
                && forall j :: k < j <= |line| ==> !r.Fits(Marked(line, j))
  }

  /** The first k characters of a line and the mark. */
  function Marked(line: string, k: nat): string
    requires k <= |line|
  {
    line[..k] + CUT
  }

  lemma NoRoomForMore(t: TextSpec, height: int)
    requires t.Valid()
    ensures Room(t, height) == t.maxLines
            || (Room(t, height) + 1) * Max(1, t.font(t.minPt).lineHeight) > height
  {
    var lh := Max(1, t.font(t.minPt).lineHeight);
    DivMod(height, lh);
    Distributes(lh, height / lh, 1);
    if height / lh < 1 {
      Ordered(lh, height / lh + 1, 2);
    }
  }

  lemma CutShowsAllThereIsRoomFor(t: TextSpec, width: int, height: int, wrapped: seq<string>)
    requires t.Valid()
    ensures ShowsAllThereIsRoomFor(t, width, height, wrapped,
                                   Cut(t.RulerAt(t.minPt, width), wrapped, Room(t, height)))
  {
    hide Room;
    var room, r := Room(t, height), t.RulerAt(t.minPt, width);
    NoRoomForMore(t, height);
    if |wrapped| > room {
      var full := wrapped[room - 1];
      var s := Trimmed(r, full);
      assert s == full[..|s|] && s + CUT == Marked(full, |s|);
      assert MarkedLate(r, full, s + CUT);
      assert Cut(r, wrapped, room)[..room - 1] == wrapped[..room - 1];
    }
  }

  lemma CutTextFillsTheRoom(t: TextSpec, width: int, height: int)
    requires t.Valid() && Fitted(t, width, height).Some? && Fitted(t, width, height).value.0 == t.minPt
    ensures var wrapped := Wrapped(t.RulerAt(t.minPt, width), t.value, true);
            wrapped.Some? && ShowsAllThereIsRoomFor(t, width, height, wrapped.value, Fitted(t, width, height).value.1)
  {
    hide Searched, Wrapped, Room, Cut, ShowsAllThereIsRoomFor, FitsAt;
    NeverTheSmallest(t, width, height, false);
    NeverTheSmallest(t, width, height, true);
    CutShowsAllThereIsRoomFor(t, width, height, Wrapped(t.RulerAt(t.minPt, width), t.value, true).value);
  }

  lemma NeverTheSmallest(t: TextSpec, width: int, height: int, breakWords: bool)
    requires t.Valid()
    ensures Searched(t, width, height, breakWords).best != Some(t.minPt)
  {
    hide FitsAt, Bisect;
    BisectKeepsMeaning(Fitting(t, width, height, breakWords), t.minPt, t.maxPt,
                       Bracket(t.minPt, t.maxPt, None, ROUNDS));
  }

  lemma {:induction false} BestOnlyGrows(fits: real -> bool, b: Bracket)
    requires b.best == Some(b.lo) && b.lo <= b.hi
    ensures var r := Bisect(fits, b); r.best.Some? && r.best.value >= b.lo
    decreases b.left
  {
    if b.left > 0 && b.hi - b.lo > GRAIN {
      BestOnlyGrows(fits, Halved(fits, b));
    }
  }

  lemma {:induction false} BestIsAtLeastLowest(fits: real -> bool, b: Bracket)
    requires b.best.None? && b.lo <= b.hi && Bisect(fits, b).best.Some?
    ensures var low := Lowest(b.lo, b.hi, b.left); low.Some? && low.value <= Bisect(fits, b).best.value
    decreases b.left
  {
    if b.left > 0 && b.hi - b.lo > GRAIN {
      var mid := (b.lo + b.hi) / 2.0;
      LowestIsInside(b.lo, mid, b.left - 1);
      if fits(mid) {
        BestOnlyGrows(fits, Bracket(mid, b.hi, Some(mid), b.left - 1));
      } else {
        BestIsAtLeastLowest(fits, Halved(fits, b));
      }
    }
  }

  /** Words that had to be broken to fit at the lowest size tried are broken at the size found. */
  lemma BrokenStaysBroken(t: TextSpec, width: int, height: int)
    requires t.Valid() && MonotoneFit(Fitting(t, width, height, false), t.minPt, t.maxPt)
    requires Lowest(t.minPt, t.maxPt, ROUNDS).Some? && Searched(t, width, height, true).best.Some?
    requires !FitsAt(t, width, height, false, Lowest(t.minPt, t.maxPt, ROUNDS).value)
    ensures Wrapped(t.RulerAt(Searched(t, width, height, true).best.value, width), t.value, false).None?
  {
    hide Bisect, Lowest, Wrapped;
    var start := Bracket(t.minPt, t.maxPt, None, ROUNDS);
    var low, pt := Lowest(t.minPt, t.maxPt, ROUNDS).value, Searched(t, width, height, true).best.value;
    BestIsAtLeastLowest(Fitting(t, width, height, true), start);
    BisectKeepsMeaning(Fitting(t, width, height, true), t.minPt, t.maxPt, start);
    LowestIsInside(t.minPt, t.maxPt, ROUNDS);
    assert Fitting(t, width, height, true)(pt);
    assert !Fitting(t, width, height, false)(low);
    assert !Fitting(t, width, height, false)(pt);
    if Wrapped(t.RulerAt(pt, width), t.value, false).Some? {
      BreakingOnlyWhenNeeded(t.RulerAt(pt, width), t.value);
    }
  }

  /** "Whole words first" is decided at the lowest size tried, not at the smallest allowed: of
      a text that fits there, broken or not, the words stay whole if and only if it fits there
      unbroken. A text that does not fit there is placed at the smallest size allowed. */
  lemma WordsStayWholeIff(t: TextSpec, width: int, height: int)
    requires t.Valid() && MonotoneFit(Fitting(t, width, height, false), t.minPt, t.maxPt)
    requires MonotoneFit(Fitting(t, width, height, true), t.minPt, t.maxPt)
    ensures var low, f := Lowest(t.minPt, t.maxPt, ROUNDS), Fitted(t, width, height);
            var whole := low.Some? && FitsAt(t, width, height, false, low.value);
            var broken := low.Some? && FitsAt(t, width, height, true, low.value);
            && (whole || broken ==>
                  && f.Some?
                  && (Wrapped(t.RulerAt(f.value.0, width), t.value, false).Some? <==> whole)
                  && Some(f.value.1) == Wrapped(t.RulerAt(f.value.0, width), t.value, !whole))
            && (!whole && !broken && f.Some? ==> f.value.0 == t.minPt)
  {
    hide Searched, Wrapped, Room, Placeable, ShowsFirstPart, Cut, FitsAt, Lowest;
    SearchFindsIff(t, width, height, false);
    SearchFindsIff(t, width, height, true);
    if Searched(t, width, height, false).best.Some? {
      SizedIsPlaceable(t, width, height, false);
    } else if Searched(t, width, height, true).best.Some? {
      SizedIsPlaceable(t, width, height, true);
      BrokenStaysBroken(t, width, height);
    }
  }

  // --- where the search falls short -------------------------------------------

  /** A word of two letters in a font that makes it too wide at every size but the smallest. */
  function TwoLetters(minPt: real, maxPt: real): (t: TextSpec)
    requires 3.0 <= minPt <= maxPt <= 48.0
    ensures t.Valid()
  {
    TextSpec("ab", minPt, maxPt, 2, (pt: real) => Font((s: string) => if |s| > 1 && pt > minPt then 2.0 else 1.0, 1),
             c => c == ' ' || c == '\n')
  }

  lemma OneWord(r: Ruler)
    requires !r.space('a') && !r.space('b')
    ensures Paragraphs("ab") == ["ab"] && Words(r, "ab") == ["ab"]
  {
    assert "ab"[..1] == "a" && "a"[..0] == "";
    assert "" + ['a'] == "a" && "a" + ['b'] == "ab";
    assert Paragraphs("") == [""] && Words(r, "") == [];
    var ps, ws := Paragraphs("a"), Words(r, "a");
    assert ps == [""][..0] + ["" + ['a']];
    assert ps == ["a"] && ws == ["a"];
    assert ps[..0] == [] && ws[..0] == [];
    assert Paragraphs("ab") == ps[..0] + [ps[0] + ['b']];
    assert Words(r, "ab") == ws[..0] + [ws[0] + ['b']];
  }

  lemma OneWordWrapped(r: Ruler, breakWords: bool)
    requires !r.space('a') && !r.space('b')
    ensures var o := PutWord(r, Open([], ""), "ab", breakWords);
            Wrapped(r, "ab", breakWords) == if o.None? then None else Some(Closed(o.value))
  {
    hide PutWord, Words, Paragraphs, Closed;
    OneWord(r);
    assert ["ab"][..0] == [];
    assert PutWords(r, [], [], breakWords) == Some(Open([], ""));
    assert PutWords(r, [], ["ab"], breakWords) == PutWord(r, Open([], ""), "ab", breakWords);
    assert PutParagraphs(r, [], breakWords) == Some([]);
  }

  lemma TwoLettersSpilled(r: Ruler)
    requires !r.Fits("ab")
    ensures Spill(r, Open([], ""), "ab") == Open(["a"], "b")
  {
    assert "ab"[..1] == "a" && "a"[..0] == "";
    assert Spill(r, Open([], ""), "a") == Open([], "a");
    assert "a" + ['b'] == "ab";
  }

  lemma TwoLettersWrapped(minPt: real, maxPt: real, pt: real)
    requires 3.0 <= minPt <= pt <= maxPt <= 48.0
    ensures var r := TwoLetters(minPt, maxPt).RulerAt(pt, 1);
            && Wrapped(r, "ab", false) == (if pt == minPt then Some(["ab"]) else None)
            && Wrapped(r, "ab", true) == Some(if pt == minPt then ["ab"] else ["a", "b"])
  {
    hide Wrapped, Spill;
    var r := TwoLetters(minPt, maxPt).RulerAt(pt, 1);
    assert r.Fits("ab") <==> pt == minPt;
    assert Joined("", "ab") == "ab" && [] + ["ab"] == ["ab"] && ["a"] + ["b"] == ["a", "b"];
    OneWordWrapped(r, false);
    OneWordWrapped(r, true);
    if pt > minPt {
      TwoLettersSpilled(r);
    }
  }

  /** With one size to choose from the search tries none: it comes back empty though the text
      fits. */
  lemma OneSizeIsNeverTried()
    ensures FitsAt(TwoLetters(6.0, 6.0), 1, 2, false, 6.0) && Searched(TwoLetters(6.0, 6.0), 1, 2, false).best == None
  {
    TwoLettersWrapped(6.0, 6.0, 6.0);
  }

  /** A word that fits whole at the smallest size is broken all the same, for a larger one. */
  lemma WordIsBrokenForNothing()
    ensures var t := TwoLetters(3.0, 48.0); var f := Fitted(t, 1, 2);
            FitsAt(t, 1, 2, false, 3.0) && f.Some? && f.value.0 > 3.0 && f.value.1 == ["a", "b"]
  {
    hide Wrapped, Lowest, Bisect;
    var t := TwoLetters(3.0, 48.0);
    forall pt | 3.0 <= pt <= 48.0
      ensures FitsAt(t, 1, 2, true, pt) && (FitsAt(t, 1, 2, false, pt) <==> pt == 3.0)
      ensures pt > 3.0 ==> Wrapped(t.RulerAt(pt, 1), "ab", true) == Some(["a", "b"])
    {
      TwoLettersWrapped(3.0, 48.0, pt);
    }
    LowestIsInside(3.0, 48.0, ROUNDS);
    SearchFindsIff(t, 1, 2, false);
    SearchFindsIff(t, 1, 2, true);
    BisectKeepsMeaning(Fitting(t, 1, 2, true), 3.0, 48.0, Bracket(3.0, 48.0, None, ROUNDS));
  }
}
