/** What the page derives from its state when it renders: whether the player
    is shown, which progress bars are filled, and whether the "next" button is
    shown. Beside them, the Apple Music search term that the click handler
    `openAppleMusic` builds from the same state. */
module Render {
  import opened Page

  /** `segments.length > 0 && currentSegment`. */
  predicate PlayerVisible(s: State)
    ensures PlayerVisible(s) <==> s.currentIndex < |s.segments|
  {
    |s.segments| > 0 && CurrentSegment(s).Some?
  }

  /** One bar per segment, filled when `idx <= currentIndex`. */
  function ProgressBars(s: State): seq<bool>
  {
    seq(|s.segments|, idx => idx <= s.currentIndex)
  }

  /** The number of filled bars. */
  function CountFilled(bars: seq<bool>): nat
  {
    if bars == [] then 0
    else CountFilled(bars[..|bars| - 1]) + (if bars[|bars| - 1] then 1 else 0)
  }

  /** `currentIndex < segments.length - 1`. */
  predicate NextVisible(s: State)
  {
    s.currentIndex < |s.segments| - 1
  }

  /** The search term of `openAppleMusic` before URL encoding; `None` when
      there is no current segment and the handler returns early. */
  function SearchTerm(s: State): Option<string>
  {
    match CurrentSegment(s)
    case None => None
    case Some(song) => Some(song.artistName + " " + song.songTitle)
  }

  /** Under the invariant, the player is shown exactly when a program is
      loaded. */
  lemma PlayerVisibleIffLoaded(s: State)
    requires WellFormed(s)
    ensures PlayerVisible(s) <==> s.segments != []
  {
  }

  /** Bars whose fill is the threshold `i <= k` hold `min(|bars|, k + 1)`
      filled ones. */
  lemma {:induction false} CountThreshold(bars: seq<bool>, k: nat)
    requires forall i :: 0 <= i < |bars| ==> (bars[i] <==> i <= k)
    ensures CountFilled(bars) == if k < |bars| then k + 1 else |bars|
  {
    if bars != [] {
      var front := bars[..|bars| - 1];
      assert forall i :: 0 <= i < |front| ==> front[i] == bars[i];
      CountThreshold(front, k);
    }
  }

  /** With the index in bounds exactly `currentIndex + 1` bars are filled,
      and the filled ones are the leading ones. */
  lemma FilledBars(s: State)
    requires s.currentIndex < |s.segments|
    ensures CountFilled(ProgressBars(s)) == s.currentIndex + 1
    ensures forall i, j :: 0 <= i <= j < |ProgressBars(s)| && ProgressBars(s)[j] ==> ProgressBars(s)[i]
    ensures ProgressBars(s)[s.currentIndex]
  {
    CountThreshold(ProgressBars(s), s.currentIndex);
  }

  /** The next button is shown exactly when pressing it would change the
      state, and only inside the player. */
  lemma NextVisibleIffAdvances(s: State)
    ensures NextVisible(s) <==> Step(s, AdvanceSegment) != s
    ensures NextVisible(s) ==> PlayerVisible(s)
  {
  }

  /** `openAppleMusic` builds a term exactly when the player is shown, and
      the term is artist, one space, title. */
  lemma SearchTermShape(s: State)
    ensures SearchTerm(s).Some? <==> PlayerVisible(s)
    ensures SearchTerm(s).Some? ==>
      var song := s.segments[s.currentIndex];
      var q := SearchTerm(s).value;
      |q| == |song.artistName| + 1 + |song.songTitle| &&
      q[..|song.artistName|] == song.artistName && q[|song.artistName|] == ' ' &&
      q[|song.artistName| + 1..] == song.songTitle
  {
  }
}
