/** Runs of the page: any interleaving of handler steps and of the
    continuations the browser delivers. A session counts the continuations
    still owed (a pending generation, a pending voice), so that a
    continuation is delivered only for a call that is in flight. */
module Traces {
  import opened Page
  import opened Render

  /** The page state, with the number of `generateProgram` and `playVoice`
      calls whose continuation has not run yet. */
  datatype Session = Session(ui: State, generations: nat, voices: nat)

  function Start(): Session
  {
    Session(Initial(), 0, 0)
  }

  /** Whether event `e` can happen now: a click on an enabled button, or the
      continuation of a call in flight. */
  predicate Occurs(w: Session, e: Event)
  {
    match e
    case StartGeneration => !w.ui.isLoading
    case SettleGeneration(_) => w.generations > 0
    case StartVoice => !w.ui.isPlaying
    case AudioEnded => w.voices > 0
    case VoiceCaught => w.voices > 0
    case AdvanceSegment => true
  }

  /** The session after `e`; an event that cannot happen changes nothing. */
  function Deliver(w: Session, e: Event): Session
  {
    if !Occurs(w, e) then w
    else
      var generations :=
        match e
        case StartGeneration => w.generations + 1
        case SettleGeneration(_) => w.generations - 1
        case _ => w.generations;
      var voices :=
        match e
        case StartVoice => if HasScript(w.ui) then w.voices + 1 else w.voices
        case AudioEnded => w.voices - 1
        case VoiceCaught => w.voices - 1
        case _ => w.voices;
      Session(Step(w.ui, e), generations, voices)
  }

  function Run(w: Session, t: seq<Event>): Session
    decreases |t|
  {
    if t == [] then w else Run(Deliver(w, t[0]), t[1..])
  }

  /** `k` presses of the same button. */
  function Repeat(e: Event, k: nat): (t: seq<Event>)
    ensures |t| == k
    ensures forall i :: 0 <= i < k ==> t[i] == e
  {
    if k == 0 then [] else [e] + Repeat(e, k - 1)
  }

  /** The session invariant: the page state is well formed, at most one
      call of each handler is in flight, and the flags say which. */
  predicate Consistent(w: Session)
  {
    WellFormed(w.ui) &&
    w.generations == (if w.ui.isLoading then 1 else 0) &&
    w.voices == (if w.ui.isPlaying then 1 else 0)
  }

  lemma StartConsistent()
    ensures Consistent(Start())
  {
  }

  /** Every event keeps the invariant, and an event that happens is one the
      page's own steps allow (so a generation continuation only ever runs
      while loading). */
  lemma DeliverKeepsConsistent(w: Session, e: Event)
    requires Consistent(w)
    ensures Occurs(w, e) ==> Enabled(w.ui, e)
    ensures Consistent(Deliver(w, e))
  {
    if Occurs(w, e) {
      StepKeepsWellFormed(w.ui, e);
    }
  }

  lemma {:induction false} RunKeepsConsistent(w: Session, t: seq<Event>)
    requires Consistent(w)
    ensures Consistent(Run(w, t))
    decreases |t|
  {
    if t != [] {
      DeliverKeepsConsistent(w, t[0]);
      RunKeepsConsistent(Deliver(w, t[0]), t[1..]);
    }
  }

  lemma {:induction false} RunAppend(w: Session, a: seq<Event>, b: seq<Event>)
    ensures Run(w, a + b) == Run(Run(w, a), b)
    decreases |a|
  {
    if a != [] {
      assert (a + b)[0] == a[0];
      assert (a + b)[1..] == a[1..] + b;
      RunAppend(Deliver(w, a[0]), a[1..], b);
    } else {
      assert a + b == b;
    }
  }

  /** In every run from page load, once a program is loaded the index is in
      bounds, and at most one generation and one voice are in flight. */
  lemma ReachableInBounds(t: seq<Event>)
    ensures var w := Run(Start(), t);
      (w.ui.segments != [] ==> w.ui.currentIndex < |w.ui.segments|) &&
      (w.ui.segments == [] ==> w.ui.currentIndex == 0) &&
      w.generations <= 1 && w.voices <= 1
  {
    StartConsistent();
    RunKeepsConsistent(Start(), t);
  }

  /** While the generation response is outstanding, whatever else the user
      does, the page stays loading, with no program, at index 0. */
  lemma {:induction false} LoadingUntilSettled(w: Session, t: seq<Event>)
    requires Consistent(w) && w.ui.isLoading
    requires forall i :: 0 <= i < |t| ==> !t[i].SettleGeneration?
    ensures Run(w, t).ui.isLoading && Run(w, t).ui.segments == [] && Run(w, t).ui.currentIndex == 0
    decreases |t|
  {
    if t != [] {
      DeliverKeepsConsistent(w, t[0]);
      LoadingUntilSettled(Deliver(w, t[0]), t[1..]);
    }
  }

  /** The three steps of `generateProgram` with any user activity in
      between: loading ends, the index is 0, and the program is exactly the
      returned list on success and empty on an error field or a throw. */
  lemma GenerationSteps(w: Session, mid: seq<Event>, o: GenerateOutcome)
    requires Consistent(w) && !w.ui.isLoading
    requires forall i :: 0 <= i < |mid| ==> !mid[i].SettleGeneration?
    ensures var r := Run(w, [StartGeneration] + mid + [SettleGeneration(o)]).ui;
      !r.isLoading && r.currentIndex == 0 &&
      r.segments == (if Succeeded(o) then o.response.segments else [])
  {
    var started := Deliver(w, StartGeneration);
    DeliverKeepsConsistent(w, StartGeneration);
    assert Run(w, [StartGeneration]) == started;
    RunAppend(w, [StartGeneration], mid);
    RunAppend(w, [StartGeneration] + mid, [SettleGeneration(o)]);
    var before := Run(started, mid);
    LoadingUntilSettled(started, mid);
    RunKeepsConsistent(started, mid);
    assert Run(before, [SettleGeneration(o)]) == Deliver(before, SettleGeneration(o));
    SettleOutcome(before.ui, o);
  }

  /** Pressing next `k` times from a loaded program walks the index up by
      one per press until the last segment, then stays; nothing else moves. */
  lemma {:induction false} RepeatedAdvance(w: Session, k: nat)
    requires Consistent(w) && w.ui.segments != []
    ensures var r := Run(w, Repeat(AdvanceSegment, k));
      r.ui.currentIndex == (if w.ui.currentIndex + k < |w.ui.segments| then w.ui.currentIndex + k else |w.ui.segments| - 1) &&
      r.ui.segments == w.ui.segments && r.ui.isLoading == w.ui.isLoading && r.ui.isPlaying == w.ui.isPlaying &&
      r.generations == w.generations && r.voices == w.voices
    decreases k
  {
    if k > 0 {
      var t := Repeat(AdvanceSegment, k);
      assert t[1..] == Repeat(AdvanceSegment, k - 1);
      DeliverKeepsConsistent(w, AdvanceSegment);
      RepeatedAdvance(Deliver(w, AdvanceSegment), k - 1);
    }
  }

  /** A one-corner program loads at index 0: the player is shown, the next
      button is not, and the search term is artist and title. */
  lemma OneSegmentScenario()
    ensures var song := Segment("Opening", "...", "Tomorrow never knows", "Mr.Children");
      var r := Run(Start(), [StartGeneration, SettleGeneration(Responded(GenerateResponse(None, [song])))]).ui;
      PlayerVisible(r) && !NextVisible(r) && SearchTerm(r) == Some("Mr.Children Tomorrow never knows")
  {
    var song := Segment("Opening", "...", "Tomorrow never knows", "Mr.Children");
    var settle := SettleGeneration(Responded(GenerateResponse(None, [song])));
    var loading := Deliver(Start(), StartGeneration);
    assert [StartGeneration, settle][1..] == [settle];
    assert Run(loading, [settle]) == Deliver(loading, settle);
    var r := Deliver(loading, settle).ui;
    assert r.segments == [song] && r.currentIndex == 0;
    assert song.artistName + " " + song.songTitle == "Mr.Children Tomorrow never knows";
  }
}
