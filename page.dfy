/** The client-side state of the broadcast page (the `Home` component of
    app/page.tsx): four fields, and one atomic transition per handler step.
    Every `await` in an async handler ends a transition, so `generateProgram`
    and `playVoice` are each split into a start step and the continuation(s)
    that run when the awaited work settles. */
module Page {

  datatype Option<T> = None | Some(value: T)

  /** One corner of the broadcast, as the generation route returns it. */
  datatype Segment = Segment(segmentTitle: string, script: string, songTitle: string, artistName: string)

  /** The parsed body of the generation response: an optional `error` field
      and the `segments` list. */
  datatype GenerateResponse = GenerateResponse(error: Option<string>, segments: seq<Segment>)

  /** How the awaited part of `generateProgram` ends: with a parsed body, or
      with a throw from `fetch` or `response.json()`. */
  datatype GenerateOutcome = Responded(response: GenerateResponse) | Threw

  /** The four state hooks of the page, as a value. */
  datatype State = State(segments: seq<Segment>, currentIndex: nat, isLoading: bool, isPlaying: bool)

  /** The atomic steps of the handlers. */
  datatype Event =
    | StartGeneration                          // generateProgram, up to the first await
    | SettleGeneration(outcome: GenerateOutcome) // generateProgram, try / catch / finally
    | AdvanceSegment                           // nextSegment
    | StartVoice                               // playVoice, up to the first await
    | AudioEnded                               // the audio element's onended callback
    | VoiceCaught                              // playVoice's catch block

  /** The `useState` initial values. */
  function Initial(): State
  {
    State([], 0, false, false)
  }

  /** `if (data.error)`: the field is present and its text is truthy. */
  predicate ErrorIsSet(r: GenerateResponse)
  {
    r.error.Some? && r.error.value != ""
  }

  /** The generation call ends on the `setSegments(data.segments)` path. */
  predicate Succeeded(o: GenerateOutcome)
  {
    o.Responded? && !ErrorIsSet(o.response)
  }

  /** `segments[currentIndex]`, which is `undefined` past the end. */
  function CurrentSegment(s: State): Option<Segment>
  {
    if s.currentIndex < |s.segments| then Some(s.segments[s.currentIndex]) else None
  }

  /** `segments[currentIndex]?.script`, with a missing segment read as "". */
  function CurrentScript(s: State): string
  {
    match CurrentSegment(s)
    case None => ""
    case Some(seg) => seg.script
  }

  /** `playVoice` gets past its `if (!currentScript) return;`. */
  predicate HasScript(s: State)
  {
    CurrentScript(s) != ""
  }

  /** The state invariant: with a program loaded the index is in bounds,
      without one it is 0; while a generation request is in flight no
      program is loaded. */
  predicate WellFormed(s: State)
  {
    (s.currentIndex == 0 || s.currentIndex < |s.segments|) &&
    (s.isLoading ==> s.segments == [] && s.currentIndex == 0)
  }

  /** When a step may run: the generate button is disabled while loading,
      the play button while playing, and the generation continuation runs
      only for the request in flight, which is exactly while loading. */
  predicate Enabled(s: State, e: Event)
  {
    match e
    case StartGeneration => !s.isLoading
    case SettleGeneration(_) => s.isLoading
    case StartVoice => !s.isPlaying
    case _ => true
  }

  /** The effect of one handler step on the four fields. Each field has its
      owners: only generation touches `segments` and `isLoading`, only
      generation and `nextSegment` touch `currentIndex`, only `playVoice`
      and its callbacks touch `isPlaying`. */
  function Step(s: State, e: Event): (r: State)
    ensures r.segments != s.segments ==> e.StartGeneration? || e.SettleGeneration?
    ensures r.currentIndex != s.currentIndex ==> e.StartGeneration? || e.AdvanceSegment?
    ensures r.isLoading != s.isLoading ==> e.StartGeneration? || e.SettleGeneration?
    ensures r.isPlaying != s.isPlaying ==> e.StartVoice? || e.AudioEnded? || e.VoiceCaught?
  {
    match e
    case StartGeneration =>
      s.(isLoading := true, segments := [], currentIndex := 0)
    case SettleGeneration(o) =>
      (if Succeeded(o) then s.(segments := o.response.segments) else s).(isLoading := false)
    case AdvanceSegment =>
      if s.currentIndex < |s.segments| - 1 then s.(currentIndex := s.currentIndex + 1) else s
    case StartVoice =>
      if HasScript(s) then s.(isPlaying := true) else s
    case AudioEnded =>
      s.(isPlaying := false)
    case VoiceCaught =>
      s.(isPlaying := false)
  }

  /** Every enabled step keeps the invariant. */
  lemma StepKeepsWellFormed(s: State, e: Event)
    requires WellFormed(s) && Enabled(s, e)
    ensures WellFormed(Step(s, e))
  {
  }

  /** The outcomes of a generation request: an error field or a throw leaves
      no program and index 0; success loads exactly the returned list at
      index 0; loading ends either way and playback is untouched. */
  lemma SettleOutcome(s: State, o: GenerateOutcome)
    requires WellFormed(s) && s.isLoading
    ensures var r := Step(s, SettleGeneration(o));
      !r.isLoading && r.currentIndex == 0 && r.isPlaying == s.isPlaying &&
      r.segments == (if Succeeded(o) then o.response.segments else [])
  {
  }

  /** `nextSegment` moves forward by exactly one under its guard and is a
      no-op otherwise, at the last index and on an empty program alike. */
  lemma AdvanceByOne(s: State)
    requires WellFormed(s)
    ensures var r := Step(s, AdvanceSegment);
      if s.currentIndex + 1 < |s.segments| then r == s.(currentIndex := s.currentIndex + 1)
      else r == s && (s.segments == [] || s.currentIndex == |s.segments| - 1)
  {
  }

  /** `isPlaying` is raised only by a `playVoice` that found a script, and
      lowered only by the audio's end or the caught failure. */
  lemma PlayingTransitions(s: State, e: Event)
    ensures !s.isPlaying && Step(s, e).isPlaying <==> !s.isPlaying && e.StartVoice? && HasScript(s)
    ensures s.isPlaying && !Step(s, e).isPlaying <==> s.isPlaying && (e.AudioEnded? || e.VoiceCaught?)
  {
  }

  /** The `Home` component's state hooks. Each method is one atomic step of a
      handler; its contract says the whole new state and ties it to `Step`. */
  class Home {
    var segments: seq<Segment>
    var currentIndex: nat
    var isLoading: bool
    var isPlaying: bool

    function Snapshot(): State
      reads this
    {
      State(segments, currentIndex, isLoading, isPlaying)
    }

    predicate Valid()
      reads this
    {
      WellFormed(Snapshot())
    }

    constructor ()
      ensures Valid() && Snapshot() == Initial()
    {
      segments := [];
      currentIndex := 0;
      isLoading := false;
      isPlaying := false;
    }

    /** `generateProgram` up to its first `await`. The button that calls it
        is disabled while loading. */
    method GenerateProgramStart()
      requires Valid() && !isLoading
      modifies this
      ensures Valid()
      ensures isLoading && segments == [] && currentIndex == 0 && isPlaying == old(isPlaying)
      ensures Snapshot() == Step(old(Snapshot()), StartGeneration)
    {
      isLoading := true;
      segments := [];
      currentIndex := 0;
    }

    /** `generateProgram` after its awaits: the `try` body from the error
        check on, the `catch`, and the `finally`. */
    method GenerateProgramSettle(outcome: GenerateOutcome)
      requires Valid() && isLoading
      modifies this
      ensures Valid()
      ensures !isLoading && currentIndex == 0 && isPlaying == old(isPlaying)
      ensures segments == (if Succeeded(outcome) then outcome.response.segments else [])
      ensures Snapshot() == Step(old(Snapshot()), SettleGeneration(outcome))
    {
      match outcome {
        case Responded(data) =>
          if !ErrorIsSet(data) {
            segments := data.segments;
          }
          // otherwise the error is thrown and caught: only logging and an alert
        case Threw =>
          // caught: only logging and an alert
      }
      // finally
      isLoading := false;
    }

    /** `nextSegment`: advance while a later segment exists. */
    method NextSegment()
      requires Valid()
      modifies this
      ensures Valid()
      ensures currentIndex == if old(currentIndex) < |segments| - 1 then old(currentIndex) + 1 else old(currentIndex)
      ensures segments == old(segments) && isLoading == old(isLoading) && isPlaying == old(isPlaying)
      ensures Snapshot() == Step(old(Snapshot()), AdvanceSegment)
    {
      if currentIndex < |segments| - 1 {
        currentIndex := currentIndex + 1;
      }
    }

    /** `playVoice` up to its first `await`. The button that calls it is
        disabled while playing. */
    method PlayVoiceStart()
      requires Valid() && !isPlaying
      modifies this
      ensures Valid()
      ensures isPlaying <==> old(currentIndex) < |old(segments)| && old(segments)[old(currentIndex)].script != ""
      ensures segments == old(segments) && currentIndex == old(currentIndex) && isLoading == old(isLoading)
      ensures Snapshot() == Step(old(Snapshot()), StartVoice)
    {
      var currentScript := CurrentScript(Snapshot());
      if currentScript == "" {
        return;
      }
      isPlaying := true;
    }

    /** The `onended` callback set on the audio element. */
    method OnAudioEnded()
      requires Valid()
      modifies this
      ensures Valid()
      ensures !isPlaying
      ensures segments == old(segments) && currentIndex == old(currentIndex) && isLoading == old(isLoading)
      ensures Snapshot() == Step(old(Snapshot()), AudioEnded)
    {
      isPlaying := false;
    }

    /** `playVoice`'s `catch`: an alert, then playback is marked stopped. */
    method PlayVoiceCatch()
      requires Valid()
      modifies this
      ensures Valid()
      ensures !isPlaying
      ensures segments == old(segments) && currentIndex == old(currentIndex) && isLoading == old(isLoading)
      ensures Snapshot() == Step(old(Snapshot()), VoiceCaught)
    {
      isPlaying := false;
    }
  }
}
