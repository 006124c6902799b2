# Time Slip DJ: the broadcast page's session state

Time Slip DJ generates a four-corner retro radio programme for a chosen year and
month. The programme is shown one corner at a time. Each corner's talk can be
read aloud, and its track can be looked up in Apple Music. This project models
the page's client-side state machine, the `Home` component of `app/page.tsx`.

Its state is four hooks:

- `segments`: the corners, each with a title, a script, a song title and an artist name.
- `currentIndex`: the corner on display.
- `isLoading`: a generation request is in flight.
- `isPlaying`: a voice playback is in progress.

The handlers change that state step by step. Every `await` ends one atomic
transition, so each handler becomes one or more events:

- `generateProgram` has a start step and a settle step. The settle step is
  what runs after its last `await`: the rest of the `try`, the `catch` and
  the `finally`.
- `nextSegment` is a single step.
- `playVoice` has a start step, then either the audio's `onended` callback or its `catch`.

When it renders, the page derives three things from the state: whether the
player is shown, which progress bars are filled, and whether the "next" button
is shown. `openAppleMusic` builds the Apple Music search term from the same
state when its button is clicked.

Files:

- `page.dfy` (module `Page`) holds the data, the invariant `WellFormed`, the
  step function `Step` and the class `Home`. `Home` has the four fields and one
  method per atomic step. Each method states the whole new state and equals
  `Step` applied to the old state.
- `render.dfy` (module `Render`) holds the render predicates and the search
  term built by `openAppleMusic`, with lemmas about them.
- `traces.dfy` (module `Traces`) covers runs: any interleaving of clicks and
  browser continuations. A `Session` counts the continuations still owed, so a
  continuation is delivered only for a call in flight. The invariant holds on
  every run from page load.

The network calls and browser effects are not modelled. These are `fetch`,
`response.json()`, `blob()`, `new Audio`, `play()`, `window.open`, `alert` and
`console.error`. A `GenerateOutcome` stands for what the generation calls
produce: a parsed body (with or without an `error` field) or a throw. The voice
continuations are the events `AudioEnded` and `VoiceCaught`.

## Model

| member | source | states |
|---|---|---|
| Page.Step | app/page.tsx:14-74 | Each field has fixed owners. Only the generation steps change `segments` and `isLoading`. Only generation and `nextSegment` change `currentIndex`. Only `playVoice` and its callbacks change `isPlaying`. |
| Page.StepKeepsWellFormed | app/page.tsx:9-74 | Every enabled step keeps the invariant: index in bounds when a programme is loaded, 0 when none is, and no programme while loading. The settle case needs the guard "only while loading" from `Enabled`. `Traces.DeliverKeepsConsistent` derives that guard from the calls in flight. |
| Page.SettleOutcome | app/page.tsx:24-33 | From a loading state, an `error` field or a throw leaves `segments` empty. Success sets `segments` to exactly the returned list. In all cases the index is 0, `isLoading` ends false and `isPlaying` is unchanged. `ErrorIsSet` and `Succeeded` model the truthiness test `if (data.error)` at line 25: the field is present and not the empty string. |
| Page.AdvanceByOne | app/page.tsx:70-74 | `nextSegment` adds exactly one to the index when a later segment exists and changes nothing else. It is a no-op at the last index and on an empty programme. |
| Page.PlayingTransitions | app/page.tsx:38-58 | `isPlaying` rises only on a `playVoice` that found a non-empty script. It falls only on the audio's end or the caught failure. Both directions are stated as iff. |
| Page.Home.constructor | app/page.tsx:8-11 | The initial state: no segments, index 0, not loading, not playing. |
| Page.Home.GenerateProgramStart | app/page.tsx:14-17 | Sets loading, clears the segments and resets the index to 0. Requires not loading, since the generate button is disabled while loading (line 97). |
| Page.Home.GenerateProgramSettle | app/page.tsx:18-33 | On success `segments` is the returned list, otherwise empty. The index is 0 and `isLoading` is false. Requires loading: the continuation belongs to the request in flight. |
| Page.Home.NextSegment | app/page.tsx:70-74 | The index rises by one under the guard `currentIndex < segments.length - 1`, else stays. Other fields are unchanged and the invariant is kept. |
| Page.Home.PlayVoiceStart | app/page.tsx:37-41 | `isPlaying` becomes true exactly when the current segment exists and has a non-empty script. Otherwise nothing changes. Requires not playing, since the play button is disabled while playing (line 122). `CurrentScript` and `HasScript` model `segments[currentIndex]?.script` and the early return at lines 38-39. |
| Page.Home.OnAudioEnded | app/page.tsx:53 | The audio's end clears `isPlaying` and leaves the rest unchanged. |
| Page.Home.PlayVoiceCatch | app/page.tsx:55-58 | A caught failure clears `isPlaying` and leaves the rest unchanged. |
| Render.PlayerVisible | app/page.tsx:106 | `segments.length > 0 && currentSegment` holds exactly when the index is in range. The length test adds nothing. `CurrentSegment` models `segments[currentIndex]` at line 76, which is `undefined` past the end. |
| Render.PlayerVisibleIffLoaded | app/page.tsx:106 | Under the invariant, the player is shown exactly when `segments` is non-empty. |
| Render.CountThreshold | app/page.tsx:110-111 | Bars filled by the threshold `idx <= k` number `min(count, k + 1)`. |
| Render.FilledBars | app/page.tsx:110-111 | With the index in bounds, exactly `currentIndex + 1` bars are filled. The filled bars are a prefix, and the current bar is filled. `ProgressBars` models the `segments.map` at line 111: bar `idx` is filled when `idx <= currentIndex`. |
| Render.NextVisibleIffAdvances | app/page.tsx:142 | The next button is shown exactly when pressing it changes the state. It is only shown inside the player. `NextVisible` models the condition `currentIndex < segments.length - 1` at line 142. |
| Render.SearchTermShape | app/page.tsx:62-65 | A search term exists exactly when the player is shown. It is the artist name, one space, then the song title. `SearchTerm` models lines 62-65: None where the handler returns early, otherwise the template string. |
| Traces.DeliverKeepsConsistent | app/page.tsx:9-74 | Every event keeps the session invariant. An event that happens is one the page's steps allow, so a generation continuation runs only while loading. |
| Traces.RunKeepsConsistent | app/page.tsx:9-74 | The invariant holds after any run of events. |
| Traces.ReachableInBounds | app/page.tsx:9-74 | On every run from page load, a loaded programme has its index in bounds and an empty one has index 0. At most one generation and one voice are in flight. |
| Traces.LoadingUntilSettled | app/page.tsx:15-17 | Until the generation continuation runs, whatever the user does, the page stays loading with no programme at index 0. |
| Traces.GenerationSteps | app/page.tsx:14-33 | Start, any user activity, then settle leaves a finished load at index 0. The segments are the returned list on success and empty on an error field or a throw. |
| Traces.RepeatedAdvance | app/page.tsx:70-74 | Pressing next `k` times raises the index by `k`, capped at the last segment. Nothing else changes. |
| Traces.OneSegmentScenario | app/page.tsx:24-27 | A one-corner programme loads at index 0. The player is shown, next is not, and the search term is "Mr.Children Tomorrow never knows". |

## Left out

- Network and browser effects are left out because they are I/O. These are
  `fetch`, `response.json()`, `blob()`, `URL.createObjectURL`, `new Audio`,
  `audio.play()`, `window.open`, `encodeURIComponent`, `alert` and
  `console.error`.
- Their outcomes are abstract. A generation ends with a parsed body or a throw.
  A voice ends with the `AudioEnded` or `VoiceCaught` event.
- The `playVoice` continuations after `fetch` and after `blob()` change none of
  the four fields, so they are not separate events.
- The `generateProgram` continuation after `fetch` changes none of the four
  fields, so it is not a separate event. A throw at either `await` is the
  `Threw` outcome.
- `playVoice` never checks `response.ok`. It does not await `audio.play()`, so a
  rejected `play()` is not caught. Then no event clears `isPlaying`, and the
  model does not claim that `isPlaying` always returns to false.
- A generation body with no `error` and no `segments` key would set `segments`
  to `undefined` in the source. In the model a `GenerateResponse` always carries
  a list of well-formed segments.
- A missing `script` and an empty one are both modelled as the empty string.
  Both are falsy to `playVoice`. The search term of a segment with a missing
  artist or title, which JavaScript would render as "undefined", is not modelled.
- `Page.Home.GenerateProgramStart`, `Page.Home.PlayVoiceStart`: the requires
  "not loading" / "not playing" stand for the disabled buttons (lines 97 and 122).
  A handler called directly while a call is in flight is not modelled.
- React's batching, stale closures and render scheduling are ignored. Each
  handler step is one atomic transition on the fields.
- The year and month selectors (lines 6-7, 89-94) are left out. They only choose
  the request body, and the model abstracts the request away.
- JSX markup and styling are left out, including the fixed "/ 4" corner label
  (line 117).
- The generation, speech and video-search API routes are not part of this model.
  They are thin wrappers over external services.
