# Rumble membership survey — a verified model of the survey controller

The Rumble survey is a single-page app. A respondent picks a location, an
age range and a workout frequency, signs in anonymously, and answers eight
fixed "which bundle is better?" comparisons in a random order. The finished
session is then written to the `rumble_responses` collection of the store.
This project models the controller of that app (`src/App.jsx`) in Dafny and
proves what it guarantees:

- `questions.dfy` (module `Questions`) holds `FIXED_QUESTIONS`. It has eight
  comparison sets with identifiers 1 to 8. Each set has two bundles, and each
  bundle has five attribute levels. Every level is an enumeration value whose
  label function gives back the exact display string of the source. Lemmas
  state that the identifiers are 1 to 8 and that any arrangement of the bank
  carries each identifier once.
- `sequences.dfy` (module `Sequences`) holds generic facts about sequences
  and their multisets that the other modules use.
- `shuffle.dfy` (module `Shuffle`) models `shuffleArray`, the Fisher–Yates
  shuffle of a copy of the bank.
  - The random numbers are a parameter: `draws[k]` is the `j` drawn on the
    k-th pass of the loop, which handles index `i = n - 1 - k`, so
    `draws[k] <= i`. `ValidDraws` states this.
  - The function `Shuffled` is the reference definition, and the array
    method is proved against it.
  - Lemmas prove three facts. The result is a permutation of the input.
    Every permutation can be produced. On a repetition-free input, different
    draws give different results.
- `intake.dfy` (module `Intake`) covers two things.
  - The intro screen's start gate: `isComplete && isAuthReady`, where a
    field counts as complete when it is a non-empty string.
  - The `deviceType` heuristic `/Mobi/i.test(userAgent)`. It is a
    left-to-right search for "Mobi" that ignores ASCII case. This is exact
    for a JavaScript `i` regular expression without the `u` flag, because no
    non-ASCII character folds onto an ASCII letter.
- `controller.dfy` (module `Controller`) is the `App` component, written as a
  class with one field per piece of React state.
  - `Valid()` is the invariant every handler keeps. It links the screen to
    the data collected so far. On the survey and results screens, the queue
    is a permutation of the bank and the log answers the queue's first
    questions in order.
  - Each handler (`startSurvey`, `handleChoice`, `finishSurvey`,
    `resetSurvey`, the auth listener and the start button) is one atomic
    method.
  - Instead of performing the store write, `finishSurvey` returns the
    document it would write, as `Option<Submission>`.

Two behaviours of the code are easy to misread, and the model states them
as the code has them.

- There is no error or retry state. `finishSurvey` logs a failed write and
  swallows it, then always ends on the results screen with `isSubmitting`
  false. So the write outcome is a parameter of `FinishSurvey` that changes
  nothing. The submitting phase is the `isSubmitting` flag, which shows the
  loading screen while the write is awaited (src/App.jsx:464, 477, 492).
  Handlers are atomic in this model, so that phase never shows between
  handlers.
- A missing store does not let the respondent past the start gate. `user` is
  set only by the `onAuthStateChanged` listener, and that listener is
  registered only when the configuration is present (src/App.jsx:423).
  Without a store, `isAuthReady` therefore stays false and the start button
  never opens (`StartBlockedWithoutStore`).

## Model

| member | source | states |
|---|---|---|
| Questions.LabelsDistinguishLevels | src/App.jsx:27-164 | each attribute's label function is injective: different levels are shown as different strings |
| Questions.BankEntry | src/App.jsx:27-164 | entry `k` of `FIXED_QUESTIONS` has question identifier `k + 1` |
| Questions.BankIdentifiers | src/App.jsx:27-164 | the bank has eight sets (`TOTAL_QUESTIONS` is 8), their identifiers are 1 to 8 in order, and both the identifiers and the sets are pairwise distinct |
| Questions.IdsOfPermutation | src/App.jsx:172-179 | rearranging question sets rearranges their identifiers the same way (equal multisets) |
| Questions.BankArrangement | src/App.jsx:27-164 | any permutation of the bank has eight sets whose identifiers are 1 to 8, each exactly once |
| Shuffle.Swap | src/App.jsx:176 | the destructuring swap exchanges the elements at `i` and `j`, keeps the length, and leaves every other position as it was |
| Shuffle.Shuffled | src/App.jsx:172-179 | the reference outcome of `shuffleArray` for given draws; it keeps the length |
| Shuffle.ShuffledUnfold | src/App.jsx:174-177 | the first pass: the draw for the last index is within range, the last position receives `s[draws[0]]`, and the rest is the shuffle of the swapped prefix with the remaining draws |
| Shuffle.PassAt | src/App.jsx:174-177 | one loop pass at index `i`: swapping `i` with the drawn `j <= i` fixes position `i` and leaves the outcome of the remaining passes unchanged |
| Shuffle.ShuffleInPlace | src/App.jsx:174-177 | the loop over `i` from the last index down to 1 leaves the array equal to `Shuffled` of its old contents |
| Shuffle.ShuffleArray | src/App.jsx:172-179 | returns a fresh array equal to `Shuffled(input, draws)`, a permutation of the input; the input array is not changed |
| Shuffle.ShuffledIsPermutation | src/App.jsx:172-179 | the shuffle's result has the same elements with the same multiplicities as its input |
| Shuffle.EveryPermutationReachable | src/App.jsx:174-177 | for every permutation of the input, some admissible draws (each `j` in `[0, i]`) make the shuffle produce it |
| Shuffle.DrawsDetermineResult | src/App.jsx:174-177 | on an input without repeated elements, equal results imply equal draws, so admissible draws map one-to-one onto permutations |
| Intake.StartGate | src/App.jsx:248-250 | `IsComplete`, `IsAuthReady` and `CanStart` (src/App.jsx:190, 490): the click guard and the `disabled` attribute agree, and the gate is open exactly when all three answers are non-empty and a user is signed in |
| Intake.OfferedChoicesComplete | src/App.jsx:166-168 | choosing one offered location, age range and frequency completes the form, and the gate then opens exactly when a user is signed in |
| Intake.ContainsMobi | src/App.jsx:473 | `/Mobi/i` matches exactly when some position of the user agent holds "Mobi" up to ASCII case |
| Intake.DeviceType | src/App.jsx:473 | the device is `Mobile` exactly when the user agent contains "Mobi" in any mixture of case, `Desktop` otherwise |
| Intake.FoldAll | src/App.jsx:473 | folding a string keeps its length and folds each character in place |
| Intake.DeviceTypeIgnoresCase | src/App.jsx:473 | upper-casing the ASCII letters of the user agent never changes the device classification |
| Controller.CompletedLog | src/App.jsx:442-461 | a log that answers a whole permutation of the bank has eight records, identifiers 1 to 8 once each, order indices 1 to 8 in order |
| Controller.QueueDeterminesDraws | src/App.jsx:433-436 | two sessions get the same question order exactly when the shuffle drew the same numbers (the bank has no repeated set) |
| Controller.App.constructor | src/App.jsx:408-417 | the initial state: intro screen, no demographics, empty queue and log, index 0, no user, not submitting; the invariant holds |
| Controller.App.OnAuthStateChanged | src/App.jsx:421-431 | the listener, present only with a configured store, records the current user and changes nothing else |
| Controller.App.StartSurvey | src/App.jsx:433-440 | keeps the demographics, sets the queue to the shuffled bank (a permutation of it), index 0, empty log, survey screen; the user is unchanged |
| Controller.App.PressStart | src/App.jsx:248-250 | with a complete form and a signed-in user the survey starts as in `startSurvey` (demographics, shuffled queue, index 0, empty log, survey screen) and the user is kept; otherwise nothing changes |
| Controller.App.HandleChoice | src/App.jsx:442-461 | appends exactly one record (current identifier, 1-based order index, choice, the set as shown, time stamp); before the last question it advances the index, and on the last it runs `finishSurvey` on the new log; the queue, demographics and user are unchanged |
| Controller.App.FinishSurvey | src/App.jsx:463-480 | hands over a submission with the user, demographics, final log and device type exactly when the store is configured and a user is signed in; every path ends on the results screen, not submitting |
| Controller.App.ResetSurvey | src/App.jsx:482-488 | back to the intro screen with demographics, log, queue and index cleared; the user stays |
| Controller.FinishedSession | src/App.jsx:463-480 | on the results screen the log has answered all eight questions once each, numbered 1 to 8 in order |
| Controller.StartBlockedWithoutStore | src/App.jsx:421-431 | without a configured store no user is ever signed in, so the start gate stays closed whatever the form holds |

## Left out

- Firebase initialisation, anonymous sign-in and the listener's unsubscribe are left out. The model keeps only their effect: the user becomes
  `Some(uid)` or `None` through `OnAuthStateChanged`.
- `Math.random` is replaced by the `draws` parameter, restricted to the values `Math.floor(Math.random() * (i + 1))` can take. Probabilities, and
  therefore the uniformity of the shuffle, are not modelled. The one-to-one correspondence between admissible draws and permutations is proved
  instead.
- `new Date().toISOString()` is replaced by a time stamp parameter whose value is never inspected. `serverTimestamp()` (the `completedAt` field of
  the submission) is not part of the model.
- The store write (`addDoc`) is replaced by the submission value that `FinishSurvey` returns. Its failure is a `WriteOutcome` parameter that, as
  in the source, changes no state. The `console.error` calls are left out.
- React's asynchronous state updates are not modelled, and neither are stale closures. Each handler runs as one atomic step. So the model does
  not capture two clicks that both read the same `currentQuestionIndex` before a re-render, or the loading screen shown while `isSubmitting`
  holds during the write. Between handlers, `isSubmitting` is always false.
- `window.scrollTo` is not modelled, and neither are the progress bar, the percentage display or other rendering. The results screen's
  completion code and summary are not part of this model.
- `IntroScreen`'s own form state is not modelled. `PressStart` receives the form as it stands when the button is pressed.
