# 12 Months of Us — playback model

"12 Months of Us" is a one-page web app. It walks through a list of months. Each month is shown as five
fixed steps: a title card, a collection mini-game, a question, a reveal and an image. After the last
month comes an ending screen. This project models the playback state of the app's `TwelveMonthsApp`
class, with the DOM, the animations and the data loading stripped away, and proves what that state
machine promises.

- `wrappers.dfy` — `Option`, which stands for JavaScript's `null` / `undefined`.
- `month_rules.dfy` (module `MonthRules`) — the pure rules:
  - the five-step list and the `nextStep` bound;
  - the emoji set chosen by a month's game type, with the fallback to hearts;
  - the class of each of the 12 progress dots;
  - the label of the next-month button;
  - the two texts of the reveal step;
  - the counting of collected tokens.
- `app.dfy` (module `Playback`) — the class `TwelveMonthsApp`, whose fields the methods update in place:
  - `currentMonth`, `currentStep`, `selectedAnswer`, `gameCollected`, `gameTarget` (5);
  - the tokens of the game area, with a collected flag each;
  - the progress-dot classes, the next-button text and the reveal texts;
  - the `started` and `ended` flags;
  - the queue of pending timer callbacks.

  The handlers and timer callbacks that change the playback state are methods. The handlers are the
  start button, a title or reveal click, the next-month button, an answer button and a token click. The
  callbacks are the 500 ms answer reveal, the 1200 ms advance after it and the 500 ms advance after a
  won game. The environment calls these methods. A callback can only fire while it is pending, and pending callbacks may fire in any
  order.

`Valid()` is the class invariant that every method keeps. It says:
- the step lies in [0, 4];
- at most `gameTarget` tokens exist;
- `gameCollected` never exceeds the number of collected tokens, so it never exceeds `gameTarget`;
- each game schedules at most one post-game advance.

Notes on the code's own behaviour, kept in the model:
- The answer latch is JavaScript truthiness. A recorded key of `""` is falsy, so it does not latch, and a
  second answer is then accepted. `SelectAnswer` states this: every non-empty key latches.
- Loading a month index past the end only sets `ended`. Month, step, answer and count keep their values,
  and nothing ever clears `ended`.
- Only `startGame` clears the game area. Loading a month resets `gameCollected` to 0 and leaves the old
  tokens in place.
- The page creates 12 progress dots, whatever the number of months.

## Model

| member | source | states |
|---|---|---|
| `Playback.TwelveMonthsApp.constructor` | script/main.js:4-10 | starts on month 0, step 0, no answer, count 0, target 5, no tokens, no pending timers, not ended |
| `Playback.TwelveMonthsApp.StartJourney` | script/main.js:117-122 | leaves the intro and loads month 0 with its dots and next label; with no months, goes straight to the ending and leaves month, step, answer, count, dots and label unchanged |
| `Playback.TwelveMonthsApp.LoadMonth` | script/main.js:124-147 | index past the last month: sets `ended` and leaves month, step, answer and count unchanged; otherwise sets month = index, step 0, no answer, count 0, the dots and the next label for that month; does not touch tokens or timers |
| `Playback.TwelveMonthsApp.ShowEnding` | script/main.js:363-366 | the ending screen is shown |
| `Playback.TwelveMonthsApp.PopulateMonthData` | script/main.js:172-178 | the next-month button shows the ending text exactly when the current month is the last one |
| `Playback.TwelveMonthsApp.UpdateProgressDots` | script/main.js:74-84 | after the loop, every dot carries the class of its position relative to the current month |
| `Playback.TwelveMonthsApp.ShowStep` | script/main.js:240-243 | showing the game step starts a fresh game; any other step changes no state |
| `Playback.TwelveMonthsApp.NextStep` | script/main.js:266-271 | the step grows by exactly one below the last step and stays at the last step; entering the game step starts a game; nothing else changes |
| `Playback.TwelveMonthsApp.NextMonth` | script/main.js:273-283 | moves to month + 1 at step 0 with a fresh answer and count and that month's dots and next label, or to the ending after the last month with everything else unchanged, so months are visited in order |
| `Playback.TwelveMonthsApp.SelectAnswer` | script/main.js:195-204 | a latched (truthy) selection makes the call a no-op; otherwise records the key and schedules exactly one reveal; any non-empty key latches |
| `Playback.TwelveMonthsApp.FireRevealTimer` | script/main.js:204-217 | writes the chosen and the correct answer texts of the current month into the reveal step and schedules the advance |
| `Playback.TwelveMonthsApp.FireAdvanceTimer` | script/main.js:214-217 | runs `nextStep` for the 1200 ms advance after the reveal and for the 500 ms post-game advance (line 339): the step advances by one up to the last step, entering the game step starts a game, and the fired timer leaves the queue |
| `Playback.TwelveMonthsApp.StartGame` | script/main.js:286-303 | the count is 0, exactly `gameTarget` uncollected tokens exist, the emoji set is the one for the month's game type, and no advance is scheduled |
| `Playback.TwelveMonthsApp.CollectToken` | script/main.js:327-341 | a collected token ignores the click; an uncollected one is marked and the count grows by exactly one; the advance is scheduled exactly on the click that reaches the target; the count stays at most the target |
| `MonthRules.StepAt` | script/main.js:26 | step positions 0..4 and step kinds are in one-to-one correspondence (Title, Game, Question, Reveal, Image) |
| `MonthRules.StepIndexInverse` | script/main.js:26 | every step kind sits at the position that maps back to it |
| `MonthRules.NextStepIndex` | script/main.js:266-271 | the next step index is one more below the last step, stays at the last step, and never leaves [0, 4] |
| `MonthRules.GameEmojis` | script/main.js:305-313 | the named set for a known game type, the hearts set for any other; every set has 5 emoji |
| `MonthRules.GameEmojisFallback` | script/main.js:305-313 | a game type gets the hearts set if and only if it is not `flowers`, `bubbles` or `stars` |
| `MonthRules.DotClass` | script/main.js:76-83 | a dot is completed iff its index is below the current month, current iff equal, plain iff above |
| `MonthRules.DotsAt` | script/main.js:76-83 | every dot of the list carries the class of its own index |
| `MonthRules.CurrentDotCount` | script/main.js:66-83 | among the first n dots exactly one is current when the month is below n, none otherwise |
| `MonthRules.CompletedDotCount` | script/main.js:66-83 | among the first n dots the completed ones number min(month, n) |
| `MonthRules.ProgressDotsCurrent` | script/main.js:64-84 | of the 12 dots exactly one is current when the month is below 12, and the months before it are completed |
| `MonthRules.NextButtonLabel` | script/main.js:172-178 | the label is one of the two texts; for a loaded month it is the ending text iff the next month does not exist |
| `MonthRules.RevealFor` | script/main.js:220-228 | the chosen text and the correct text both come from the same month's answer mapping; each is absent iff its key is missing |
| `MonthRules.RevealAgreesIffCorrect` | script/main.js:220-228 | when the answer texts are distinct, the two boxes show the same text iff the chosen key is the correct one |
| `MonthRules.CollectedCount` | script/main.js:328-331 | the number of collected tokens never exceeds the number of tokens |
| `MonthRules.NoneCollected` | script/main.js:291-302 | freshly spawned tokens have a collected count of 0 |
| `MonthRules.CollectOne` | script/main.js:328-331 | marking a token adds one to the collected count when it was uncollected, nothing otherwise |

## Left out

- DOM work is not modelled beyond the state it shows. That covers element queries, class toggling,
  `innerHTML` and `textContent` writes, the answer buttons' order, and event-listener wiring.
- Animations (`gsap`, the CSS zoom reset and its 50 ms restart timer) are foreign library calls.
- `NextMonth` loads the next month at once, with no 0.4 s fade before it. In the page the load runs
  when the fade completes and reads `currentMonth` only then. Two clicks within 0.4 s therefore load
  month + 1 and then month + 2, skipping a month. The model, which loads on each click, does not
  capture that skip.
- The `fetch('months.json')` at start-up is I/O. The constructor takes the month list as a parameter,
  and the failure path (no data, nothing shown) is not modelled. Themes and the display-only month
  fields (name, year, title, caption, image) are not modelled either.
- `StartGame`: the source spawns each token from its own timer, 400 ms apart. The model spawns all
  `gameTarget` tokens inside the loop, so it does not capture clicks between two spawns.
- Randomness is not modelled: the emoji picked for each token and its position. Every pick is an index
  below 5 into `gameEmojis`, which has exactly 5 entries.
- The progress-bar percentage is floating point and is not modelled.
- The gift button's `window.location` redirect and the ending collage are not modelled.
- Timer delays are not modelled. Pending callbacks may fire in any order, and nothing is proved about
  stale callbacks firing in a later month.
- `GameEmojis`: the source looks the game type up in a plain object. Keys inherited from
  `Object.prototype`, such as `constructor`, yield a non-array there. The model treats them as unknown
  types (hearts).
- `NextStep`, `StartGame`, `FireRevealTimer` and `FireAdvanceTimer` require a non-empty month list.
  With no months, the source reads `months[currentMonth]` as `undefined` and would throw.
- `Playback.TwelveMonthsApp.FireRevealTimer`: the page's highlighting of the correct answer button is
  DOM work and is not modelled.
- The heart icon markup around the correct answer text is decoration and is not modelled.
