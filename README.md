# Road-safety racing game: a verified model of its game logic

The game is a browser driving game gated by road-safety quizzes. A start
quiz of two questions must be passed. Then a three-second countdown opens a
level. During play the player's car is steered left and right inside the
road strip while the score climbs by one per animation frame. When the score
passes `level * 1000` a level quiz appears. Passing it moves on to the next
level (the road gets faster); passing the level-3 quiz wins; failing any
level quiz ends the game.

This project models the four pieces of logic behind that:

- `game_rules.dfy` (module `GameRules`): the constants of the game
  component (canvas size, car width, road bounds, per-level speed) and its
  pure state updaters: the clamped car-position step, the arrow-key flags
  and the countdown step.
- `game.dfy` (module `GameComponent`): the class `Game`, holding the
  component's state fields (phase, countdown, level, score, car position,
  keys), with one method per event: key down/up, a countdown second, a
  playing frame, the two quiz verdicts and the reset. `Valid()` is the
  invariant every method keeps: level in 1..3, countdown in 1..3, car x in
  [40, 310], car y fixed at 500.
- `quiz.dfy` (module `QuizComponent`): the per-level question banks, the
  choice of at most five questions from a shuffled pool, the class `Quiz`
  with its answer cursor, and the percentage score with its 60% pass rule.
- `start_quiz.dfy` (module `StartQuizComponent`): the two start questions
  and the class `StartQuiz` with its running score.
- `road.dfy` (module `RoadComponent`): the three decorative traffic cars,
  updated in place in an array, and the scrolling phase of the lane
  markings. Positions are `real`. JavaScript's `%` keeps the sign of the
  dividend; it is written out as `JsRem`, next to the mathematical `Mod`.
- `wrappers.dfy` (module `Wrappers`): `Option`, used for "onComplete was
  (not) called"; and (module `Numbers`) the integer `Min` and `Max` shared
  by the car clamp and the question count.

The game has no collision detection. The traffic cars only wrap around the
canvas (src/components/Road.tsx:57-62), and the game reaches `GameOver` only
through a failed level quiz (src/components/Game.tsx:119-121). The model
follows the code.

## Model

| member | source | states |
|---|---|---|
| `GameRules.Clamp` | src/components/Game.tsx:82-85 | the result always lies in [40, 310]; an in-bounds x is kept, and x outside is pulled to the nearer edge |
| `GameRules.StepX` | src/components/Game.tsx:80-87 | after a frame x lies in [40, 310] whatever the keys and the previous x. With both arrows or neither held, an in-bounds x is unchanged. With only left held it moves left by 5 or stops at 40; with only right held it moves right by 5 or stops at 310 |
| `GameRules.HoldLeft` | src/components/Game.tsx:81-85 | holding only the left arrow for n frames puts the car at max(40, x - 5n): at the edge it stays at 40 (clamped, not wrapped) |
| `GameRules.HoldRight` | src/components/Game.tsx:81-85 | holding only the right arrow for n frames puts the car at min(310, x + 5n) |
| `GameRules.StepsStayInBounds` | src/components/Game.tsx:80-87 | no number of frames with any keys moves an in-bounds car out of [40, 310] |
| `GameRules.PressKey` | src/components/Game.tsx:42-45 | keydown sets the flag of the pressed arrow key only; any other key leaves both flags unchanged |
| `GameRules.ReleaseKey` | src/components/Game.tsx:47-50 | keyup clears the flag of the released arrow key only; any other key leaves both flags unchanged |
| `GameRules.ReleaseUndoesPress` | src/components/Game.tsx:42-50 | releasing an arrow key whose flag was clear restores the flags; other keys never change them |
| `GameRules.CountdownStep` | src/components/Game.tsx:64-70 | play starts exactly when the counter is at most 1; a counter in 1..3 stays in 1..3; otherwise the counter strictly drops |
| `GameRules.CountdownTakesCTicks` | src/components/Game.tsx:63-70 | from any counter value c ≥ 1 play starts after exactly c ticks, so 3, 2, 1, then playing |
| `GameRules.GameSpeed` | src/components/Game.tsx:17-21 | every level's road speed is positive |
| `GameRules.SpeedIncreases` | src/components/Game.tsx:17-21 | the per-level speeds strictly increase, 3 < 5 < 7 |
| `GameComponent.Game.constructor` | src/components/Game.tsx:28-37 | the initial state: phase initial, countdown 3, level 1, score 0, car at (175, 500), no key held |
| `GameComponent.Game.KeyDown` | src/components/Game.tsx:42-45 | the keydown listener applies the keydown updater to the flags and changes nothing else |
| `GameComponent.Game.KeyUp` | src/components/Game.tsx:47-50 | the keyup listener applies the keyup updater to the flags and changes nothing else |
| `GameComponent.Game.CountdownTimer` | src/components/Game.tsx:61-74 | outside the countdown phase nothing changes. In it, the counter steps down, and at 1 it goes back to 3 and the phase becomes playing. The invariant is kept |
| `GameComponent.Game.Tick` | src/components/Game.tsx:76-98 | outside play nothing changes. A playing frame steers and clamps x and raises the score by exactly 1. It switches to the quiz exactly when the score it read exceeds level * 1000. It never touches y or the level |
| `GameComponent.Game.HandleQuizComplete` | src/components/Game.tsx:110-122 | passed at level 3 gives victory with the level unchanged; passed below 3 gives level + 1 and a countdown; failed gives game over. The level stays in 1..3 |
| `GameComponent.Game.HandleStartQuizComplete` | src/components/Game.tsx:124-130 | passed starts the countdown and keeps everything else; failed resets to initial, level 1, score 0, car at (175, 500) |
| `GameComponent.Game.ResetGame` | src/components/Game.tsx:132-137 | back to the initial phase at level 1 with score 0 and the car at (175, 500) |
| `GameComponent.PlayLevel` | src/components/Game.tsx:61-98 | a level run from its countdown ends in the quiz phase at score level * 1000 + 2, with the level unchanged |
| `GameComponent.PerfectRun` | src/components/Game.tsx:91-122 | passing the start quiz and all three level quizzes ends in victory at level 3 with score 3002 |
| `QuizComponent.Pool` | src/components/Quiz.tsx:4-125 | the level pools hold 6, 3 and 3 distinct questions, each with a `correct` value that is a valid option index |
| `QuizComponent.SelectQuestions` | src/components/Quiz.tsx:138-143 | the asked questions are the first min(5, pool size) of the shuffled pool, and as a multiset they are contained in the pool |
| `QuizComponent.SelectionFromPool` | src/components/Quiz.tsx:138-143 | the selection has 5 questions for level 1 and 3 for levels 2 and 3. The questions are distinct, drawn from the level's pool, and each has a valid answer index |
| `QuizComponent.CorrectCount` | src/components/Quiz.tsx:156-159 | the number of answers that match their question's correct option never exceeds the number of answers |
| `QuizComponent.CorrectCountExtremes` | src/components/Quiz.tsx:156-159 | all answers right gives the full count; all answers wrong gives 0 |
| `QuizComponent.Percent` | src/components/Quiz.tsx:160 | c of n as a percentage: in [0, 100] when c ≤ n, 0 for none, 100 for all, and at least 60 exactly when 5c ≥ 3n |
| `QuizComponent.Score` | src/components/Quiz.tsx:156-169 | the score lies in [0, 100], and it passes (≥ 60) exactly when 5 · correct ≥ 3 · questions |
| `QuizComponent.PassExamples` | src/components/Quiz.tsx:167-169 | 2 of 3 passes and 1 of 3 fails; all answers right passes; all answers wrong fails |
| `QuizComponent.Quiz.constructor` | src/components/Quiz.tsx:133-143 | the quiz starts with the selected questions, the cursor at 0, no answers and no results shown |
| `QuizComponent.Quiz.HandleAnswer` | src/components/Quiz.tsx:145-154 | appends exactly one answer. Before the last question it advances the cursor by 1; on the last it shows the results. The cursor invariant (answers == cursor < questions, or all answered once shown) is kept |
| `QuizComponent.Quiz.Results` | src/components/Quiz.tsx:163-169 | results are computed on a non-empty question list; the score lies in [0, 100] and the verdict is passed exactly when 5 · correct ≥ 3 · questions |
| `StartQuizComponent.StartBankWellFormed` | src/components/StartQuiz.tsx:4-25 | there are two start questions, each with a valid option index as `correct` |
| `StartQuizComponent.RightCount` | src/components/StartQuiz.tsx:35-38 | the running score never exceeds the number of clicks |
| `StartQuizComponent.RightCountFull` | src/components/StartQuiz.tsx:36-43 | the running score equals the number of clicks exactly when every click was right |
| `StartQuizComponent.StartQuiz.constructor` | src/components/StartQuiz.tsx:31-33 | a mounted start quiz is on question 0 with score 0 |
| `StartQuizComponent.StartQuiz.HandleAnswer` | src/components/StartQuiz.tsx:35-46 | the score rises by 1 exactly when the answer is the current question's correct option, and never decreases or exceeds the clicks. Before the last question the cursor advances and nothing is reported; on the last, passed == (score == 2). At the first completion that means passed exactly when both answers were right |
| `StartQuizComponent.StartQuiz.HandleAnswerRestarting` | src/components/StartQuiz.tsx:35-46 | corrected behaviour: a verdict comes once per complete attempt. It is passed exactly when both answers of that attempt were right, and a failed attempt restarts at question 0 with score 0 |
| `StartQuizComponent.RetryWithoutFirstQuestion` | src/components/StartQuiz.tsx:40-45 | as written: clicks 0, 2 fail, and one more click on 2 is reported as passed |
| `StartQuizComponent.RetryRestarting` | src/components/StartQuiz.tsx:35-46 | with the corrected behaviour the same three clicks report nothing after the failure |
| `RoadComponent.Mod` | src/components/Road.tsx:59 | the mathematical remainder by a positive divisor lies in [0, b) |
| `RoadComponent.JsRem` | src/components/Road.tsx:59 | JavaScript `%`: for a ≥ 0 it is the remainder in [0, b); for a < 0 it is the negated remainder of -a, in (-b, 0] |
| `RoadComponent.JsRemOdd` | src/components/Road.tsx:59 | `(-a) % b == -(a % b)`: the remainder keeps the sign of the dividend |
| `RoadComponent.NextY` | src/components/Road.tsx:59-60 | a car's new y lies in [0, height] for any y and speed. For y + speed/2 ≥ 0 it is that value mod height, below height. The reset to height fires only for a negative sum |
| `RoadComponent.ForwardWraps` | src/components/Road.tsx:59-60 | for y ≥ 0 and speed ≥ 0 the new y is (y + speed/2) mod height, in [0, height), and the reset branch never fires |
| `RoadComponent.UpdatedCars` | src/components/Road.tsx:57-62 | the updated traffic keeps the length and order. Only each car's y changes; x, lane, speed and color are untouched, and every y lies in [0, height] |
| `RoadComponent.UpdateCars` | src/components/Road.tsx:57-62 | the in-place loop leaves the array equal to the updated traffic |
| `RoadComponent.NextOffset` | src/components/Road.tsx:108 | for a non-negative sum the new phase is (offset + speed) mod 40, in [0, 40); for a negative sum it lies in (-40, 0] |
| `RoadComponent.OffsetAfter` | src/components/Road.tsx:108 | from the start phase 4, a non-negative speed keeps the phase in [0, 40) on every frame |
| `RoadComponent.OffsetClosedForm` | src/components/Road.tsx:108 | after n frames the phase is (4 + n · speed) mod 40 |
| `RoadComponent.DashPositions` | src/components/Road.tsx:78-92 | the dash loop visits exactly offset, offset + 40, …: every value below height, and no further one |
| `RoadComponent.InitialCars` | src/components/Road.tsx:31-35 | three cars with speeds speed, speed + 2 and speed, in lanes 1 or 2; all are at least speed and positive when speed is positive |
| `RoadComponent.Road.constructor` | src/components/Road.tsx:27-35 | a mounted road starts with phase 4 and the initial traffic |
| `RoadComponent.Road.Frame` | src/components/Road.tsx:64-112 | one frame draws the cars at their pre-update positions and the dashes at the pre-update phase. Only then does the phase advance and the cars move |

## Left out

- Canvas drawing (`drawCar`, `fillRect`, strokes), the dash x positions (`width / 2.8`, `width / 1.6`), the dash length and the road-edge lines are left out as presentation. `Road.Frame` returns what is drawn: the cars and the dash y values, which both dashed lines share.
- `requestAnimationFrame`, `cancelAnimationFrame`, `setInterval` and listener registration are left out as scheduling and I/O. One frame, one timer second or one key event is one method call.
- React's effect re-subscription is not modelled. The tick is a function of the explicit state (keys, position, score, level), and the score it reads is the current one.
- The missing-canvas and missing-context guards of the road effect are left out.
- The `Math.random` shuffle is not modelled. The shuffled pool is a parameter: any permutation of the level's pool.
- IEEE-754 rounding is not modelled. `width / 1.3`, `speed / 2` and the percentage are exact reals, so the ≥ 60 boundary could differ under floating point.
- `QuizComponent.Pool` requires a level in 1..3. Any other level makes the source throw, and the game only passes 1..3, which `Game.Valid()` keeps.
- `RoadComponent.Road.constructor` requires a positive canvas height. A zero height makes `%` return NaN, which is not modelled; the game always uses 600.
- `QuizComponent.Quiz.HandleAnswer` requires that results are not shown, because the option buttons exist only while a question is on screen.
- The quiz's "Loading questions..." render before the selection effect is not modelled; the constructor performs the selection.
- The questions' `type` and `media` fields, the option texts' rendering and all JSX markup are left out as presentation.
- `Car.tsx`, `Fireworks.tsx`, `App.tsx`, `LevelList.tsx` and `storage.tsx` are not part of this model (3D rendering, confetti, mounting, a one-line unlock guard, local storage).

## Findings

| source | as written | input that shows it | evidently intended | confidence | as-written member | corrected member |
|---|---|---|---|---|---|---|
| src/components/StartQuiz.tsx:40-45 | After a failed verdict the game's reset (src/components/Game.tsx:128, 133) sets the phase to `'initial'`, which it already is, so the start quiz is not remounted. It stays on the last question with its score. Every further click is scored against that question and reported again | click option 0 on question 1 (wrong), option 2 on question 2 (right: reported failed), then option 2 again: reported passed, though question 1 was never answered right | a failed start quiz starts over from question 1 with score 0, and a verdict is about one complete attempt | medium (rests on React keeping the state of a component that stays in place); not executed | `StartQuizComponent.RetryWithoutFirstQuestion` | `StartQuizComponent.StartQuiz.HandleAnswerRestarting` |
