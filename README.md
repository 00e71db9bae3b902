# Cricket hero quest: game-state model

This project models the game logic of the cricket hero quest web game in Dafny. The game has three game screens, a reusable countdown badge, a fixed player roster and a results screen:

- **Batting session** (`batting.dfy`, module `Batting`). The `useBattingGame` hook keeps one state record. A 3-second pre-game countdown runs first. A 5-second between-ball timer releases each ball. Each delivery's speed is drawn from its difficulty's range and converted to an on-screen travel time against a real 20.12 m pitch. The field's measured size gives a speed ratio. The hook's bat-drag handler registers a hit when bat and ball centres are under 80 px apart, and a hit scores 0-6 runs on vertical timing. The shipped bat component never calls that handler, so the game as shipped records no hits (see the facts below). The flight's completion closes the ball. It is meant to record a 0 for a miss, but as written it records a 0 when the swing flag captured at the ball's release is false, and that is the previous ball's flag (see Findings). The hook is a class holding the record as one field. Each handler, tick and animation completion is a method whose `ensures` gives the new record as an update of the old one. `Valid()` and `ScoresTrackBalls()` are the invariants the methods keep.
- **Bowling session** (`bowling.dfy`, module `Bowling`). A countdown runs first. A drag on the ball sets the speed from the drag's length and the accuracy from the release point's distance to the field's centre. One performance record is appended per ball, and the records are handed over after six balls. The state fields are the fields of a class.
- **Stick cricket** (`stick_cricket.dfy`, module `StickCricket`). There is a score, wickets and a game-over flag. A swing scores 0-6 random runs, and 0 runs is out. A ball left alone is meant to be out half the time, but as written its miss is never resolved and the ball stays live until the player swings (see Findings). The third wicket ends the game, and Play Again is offered only then. The model proves that wickets never exceed three and that, between balls, the game is over exactly when three have fallen.
- **Countdown timer** (`countdown_timer.dfy`, module `Countdown`). The badge counts `timeLeft` down once a second while running and calls `onComplete` at zero. Its props restart it when they change. It also has `start`, `stop` and `reset`. A pure step function `Advance` specifies the `Tick` method. The lemmas about `Advance` show that completion comes after exactly `duration` ticks.
- **Players** (`players.dfy`, module `Players`). The shipped batsman and bowler rosters come with `getRandomPlayers`: the difficulty pools are slices of the roster, with a single random pick or a shuffled multi-pick. `findMatchingPlayer` is modelled too.
- **Results** (`results.dfy`, module `Results`). The results screen reads the router state with its defaults. It averages scores, speeds and accuracies, guarding the empty case. It then asks the matcher for a batsman or a bowler.

`common.dfy` (module `Common`) holds the shared shapes: an option type, points, measured boxes, and `Math.min`/`Math.max`/`Math.abs`.

Modelling conventions:
- Each `Math.random()` value is a parameter `r` with `0 <= r < 1`, and `Math.floor` is `.Floor`.
- JavaScript numbers are `real`s.
- A Euclidean distance is a parameter `distance` constrained by `IsLength` (`distance >= 0` and `distance² = dx² + dy²`), so no square root is needed.
- A measured element box is an `Option<Rect>`, absent when the element is not mounted.
- Navigation to the results screen becomes a returned payload (`BattingResults`, `BowlingResults`).
- React callbacks read state from the render that created them. Where that matters, the captured value is an explicit field:
  - `releaseBatSwung` in the batting session;
  - `startWickets` and `startCanHit` in stick cricket;
  - `thrown` in bowling, which holds the speed and accuracy fixed at release.

Facts about the code that a reader might not expect:
- **Bowled speed.** A bowled ball's speed is `min(100, distance / 5)` of the drag length, whatever the difficulty. There are no gesture phases or power thresholds.
- **Batting hand-off.** The batting session never hands its scores to the results screen (see Findings).
- **Bat drag.** `Batting.BattingSession.HandleBatDrag` models the hook's drag handler (src/hooks/useBattingGame.ts:212-247). The batting screen passes it to the bat as `onDrag` (src/pages/BattingGame.tsx:84-92), but the bat component accepts only `className` and `onClick` and is not draggable (src/components/CricketBat.tsx:6-18). So in the shipped game the handler never runs and no ball is hit. The model keeps the handler as the hook defines it.
- **Speed ratio.** The batting session stores the speed ratio, and no delivery reads it.
- **Bowling over.** The ball that takes the bowling drag is shown only once the countdown is over and while no ball is out, and the screen is left once six balls are bowled. `HandleDragStart` requires the countdown to be over and the over unfinished. With a ball already out it changes nothing. The session's invariant keeps an over at six balls or fewer.

## Model

| member | source | states |
|---|---|---|
| Players.Roster | src/data/playerData.ts:150 | a 'batsman' query searches the three batsmen and every other role the three bowlers; every listed player has the roster's role (bowler for any non-batsman query) |
| Players.Slice | src/data/playerData.ts:155-157 | JavaScript slice semantics: both bounds clamped to the length, an inverted range empty, elements taken in order from `start` |
| Players.Pool | src/data/playerData.ts:154-160 | each difficulty pool holds only roster players; with two or more players easy and medium hold one and hard holds the rest |
| Players.PoolsPartition | src/data/playerData.ts:154-158 | the easy, medium and hard pools concatenated are exactly the roster, in order, for every roster |
| Players.PoolsDisjoint | src/data/playerData.ts:154-158 | with the shipped rosters no player is in two difficulty pools |
| Players.PoolsAreSingletons | src/data/playerData.ts:154-158 | with the shipped rosters every pool holds exactly one player |
| Players.RandomIndex | src/data/playerData.ts:169 | `floor(r * n)` is a valid index for every draw |
| Players.RandomIndexCovers | src/data/playerData.ts:169 | every index can be drawn (the draw k/n picks k) |
| Players.GetRandomPlayers | src/data/playerData.ts:145-170 | a single pick returns one player; a multi-pick returns min(count, pool size) distinct players; every player returned is from the difficulty's pool and has the role searched for |
| Players.ShuffledPrefixDistinct | src/data/playerData.ts:163-165 | a prefix of a shuffle of distinct players has no repeats |
| Players.OpponentIsDetermined | src/data/playerData.ts:160-169 | with the shipped rosters the random draw of a single pick makes no difference: a difficulty always yields its pool's one player |
| Players.FindMatchingPlayer | src/data/playerData.ts:173-182 | the match is a member of the role's roster with that roster's role |
| Players.EveryPlayerCanMatch | src/data/playerData.ts:177-181 | whatever the metrics, every roster player is the match for some draw |
| Batting.MeasureField | src/hooks/useBattingGame.ts:64-69 | the field size is the box's smaller side, the pitch is 70% of it, and speed ratio times pitch length is 20120 (real pitch centimetres at 10 px per cm) |
| Batting.ThousandPixelField | src/hooks/useBattingGame.ts:65-69 | a 1000 px field draws a 700 px pitch, with ratio times 700 equal to 20120 |
| Batting.HalvingFieldDoublesRatio | src/hooks/useBattingGame.ts:65-69 | halving the field's box doubles the speed ratio |
| Batting.SpeedRangeFor | src/hooks/useBattingGame.ts:54-58 | each difficulty's speed range starts at 100 km/h or more and is 20 km/h wide |
| Batting.SpeedRangesOrdered | src/hooks/useBattingGame.ts:54-58 | every medium speed beats every easy one and every hard speed every medium one |
| Batting.DeliverySpeed | src/hooks/useBattingGame.ts:171-172 | the drawn speed lies in the difficulty's half-open range |
| Batting.RealTravelTime | src/hooks/useBattingGame.ts:174-176 | travel time times speed (km/h) equals 20.12 m times 3.6 |
| Batting.TravelTime | src/hooks/useBattingGame.ts:178 | the on-screen time is the larger of 3 s and a third of the real time, so it is always at least 3 s |
| Batting.TravelTimeIsAlwaysFloor | src/hooks/useBattingGame.ts:171-178 | for every difficulty and draw the 3 s floor decides: each ball takes exactly 3 s |
| Batting.HorizontalOffset | src/hooks/useBattingGame.ts:183 | the sideways offset lies in [-10, 10) px |
| Batting.NewDelivery | src/hooks/useBattingGame.ts:171-183 | a delivery's speed is in range, its travel time is 3 s and its offset within 10 px |
| Batting.TimingScore | src/hooks/useBattingGame.ts:237-241 | the score is in [0, 6], and it is 6 exactly when the vertical offset is within 35 px of the perfect 20 px |
| Batting.TimingScoreFallsOff | src/hooks/useBattingGame.ts:241 | an offset further from the perfect one never scores more |
| Batting.HitScoresFiveOrSix | src/hooks/useBattingGame.ts:224-241 | with centres under 80 px apart the timing score is 5 or 6 |
| Batting.BattingSession.constructor | src/hooks/useBattingGame.ts:31-47 | the initial record: ball 0, no scores, countdown 3, ball timer 5, speed ratio 1; the invariants hold |
| Batting.BattingSession.ChooseOpponent | src/hooks/useBattingGame.ts:91-93 | only the opponent changes, to the single pick of a bowler from the difficulty's pool |
| Batting.BattingSession.UpdateFieldSize | src/hooks/useBattingGame.ts:62-79 | an unmounted field changes nothing; otherwise only the three geometry fields change, to the measured values |
| Batting.BattingSession.CountdownTick | src/hooks/useBattingGame.ts:95-102 | at 1 or below the countdown becomes 0 and the game starts; otherwise only the countdown drops by 1 |
| Batting.BattingSession.StartNewBall | src/hooks/useBattingGame.ts:150-183 | after six balls it returns the scores, difficulty and opponent and changes nothing; otherwise it releases a ball (playing, shown, not swung, trail on) with a delivery drawn for the difficulty |
| Batting.BattingSession.BallTimerTick | src/hooks/useBattingGame.ts:133-147 | outside the waiting state nothing changes; otherwise the timer drops by 1 or at 1 resets to 5 and releases a ball; as written it never hands the scores over |
| Batting.BattingSession.BallTimerTickFixed | src/hooks/useBattingGame.ts:133-159 | the intended timer: it hands over exactly when the waiting timer expires with six balls played, carrying the scores, difficulty and opponent |
| Batting.BattingSession.CompleteFlight | src/hooks/useBattingGame.ts:193-209 | as written: a 0 is appended when the previous ball's captured swing flag is false; then the ball closes, the ball count rises by 1 and the timer resets |
| Batting.BattingSession.CompleteFlightFixed | src/hooks/useBattingGame.ts:193-209 | the intended completion: a 0 exactly for an unhit ball, keeping one score per ball |
| Batting.BattingSession.HandleBatDrag | src/hooks/useBattingGame.ts:212-247 | a hit is registered exactly for a ball in flight, not yet hit, with both boxes measured and centres under 80 px apart; it appends the timing score (5 or 6) once and marks the ball hit; anything else changes nothing |
| Batting.BattingSession.HitAnimationDone | src/hooks/useBattingGame.ts:254-258 | only the ball is hidden |
| Batting.ReleaseNextBall | src/hooks/useBattingGame.ts:133-169 | five timer ticks from a full timer release the next ball |
| Batting.MissThenHit | src/hooks/useBattingGame.ts:150-209 | as written, a miss then a hit leaves three scores after two balls |
| Batting.MissThenHitFixed | src/hooks/useBattingGame.ts:150-209 | with the intended completion the same two balls leave two scores |
| Batting.AlternatingOver | src/hooks/useBattingGame.ts:150-209 | as written, an over alternating misses and hits leaves seven scores for six balls |
| Batting.AlternatingOverFixed | src/hooks/useBattingGame.ts:150-209 | with the intended completion the same over leaves exactly six scores |
| Bowling.BowlSpeed | src/pages/BowlingGame.tsx:83-89 | the speed lies in [0, 100], is 100 from a 500 px drag on, and is a fifth of the drag length below that |
| Bowling.BowlSpeedMonotonic | src/pages/BowlingGame.tsx:89 | a longer drag never bowls slower |
| Bowling.Accuracy | src/pages/BowlingGame.tsx:93-100 | the accuracy lies in [0, 100]; it is 100 without a field; with a field it is 100 exactly at the centre and 0 at half the width from it or beyond |
| Bowling.AccuracyFallsOff | src/pages/BowlingGame.tsx:96-100 | a release further from the centre never scores better |
| Bowling.AccuracySymmetric | src/pages/BowlingGame.tsx:97-99 | the same distance left or right of the centre gives the same accuracy |
| Bowling.BowlingSession.constructor | src/pages/BowlingGame.tsx:15-23 | the initial state: ball 0, no records, countdown 3, nothing dragged or released |
| Bowling.BowlingSession.ChooseOpponent | src/pages/BowlingGame.tsx:31-32 | the opponent is the single pick of a batsman from the difficulty's pool |
| Bowling.BowlingSession.CountdownTick | src/pages/BowlingGame.tsx:35-43 | at 1 or below the countdown becomes 0 and the game starts; otherwise it drops by 1 |
| Bowling.BowlingSession.HandleDragStart | src/pages/BowlingGame.tsx:50-64 | on the ball shown once the countdown is over in an unfinished over: ignored while a ball is playing or released; otherwise the drag starts at the pointer |
| Bowling.BowlingSession.HandleDragEnd | src/pages/BowlingGame.tsx:67-101 | releases a ball exactly when a drag is in progress and no ball is out; the throw's speed and accuracy come from the drag length and release point and are in range |
| Bowling.BowlingSession.ThrowAnimationDone | src/pages/BowlingGame.tsx:108-114 | the thrown record is appended, the ball count rises by 1 and the ball closes, keeping one in-range record per ball and at most six balls |
| Bowling.BowlingSession.HandOff | src/pages/BowlingGame.tsx:118-139 | the records are handed over exactly when six or more balls have been bowled, with the difficulty and opponent |
| Bowling.HandOffCarriesOver | src/pages/BowlingGame.tsx:108-139 | whenever a valid session hands over, it carries exactly six in-range records |
| StickCricket.Runs | src/pages/StickCricketGame.tsx:78 | a swing scores 0 to 6 runs |
| StickCricket.RunsCover | src/pages/StickCricketGame.tsx:78 | each of 0 to 6 runs can be drawn |
| StickCricket.HitDirection | src/pages/StickCricketGame.tsx:74 | the direction is -1 or 1, and -1 exactly when the draw is above one half |
| StickCricket.StickCricketSession.constructor | src/pages/StickCricketGame.tsx:14-23 | the initial state: no score, no wickets, nothing in play |
| StickCricket.StickCricketSession.StartGame | src/pages/StickCricketGame.tsx:31-41 | a ball starts exactly with fewer than 3 wickets and none in play; it starts the run-up with the ball hidden |
| StickCricket.StickCricketSession.BowlerReleases | src/pages/StickCricketGame.tsx:43-46 | the ball appears at the bowler's position |
| StickCricket.StickCricketSession.BallReachesBatsman | src/pages/StickCricketGame.tsx:53-55 | the ball in play, not yet resolved, can be hit |
| StickCricket.StickCricketSession.BallMissed | src/pages/StickCricketGame.tsx:104-111 | called for a hittable ball: it can no longer be hit; it is out exactly when the draw is above one half, costing one wicket, never a fourth |
| StickCricket.StickCricketSession.MissTimeout | src/pages/StickCricketGame.tsx:58-62 | as written: the captured flag is false in every valid state, so the miss is never resolved and nothing changes |
| StickCricket.StickCricketSession.MissTimeoutFixed | src/pages/StickCricketGame.tsx:58-62 | the intended timeout: a ball still hittable is resolved as a miss, out exactly when the draw is above one half |
| StickCricket.StickCricketSession.SwingBat | src/pages/StickCricketGame.tsx:67-78 | ignored unless the ball can be hit; otherwise the ball can no longer be hit and 0-6 runs and a direction are drawn |
| StickCricket.StickCricketSession.SwingLands | src/pages/StickCricketGame.tsx:80-90 | for the swung ball still in play: no runs is out, with one wicket more, the ball ends, and the game is over exactly at 3 wickets; otherwise the runs are added and nothing else changes |
| StickCricket.StickCricketSession.EndBall | src/pages/StickCricketGame.tsx:123-130 | the ball in play is hidden and out of play; the game ends exactly on an out with two wickets already down, that is exactly when three wickets have fallen |
| StickCricket.StickCricketSession.HandleBowlComplete | src/pages/StickCricketGame.tsx:132-134 | the bowling animation flag clears |
| StickCricket.StickCricketSession.HandleSwingComplete | src/pages/StickCricketGame.tsx:136-138 | the swing animation flag clears |
| StickCricket.StickCricketSession.ResetGame | src/pages/StickCricketGame.tsx:140-147 | offered once the game is over: score, wickets, game over, play and hittable flags all return to their initial values |
| StickCricket.UnansweredBall | src/pages/StickCricketGame.tsx:31-62 | as written, a ball never swung at stays live and hittable after the miss timeout, and no new ball can be started |
| StickCricket.UnansweredBallFixed | src/pages/StickCricketGame.tsx:53-130 | with the intended timeout the same ball costs a wicket on a high draw, ends, and a new ball can be started |
| Countdown.Advance | src/components/CountdownTimer.tsx:23-36 | `onComplete` fires exactly when running at or below zero; running is never changed; a second is taken off exactly when running and not completing |
| Countdown.RunCountsDown | src/components/CountdownTimer.tsx:31-33 | a running timer loses exactly one second per tick while it has time left |
| Countdown.CompletesAfterDuration | src/components/CountdownTimer.tsx:23-36 | started with n seconds, the timer completes after exactly n ticks and not before |
| Countdown.StoppedTimerIsFrozen | src/components/CountdownTimer.tsx:24 | a stopped timer never changes and never completes |
| Countdown.CompletionIsFinal | src/components/CountdownTimer.tsx:26-29 | once at zero no further second is taken off |
| Countdown.CountdownTimer.constructor | src/components/CountdownTimer.tsx:14-21 | the timer starts at the duration, running unless `autoStart` is false (true when omitted) |
| Countdown.CountdownTimer.Tick | src/components/CountdownTimer.tsx:23-36 | the new state and the completion flag are one step of `Advance` |
| Countdown.CountdownTimer.PropsChanged | src/components/CountdownTimer.tsx:38-41 | a changed duration or `autoStart` restarts the timer from the new values; unchanged props leave it alone |
| Countdown.CountdownTimer.Start | src/components/CountdownTimer.tsx:43 | only sets running |
| Countdown.CountdownTimer.Stop | src/components/CountdownTimer.tsx:44 | only clears running |
| Countdown.CountdownTimer.Reset | src/components/CountdownTimer.tsx:45 | only restores the full duration |
| Results.Mean | src/pages/ResultsPage.tsx:24-34 | 0 for no values, otherwise the value that times the count gives the left-to-right sum |
| Results.SumWithin | src/pages/ResultsPage.tsx:24-34 | values within [lo, hi] sum to between n·lo and n·hi |
| Results.MeanWithin | src/pages/ResultsPage.tsx:24-34 | the average of values within an interval around 0 stays within it |
| Results.AverageScore | src/pages/ResultsPage.tsx:24-26 | 0 with no scores, otherwise the sum of the scores over their count |
| Results.AverageSpeed | src/pages/ResultsPage.tsx:28-30 | 0 with no records, otherwise the sum of the speeds over their count |
| Results.AverageAccuracy | src/pages/ResultsPage.tsx:32-34 | 0 with no records, otherwise the sum of the accuracies over their count |
| Results.AverageScoreInRange | src/pages/ResultsPage.tsx:24-26 | scores in [0, 6] average into [0, 6] |
| Results.AveragesInRange | src/pages/ResultsPage.tsx:28-34 | in-range records average to a speed and an accuracy in [0, 100] |
| Results.ReadState | src/pages/ResultsPage.tsx:17-21 | a missing state or field gives difficulty medium and empty score and record lists; present fields are taken as they are |
| Results.FromBatting | src/hooks/useBattingGame.ts:152-157 | the batting payload reads back as its scores, difficulty and opponent, with no records |
| Results.FromBowling | src/pages/BowlingGame.tsx:131-137 | the bowling payload reads back as its records, difficulty and opponent, with no scores |
| Results.BattingHandOffAverage | src/pages/ResultsPage.tsx:17-30 | what a valid batting session hands over averages to 0-6 runs a ball and a speed of 0 |
| Results.BowlingHandOffAverages | src/pages/ResultsPage.tsx:17-34 | what a valid bowling session hands over averages to a speed and an accuracy in [0, 100] and a score of 0 |
| Results.GameMode | src/pages/ResultsPage.tsx:12 | the route's mode, `batting` when the route gives none |
| Results.MatcherRequest | src/pages/ResultsPage.tsx:42-48 | batting asks for a batsman with speed 0 and a reaction time in [150, 350) ms; any other mode asks for a bowler with the average speed and no reaction time; the accuracy is always the average accuracy |
| Results.MatchedPlayer | src/pages/ResultsPage.tsx:41-51 | the player shown is a batsman from the batsmen for batting results and a bowler from the bowlers otherwise |
| Results.MatchIgnoresPerformance | src/pages/ResultsPage.tsx:42-48 | the same mode and pick show the same player whatever was scored or bowled |

## Left out

- Rendering and animation are not modelled: JSX, styling, the framer-motion keyframes and the presentational components. Each animation's completion is an explicit method.
- Timer scheduling and effect cleanup (`setInterval`, `setTimeout`, `clearInterval`) are not modelled. Each tick or timeout is a method the caller invokes, and the callers' event order is not constrained beyond each method's `requires`.
- The batting hook's `requestAnimationFrame` ball-position polling (src/hooks/useBattingGame.ts:109-130) is left out. It only measures the DOM, so `ballPosition` keeps its value in the model.
- Navigation, `console.log`, and the results screen's share, clipboard and toast actions are left out because they are browser I/O. Navigation is replaced by the returned payloads.
- Batting.MeasureField and Batting.BattingSession.UpdateFieldSize require a positive smaller side, and Bowling.Accuracy requires a positive field width. The code divides by these without a guard, and a zero gives JavaScript's `Infinity`/`NaN`, which reals cannot represent.
- Floating-point rounding is not modelled: arithmetic is exact over the reals.
- Players.GetRandomPlayers: the random-comparator `sort` is modelled as an arbitrary permutation `order`. It is not the engine's actual sort order and carries no distribution.
- Countdown.CountdownTimer.Tick: one call is one run of the ticking effect. In the code, a timer at zero calls `onComplete` again only when the effect re-runs because the callback's identity changed. Durations are whole seconds.
- The bowling screen's between-ball timeout does nothing, so it is not modelled.
- Route parameters outside the declared unions are not modelled: an unknown difficulty is cast with `as Difficulty`. An unknown game mode is modelled; it counts as bowling.
- Batting.BattingSession.BallTimerTickFixed states the hand-off condition and payload, and the state only once the over is complete. Before then it behaves as Batting.BattingSession.BallTimerTick, whose contract gives the full new state.
- StickCricket.StickCricketSession.BallReachesBatsman, SwingLands and EndBall require the order the screen's callbacks run in: the ball reaches the bat before anything resolves it, and an ended ball has lost exactly the wickets its outcome says. The timers that produce this order are not modelled.

## Findings

| source | as written | input that shows it | evidently intended | confidence | as-written member | corrected member |
|---|---|---|---|---|---|---|
| src/hooks/useBattingGame.ts:193-199 | the flight completion tests `state.batSwung` from the render that released the ball, which is the previous ball's flag, so a 0 is appended based on the previous ball | a missed ball followed by a hit ball: the hit records its score and the completion also appends a 0, leaving three scores after two balls; an over alternating misses and hits leaves seven scores for six balls (Batting.AlternatingOver). The input needs a hit, which becomes reachable only once the bat component forwards drag events to the hook's handler (see the bat-drag fact above); the stale read is latent in the hook until then. This assumes the flight animation's promise still resolves after the hit animation on the same controls (line 248) interrupts it; if it never resolved, a hit ball would never close and the session would stall instead | a 0 only for a ball that was not hit, one score per ball | not executed | Batting.MissThenHit | Batting.MissThenHitFixed |
| src/hooks/useBattingGame.ts:134 | the between-ball timer only runs while fewer than six balls have been played, so `startNewBall` never sees six balls and its results navigation (lines 151-159) is unreachable | six balls played: no timer runs and no tick hands the scores over | the timer's expiry after the sixth ball hands the scores to the results screen | not executed | Batting.BattingSession.BallTimerTick | Batting.BattingSession.BallTimerTickFixed |
| src/pages/StickCricketGame.tsx:58-62 | the miss timeout reads the `canHit` captured when the ball was started, which is false, so `ballMissed` is never called | a ball never swung at: after the timeout it is still live and hittable, and the play button refuses a new ball | a ball still hittable when the timeout fires is resolved as a miss | not executed | StickCricket.UnansweredBall | StickCricket.UnansweredBallFixed |
