/** Constants and the pure state updaters of the game orchestrator:
    the car-position clamp, the arrow-key flags and the countdown step. */
module GameRules {
  import opened Numbers

  const GameWidth: int := 400
  const GameHeight: int := 600
  const CarWidth: int := 50
  const MoveSpeed: int := 5

  /** ROAD_BOUNDS: ten and ninety percent of the game width. */
  const RoadLeft: int := GameWidth / 10
  const RoadRight: int := GameWidth * 9 / 10

  /** The horizontal range the player's car may occupy: [40, 310]. */
  const MinX: int := RoadLeft
  const MaxX: int := RoadRight - CarWidth

  /** Where the player's car starts and is put back on reset: (175, 500). */
  const StartX: int := GameWidth / 2 - CarWidth / 2
  const StartY: int := GameHeight - 100

  /** The first value shown by the countdown, and the value it is reset to. */
  const CountdownStart: int := 3

  const ArrowLeft: string := "ArrowLeft"
  const ArrowRight: string := "ArrowRight"

  datatype Phase = Initial | Countdown | Playing | Quiz | GameOver | Victory

  /** Which of the two arrow keys are currently held down. */
  datatype Keys = Keys(left: bool, right: bool)

  const NoKeys: Keys := Keys(false, false)

  predicate InBounds(x: int) {
    MinX <= x <= MaxX
  }

  /** The car's x pulled into the road strip: no further left than the left
      road edge, no further right than the right edge less the car's width. */
  function Clamp(x: int): (r: int)
    ensures InBounds(r)
    ensures InBounds(x) ==> r == x
    ensures x < MinX ==> r == MinX
    ensures x > MaxX ==> r == MaxX
  {
    Max(MinX, Min(MaxX, x))
  }

  /** The horizontal displacement the held keys ask for in one frame. */
  function Delta(k: Keys): int {
    (if k.left then -MoveSpeed else 0) + (if k.right then MoveSpeed else 0)
  }

  /** The car-position updater of one playing frame (the x part; y is kept). */
  function StepX(x: int, k: Keys): (r: int)
    ensures InBounds(r)
    ensures InBounds(x) && k.left == k.right ==> r == x
    ensures InBounds(x) && k.left && !k.right ==>
      r <= x && x - r <= MoveSpeed && (r == x - MoveSpeed || r == MinX)
    ensures InBounds(x) && k.right && !k.left ==>
      x <= r && r - x <= MoveSpeed && (r == x + MoveSpeed || r == MaxX)
  {
    Clamp(x + Delta(k))
  }

  /** The position after n playing frames with the same keys held. */
  function StepsX(x: int, k: Keys, n: nat): int
    decreases n
  {
    if n == 0 then x else StepsX(StepX(x, k), k, n - 1)
  }

  /** Holding only the left arrow for n frames moves the car 5 units per frame
      until it rests on the left road edge, where it stays (clamped, not wrapped). */
  lemma {:induction false} HoldLeft(x: int, n: nat)
    requires InBounds(x)
    ensures StepsX(x, Keys(true, false), n) == Max(MinX, x - MoveSpeed * n)
    decreases n
  {
    if n > 0 {
      var x' := StepX(x, Keys(true, false));
      assert x' == Max(MinX, x - MoveSpeed);
      HoldLeft(x', n - 1);
    }
  }

  /** Holding only the right arrow for n frames moves the car right until it
      rests on the right road edge. */
  lemma {:induction false} HoldRight(x: int, n: nat)
    requires InBounds(x)
    ensures StepsX(x, Keys(false, true), n) == Min(MaxX, x + MoveSpeed * n)
    decreases n
  {
    if n > 0 {
      var x' := StepX(x, Keys(false, true));
      assert x' == Min(MaxX, x + MoveSpeed);
      HoldRight(x', n - 1);
    }
  }

  /** Whatever the keys and however many frames, an in-bounds car stays in bounds. */
  lemma {:induction false} StepsStayInBounds(x: int, k: Keys, n: nat)
    requires InBounds(x)
    ensures InBounds(StepsX(x, k, n))
    decreases n
  {
    if n > 0 {
      StepsStayInBounds(StepX(x, k), k, n - 1);
    }
  }

  /** The keydown updater: only the flag of the pressed arrow key is set. */
  function PressKey(k: Keys, key: string): (r: Keys)
    ensures r.left == (k.left || key == ArrowLeft)
    ensures r.right == (k.right || key == ArrowRight)
  {
    var k' := if key == ArrowLeft then k.(left := true) else k;
    if key == ArrowRight then k'.(right := true) else k'
  }

  /** The keyup updater: only the flag of the released arrow key is cleared. */
  function ReleaseKey(k: Keys, key: string): (r: Keys)
    ensures r.left == (k.left && key != ArrowLeft)
    ensures r.right == (k.right && key != ArrowRight)
  {
    var k' := if key == ArrowLeft then k.(left := false) else k;
    if key == ArrowRight then k'.(right := false) else k'
  }

  /** Releasing a key undoes pressing it, as long as its flag was clear before;
      a key other than the two arrows changes nothing either way. */
  lemma ReleaseUndoesPress(k: Keys, key: string)
    requires key == ArrowLeft ==> !k.left
    requires key == ArrowRight ==> !k.right
    ensures ReleaseKey(PressKey(k, key), key) == k
    ensures key != ArrowLeft && key != ArrowRight ==> PressKey(k, key) == k && ReleaseKey(k, key) == k
  {
  }

  /** What one second of the countdown timer produces. */
  datatype CountdownTick = CountdownTick(count: int, startPlaying: bool)

  /** The countdown updater: at 1 (or below) the game starts and the counter
      goes back to 3; otherwise it counts down by one. */
  function CountdownStep(c: int): (r: CountdownTick)
    ensures r.startPlaying <==> c <= 1
    ensures 1 <= c <= CountdownStart ==> 1 <= r.count <= CountdownStart
    ensures r.count < c || r.startPlaying
  {
    if c <= 1 then CountdownTick(CountdownStart, true) else CountdownTick(c - 1, false)
  }

  /** The number of timer ticks from counter value c until play starts. */
  function TicksToPlay(c: int): nat
    decreases if c <= 1 then 0 else c
  {
    var r := CountdownStep(c);
    if r.startPlaying then 1 else 1 + TicksToPlay(r.count)
  }

  /** From any counter value 1..3 play starts after exactly that many ticks;
      in particular the countdown shows 3, 2, 1 and then the game is playing. */
  lemma {:induction false} CountdownTakesCTicks(c: int)
    requires 1 <= c
    ensures TicksToPlay(c) == c
    decreases c
  {
    if c > 1 {
      CountdownTakesCTicks(c - 1);
    }
  }

  /** GAME_SPEED: the road speed of each level. */
  function GameSpeed(level: int): (s: int)
    requires 1 <= level <= 3
    ensures s > 0
  {
    if level == 1 then 3 else if level == 2 then 5 else 7
  }

  /** The road gets strictly faster with every level. */
  lemma SpeedIncreases(a: int, b: int)
    requires 1 <= a < b <= 3
    ensures GameSpeed(a) < GameSpeed(b)
  {
  }

  /** A playing frame opens the quiz when the score it read exceeds level * 1000. */
  predicate QuizDue(score: int, level: int) {
    score > level * 1000
  }
}
