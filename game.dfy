/** The game proper: one tick of the simulation, the round reset with its grid of
    animal targets, and the timer bookkeeping that drives the ticks. */
module Game {
  import opened Geometry
  import opened Kinematics
  import opened Targets

  datatype GameState = WON | LOST | ACTIVE | NEW

  datatype Option<T> = None | Some(value: T)

  /** Number of bottom-wall hits after which the round is lost. */
  const BOTTOM_HITS_TO_LOSE: nat := 5
  /** Vertical distance in pixels between rows of animal targets. */
  const DISTANCE_Y: int := 80
  /** The names of the animal images a target can show. */
  const IMAGES_TO_LOAD: seq<string> := ["duck", "goat", "horse"]
  /** The round reset asks for RESTART_ANIMALS + 1 animals laid out with RESTART_X. */
  const RESTART_ANIMALS: int := 6
  const RESTART_X: int := 3
  /** The last line of the label shown before every round. */
  const PROMPT: string := "Click mouse to start"

  /** Width and height of a loaded image. */
  datatype Size = Size(width: real, height: real)

  /** What one tick reads and changes: the ball, the bottom-hit counter and the
      bounds of the live targets, in list order. */
  datatype Round = Round(ball: BallState, hits: nat, targets: seq<Box>)

  /** The round after a tick and the state the tick reports. */
  datatype Tick = Tick(round: Round, state: GameState)

  /** The inputs of one tick: the paddle's bounds and the elapsed nanoseconds. */
  datatype Frame = Frame(paddle: Box, dt: int)

  // ---------------------------------------------------------------- one tick

  /** The ball's bounds reach past the left or the right wall. */
  predicate HitsSide(b: Box)
  {
    b.maxX > WIDTH as real || b.minX < 0.0
  }

  /** The ball's bounds reach above the top wall. */
  predicate HitsTop(b: Box)
  {
    b.minY < 0.0
  }

  /** The bottom branch of the tick: not above the top wall, and below the bottom one. */
  predicate HitsBottom(b: Box)
  {
    !HitsTop(b) && b.maxY > HEIGHT as real
  }

  /** v with its sign flipped k times. */
  function Flip(v: real, k: nat): real
  {
    if k % 2 == 0 then v else -v
  }

  /** The ball after the paddle and wall checks of a tick, given the ball as moved.
      The paddle flips vy once; a side wall flips vx exactly once even when the ball
      is past both side walls; the top and the bottom branch exclude each other, so
      together they flip vy at most once. Position does not change. */
  function Collided(moved: BallState, paddle: Box): (b: BallState)
    ensures b.x == moved.x && b.y == moved.y
    ensures b.vx == if HitsSide(BallBounds(moved)) then -moved.vx else moved.vx
    ensures b.vy == Flip(moved.vy, (if Intersects(paddle, BallBounds(moved)) then 1 else 0)
                                 + (if HitsTop(BallBounds(moved)) || HitsBottom(BallBounds(moved)) then 1 else 0))
  {
    var bounds := BallBounds(moved);
    var afterPaddle := if Intersects(paddle, bounds) then YReversed(moved) else moved;
    var afterSides := if HitsSide(bounds) then XReversed(afterPaddle) else afterPaddle;
    if HitsTop(bounds) then YReversed(afterSides)
    else if HitsBottom(bounds) then YReversed(afterSides)
    else afterSides
  }

  /** One tick of the game: move the ball, bounce it off the paddle and the walls,
      count a bottom hit (losing at the threshold, before any target is looked at),
      then run the target-removal pass, reversing vy once per removed target.
      All checks use the ball's bounds just after the move. */
  function Step(r: Round, paddle: Box, dt: int): (t: Tick)
    ensures t.state == ACTIVE || t.state == LOST
    ensures t.state == LOST
        <==> HitsBottom(BallBounds(Advanced(r.ball, dt))) && r.hits + 1 >= BOTTOM_HITS_TO_LOSE
    ensures t.round.hits == r.hits + (if HitsBottom(BallBounds(Advanced(r.ball, dt))) then 1 else 0)
    ensures t.state == LOST ==> t.round.targets == r.targets
    ensures |t.round.targets| <= |r.targets|
    ensures t.round.ball.x == Advanced(r.ball, dt).x && t.round.ball.y == Advanced(r.ball, dt).y
    ensures t.round.ball.vx == if HitsSide(BallBounds(Advanced(r.ball, dt))) then -r.ball.vx else r.ball.vx
  {
    var moved := Advanced(r.ball, dt);
    var bounds := BallBounds(moved);
    var ball := Collided(moved, paddle);
    var hits := if HitsBottom(bounds) then r.hits + 1 else r.hits;
    if HitsBottom(bounds) && hits >= BOTTOM_HITS_TO_LOSE then
      Tick(Round(ball, hits, r.targets), LOST)
    else
      var sweep := SweepFrom(r.targets, bounds, 0);
      Tick(Round(ball.(vy := Flip(ball.vy, sweep.removed)), hits, sweep.survivors), ACTIVE)
  }

  /** In a tick that stays ACTIVE the targets left are exactly those Removed does not
      flag, in their original order, and vy is flipped once more per removed target. */
  lemma StepTargets(r: Round, paddle: Box, dt: int)
    ensures var bounds := BallBounds(Advanced(r.ball, dt));
            var removed := Removed(r.targets, bounds);
            var t := Step(r, paddle, dt);
            t.state == ACTIVE ==>
              t.round.targets == Kept(r.targets, removed)
              && t.round.ball.vy == Flip(Collided(Advanced(r.ball, dt), paddle).vy, Count(removed))
  {
    SweepIsReference(r.targets, BallBounds(Advanced(r.ball, dt)));
  }

  /** Ticks run one after another while the state stays ACTIVE; the first other
      state ends the run, as the timer stops there. */
  function Play(r: Round, frames: seq<Frame>): (t: Tick)
    ensures frames == [] ==> t == Tick(r, ACTIVE)
    ensures t.state == ACTIVE || t.state == LOST
    ensures t.round.hits >= r.hits
    ensures |t.round.targets| <= |r.targets|
    decreases |frames|
  {
    if frames == [] then Tick(r, ACTIVE)
    else
      var t := Step(r, frames[0].paddle, frames[0].dt);
      if t.state == ACTIVE then Play(t.round, frames[1..]) else t
  }

  /** How many ticks of that run took the bottom branch. */
  function BottomHits(r: Round, frames: seq<Frame>): nat
    decreases |frames|
  {
    if frames == [] then 0
    else
      var t := Step(r, frames[0].paddle, frames[0].dt);
      var hit := if HitsBottom(BallBounds(Advanced(r.ball, frames[0].dt))) then 1 else 0;
      if t.state == ACTIVE then hit + BottomHits(t.round, frames[1..]) else hit
  }

  /** Over any run of ticks that starts below the threshold, the counter grows by the
      number of bottom hits, the run ends LOST exactly when that total reaches
      BOTTOM_HITS_TO_LOSE (never WON), and the target list never grows. */
  lemma {:induction false} PlayLosesAtThreshold(r: Round, frames: seq<Frame>)
    requires r.hits < BOTTOM_HITS_TO_LOSE
    ensures Play(r, frames).state == ACTIVE || Play(r, frames).state == LOST
    ensures Play(r, frames).round.hits == r.hits + BottomHits(r, frames)
    ensures Play(r, frames).state == LOST <==> r.hits + BottomHits(r, frames) == BOTTOM_HITS_TO_LOSE
    ensures |Play(r, frames).round.targets| <= |r.targets|
    decreases |frames|
  {
    if frames != [] {
      var t := Step(r, frames[0].paddle, frames[0].dt);
      if t.state == ACTIVE {
        PlayLosesAtThreshold(t.round, frames[1..]);
      }
    }
  }

  // ---------------------------------------------------------------- the round reset

  /** Random choices are indices into IMAGES_TO_LOAD, as the random generator yields. */
  predicate ValidChoices(choices: seq<int>)
  {
    forall j :: 0 <= j < |choices| ==> 0 <= choices[j] < |IMAGES_TO_LOAD|
  }

  /** The number of animals asked for n: n + 1, or none when n is negative. */
  function AnimalCount(n: int): nat
  {
    if n < 0 then 0 else n + 1
  }

  /** The animal names picked for argument n, the j-th by the j-th random choice. */
  function Animals(n: int, choices: seq<int>): (animals: seq<string>)
    requires ValidChoices(choices) && AnimalCount(n) <= |choices|
    ensures |animals| == AnimalCount(n)
    ensures forall j :: 0 <= j < |animals| ==> animals[j] in IMAGES_TO_LOAD
  {
    seq(AnimalCount(n), j requires 0 <= j < AnimalCount(n) => IMAGES_TO_LOAD[choices[j]])
  }

  /** Builds the list of animal names with the loop of the source; the random
      generator is replaced by the sequence of its results. */
  method RandomlyGenerateAListOfAnimals(n: int, choices: seq<int>) returns (listOfImages: seq<string>)
    requires ValidChoices(choices) && AnimalCount(n) <= |choices|
    ensures listOfImages == Animals(n, choices)
  {
    listOfImages := [];
    var i := 0;
    while i <= n
      invariant 0 <= i <= AnimalCount(n)
      invariant |listOfImages| == i
      invariant forall j :: 0 <= j < i ==> listOfImages[j] == IMAGES_TO_LOAD[choices[j]]
    {
      var randomInt := choices[i];
      listOfImages := listOfImages + [IMAGES_TO_LOAD[randomInt]];
      i := i + 1;
    }
  }

  lemma MulBound(m: int, w: int)
    requires w > 0
    ensures m >= 1 ==> m * w >= w
    ensures m <= -1 ==> m * w <= -w
  {
  }

  /** The grid cell (column, row) of the k-th animal when x is the source's
      "animals on the x axis": columns run 0..x, so a row holds x + 1 animals. */
  function GridCell(k: nat, x: int): (cell: (nat, nat))
    requires x > 0
    ensures cell.0 <= x && cell.1 * (x + 1) + cell.0 == k
  {
    (k % (x + 1), k / (x + 1))
  }

  /** A column at most x and a row that give position k are the ones GridCell gives. */
  lemma GridCellUnique(k: nat, x: int, col: nat, row: nat)
    requires x > 0 && col <= x && row * (x + 1) + col == k
    ensures GridCell(k, x) == (col, row)
  {
    var cell := GridCell(k, x);
    assert (row - cell.1) * (x + 1) == cell.0 - col;
    MulBound(row - cell.1, x + 1);
  }

  /** The bounds of the label of the k-th animal, whose image has size image: its
      top-left corner is half the image size plus WIDTH / x pixels per column and
      DISTANCE_Y pixels per row. */
  function CellBox(k: nat, x: int, image: Size): (box: Box)
    requires x > 0
    ensures box.minX == image.width / 2.0 + ((WIDTH / x) * (k % (x + 1))) as real
    ensures box.minY == image.height / 2.0 + (DISTANCE_Y * (k / (x + 1))) as real
    ensures box.maxX - box.minX == image.width && box.maxY - box.minY == image.height
  {
    var cell := GridCell(k, x);
    var left := image.width / 2.0 + ((WIDTH / x) * cell.0) as real;
    var top := image.height / 2.0 + (DISTANCE_Y * cell.1) as real;
    Box(left, top, left + image.width, top + image.height)
  }

  /** The label bounds of all the animals, in order. */
  function GridBoxes(animals: seq<string>, x: int, size: string -> Size): (boxes: seq<Box>)
    requires x > 0
    ensures |boxes| == |animals|
  {
    seq(|animals|, k requires 0 <= k < |animals| => CellBox(k, x, size(animals[k])))
  }

  /** The reset grid holds seven animals: four in the first row, the fourth of them
      with its left edge at half its image's width plus 399, past the right edge of
      the 400-pixel board for any image wider than 2 pixels, and the fifth starting
      the second row, DISTANCE_Y pixels lower. */
  lemma RestartGridLayout(choices: seq<int>, size: string -> Size)
    requires ValidChoices(choices) && |choices| >= 7
    ensures var animals := Animals(RESTART_ANIMALS, choices);
            var boxes := GridBoxes(animals, RESTART_X, size);
            |boxes| == 7
            && boxes[3].minX == size(animals[3]).width / 2.0 + 399.0
            && boxes[3].minY == size(animals[3]).height / 2.0
            && boxes[4].minX == size(animals[4]).width / 2.0
            && boxes[4].minY == size(animals[4]).height / 2.0 + DISTANCE_Y as real
  {
  }

  /** The round after a reset: the counter is zero and the ball is new, while the
      targets of the previous round stay in the list and the new grid is appended. */
  function RestartRound(r: Round, choices: seq<int>, size: string -> Size): (next: Round)
    requires ValidChoices(choices) && |choices| >= AnimalCount(RESTART_ANIMALS)
    ensures next.hits == 0 && next.ball == Initial()
    ensures |next.targets| == |r.targets| + 7 && next.targets[..|r.targets|] == r.targets
  {
    Round(Initial(), 0, r.targets + GridBoxes(Animals(RESTART_ANIMALS, choices), RESTART_X, size))
  }

  /** The text of the start label: the outcome of the last round, if any, then PROMPT. */
  function StartLabel(state: GameState): (text: string)
    ensures |text| >= |PROMPT| && text[|text| - |PROMPT|..] == PROMPT
    ensures text == PROMPT <==> state == ACTIVE || state == NEW
  {
    (if state == LOST then "Game Over\n" else if state == WON then "You won!\n" else "") + PROMPT
  }

  // ---------------------------------------------------------------- the timer

  /** The elapsed time the timer hands to a tick, if any: none on the first call,
      which only records the timestamp. */
  function TickDelta(last: int, current: int): (delta: Option<int>)
    ensures delta.Some? <==> last >= 0
    ensures delta.Some? ==> last + delta.value == current
  {
    if last >= 0 then Some(current - last) else None
  }

  /** The elapsed times the timer hands to successive ticks for the given timestamps. */
  function Deltas(last: int, times: seq<int>): seq<int>
    decreases |times|
  {
    if times == [] then []
    else
      (match TickDelta(last, times[0]) case Some(d) => [d] case None => [])
      + Deltas(times[0], times[1..])
  }

  function Sum(s: seq<int>): int
  {
    if s == [] then 0 else s[0] + Sum(s[1..])
  }

  lemma {:induction false} DeltasFrom(last: int, times: seq<int>)
    requires last >= 0 && forall j :: 0 <= j < |times| ==> times[j] >= 0
    ensures |Deltas(last, times)| == |times|
    ensures Sum(Deltas(last, times)) == if times == [] then 0 else times[|times| - 1] - last
    decreases |times|
  {
    if times != [] {
      DeltasFrom(times[0], times[1..]);
      var rest := Deltas(times[0], times[1..]);
      assert Deltas(last, times) == [times[0] - last] + rest;
      assert ([times[0] - last] + rest)[1..] == rest;
    }
  }

  /** While the timestamps are negative the timer never records one it accepts as a
      previous frame, so no tick runs and no elapsed time is handed on. */
  lemma {:induction false} NegativeTimestampsNeverTick(last: int, times: seq<int>)
    requires last < 0 && forall j :: 0 <= j < |times| ==> times[j] < 0
    ensures Deltas(last, times) == []
    decreases |times|
  {
    if times != [] {
      NegativeTimestampsNeverTick(times[0], times[1..]);
    }
  }

  /** Starting with no timestamp, n calls hand n - 1 elapsed times to the ticks, and
      together they add up to the time between the first and the last call: the first
      call is discarded and no time is lost or counted twice afterwards. */
  lemma DeltasTelescope(times: seq<int>)
    requires |times| > 0 && forall j :: 0 <= j < |times| ==> times[j] >= 0
    ensures |Deltas(-1, times)| == |times| - 1
    ensures Sum(Deltas(-1, times)) == times[|times| - 1] - times[0]
  {
    DeltasFrom(times[0], times[1..]);
    assert Deltas(-1, times) == Deltas(times[0], times[1..]);
    if |times| > 1 {
      assert times[1..][|times| - 2] == times[|times| - 1];
    }
  }

  // ---------------------------------------------------------------- the objects

  /** The game: the ball, the bottom-hit counter and the list of target labels,
      each label represented by its bounds. */
  class GameImpl {
    var ball: Ball
    var bottomScreenHitCounter: nat
    var loadedImages: seq<Box>

    /** The abstract value of the game's round state. */
    function Snapshot(): Round
      reads this, ball
    {
      Round(ball.State(), bottomScreenHitCounter, loadedImages)
    }

    /** A new game, set up by a reset to the NEW state. */
    constructor (choices: seq<int>, size: string -> Size)
      requires ValidChoices(choices) && |choices| >= AnimalCount(RESTART_ANIMALS)
      ensures Snapshot() == RestartRound(Round(Initial(), 0, []), choices, size)
    {
      ball := new Ball();
      bottomScreenHitCounter := 0;
      loadedImages := [];
      new;
      var message := RestartGame(NEW, choices, size);
    }

    /** Appends the labels of the animals to the target list, laid out on the grid. */
    method DisplayGridOfAnimals(animals: seq<string>, x: int, size: string -> Size)
      requires x > 0
      modifies this`loadedImages
      ensures loadedImages == old(loadedImages) + GridBoxes(animals, x, size)
    {
      var distanceX := WIDTH / x;
      var yi, xi := 0, 0;
      var k := 0;
      while k < |animals|
        invariant 0 <= k <= |animals|
        invariant 0 <= xi <= x && 0 <= yi && yi * (x + 1) + xi == k
        invariant |loadedImages| == |old(loadedImages)| + k
        invariant loadedImages[..|old(loadedImages)|] == old(loadedImages)
        invariant forall j :: 0 <= j < k ==> loadedImages[|old(loadedImages)| + j] == CellBox(j, x, size(animals[j]))
      {
        var image := size(animals[k]);
        var left := image.width / 2.0 + (distanceX * xi) as real;
        var top := image.height / 2.0 + (DISTANCE_Y * yi) as real;
        GridCellUnique(k, x, xi, yi);
        loadedImages := loadedImages + [Box(left, top, left + image.width, top + image.height)];
        if xi == x {
          xi := 0;
          yi := yi + 1;
        } else {
          xi := xi + 1;
        }
        k := k + 1;
      }
      assert loadedImages == old(loadedImages) + GridBoxes(animals, x, size);
    }

    /** Resets the round: counter to zero, a new grid of seven random animals, a new
        ball; returns the text of the start label for the state that ended the round. */
    method RestartGame(state: GameState, choices: seq<int>, size: string -> Size) returns (message: string)
      requires ValidChoices(choices) && |choices| >= AnimalCount(RESTART_ANIMALS)
      modifies this
      ensures fresh(ball)
      ensures Snapshot() == RestartRound(old(Snapshot()), choices, size)
      ensures message == StartLabel(state)
    {
      bottomScreenHitCounter := 0;
      var animals := RandomlyGenerateAListOfAnimals(RESTART_ANIMALS, choices);
      DisplayGridOfAnimals(animals, RESTART_X, size);
      ball := new Ball();
      message := StartLabel(state);
    }

    /** Starts the game: a new timer that has seen no timestamp yet. */
    method Run() returns (timer: FrameTimer)
      ensures fresh(timer) && timer.game == this
      ensures timer.lastNanoTime == -1 && timer.running
    {
      timer := new FrameTimer(this);
    }

    /** One tick on the game's own state, in the source's order of checks. */
    method RunOneTimestep(deltaNanoTime: int, paddle: Box) returns (state: GameState)
      modifies this, ball
      ensures ball == old(ball)
      ensures Tick(Snapshot(), state) == Step(old(Snapshot()), paddle, deltaNanoTime)
    {
      ball.UpdatePosition(deltaNanoTime);
      var ballBounds := ball.Bounds();
      if Intersects(paddle, ballBounds) {
        ball.ReverseYVelocity();
      }
      if ballBounds.maxX > WIDTH as real || ballBounds.minX < 0.0 {
        ball.ReverseXVelocity();
      }
      if ballBounds.minY < 0.0 {
        ball.ReverseYVelocity();
      } else if ballBounds.maxY > HEIGHT as real {
        ball.ReverseYVelocity();
        bottomScreenHitCounter := bottomScreenHitCounter + 1;
        if bottomScreenHitCounter >= BOTTOM_HITS_TO_LOSE {
          return LOST;
        }
      }
      assert ball.State() == Collided(Advanced(old(ball.State()), deltaNanoTime), paddle);
      RemoveHitTargets(ballBounds);
      return ACTIVE;
    }

    /** The target loop of a tick: walks the list by index, removing each target
        whose bounds intersect ballBounds and reversing vy for it; the index moves
        on after a removal as well. */
    method RemoveHitTargets(ballBounds: Box)
      modifies this`loadedImages, ball
      ensures var pass := SweepFrom(old(loadedImages), ballBounds, 0);
              loadedImages == pass.survivors
              && ball.State() == old(ball.State()).(vy := Flip(old(ball.vy), pass.removed))
    {
      ghost var pass := SweepFrom(loadedImages, ballBounds, 0);
      ghost var removed: nat := 0;
      var i := 0;
      while i < |loadedImages|
        invariant SweepFrom(loadedImages, ballBounds, i).survivors == pass.survivors
        invariant SweepFrom(loadedImages, ballBounds, i).removed + removed == pass.removed
        invariant ball.State() == old(ball.State()).(vy := Flip(old(ball.vy), removed))
        decreases |loadedImages| - i
      {
        if Intersects(ballBounds, loadedImages[i]) {
          ball.ReverseYVelocity();
          loadedImages := loadedImages[..i] + loadedImages[i + 1..];
          removed := removed + 1;
        }
        i := i + 1;
      }
      assert SweepFrom(loadedImages, ballBounds, i) == Sweep(loadedImages, 0);
    }
  }

  /** The animation timer's per-frame callback state: the timestamp of the previous
      frame (negative before the first) and whether the timer is still running. */
  class FrameTimer {
    const game: GameImpl
    var lastNanoTime: int
    var running: bool

    constructor (game: GameImpl)
      ensures this.game == game && lastNanoTime == -1 && running
    {
      this.game := game;
      lastNanoTime := -1;
      running := true;
    }

    /** One frame: the first call only records the timestamp; later calls run a tick
        with the elapsed time, and a tick that does not report ACTIVE stops the timer
        and resets the round. Returns the state the tick reported, if a tick ran. */
    method Handle(currentNanoTime: int, paddle: Box, choices: seq<int>, size: string -> Size)
      returns (ticked: Option<GameState>)
      requires ValidChoices(choices) && |choices| >= AnimalCount(RESTART_ANIMALS)
      modifies this, game, game.ball
      ensures lastNanoTime == currentNanoTime
      ensures TickDelta(old(lastNanoTime), currentNanoTime).None? ==>
                ticked.None? && running == old(running)
                && game.ball == old(game.ball) && game.Snapshot() == old(game.Snapshot())
      ensures TickDelta(old(lastNanoTime), currentNanoTime).Some? ==>
                var t := Step(old(game.Snapshot()), paddle, TickDelta(old(lastNanoTime), currentNanoTime).value);
                ticked == Some(t.state)
                && (t.state == ACTIVE ==> running == old(running) && game.Snapshot() == t.round)
                && (t.state != ACTIVE ==> !running && game.Snapshot() == RestartRound(t.round, choices, size))
    {
      if lastNanoTime >= 0 {
        var state := game.RunOneTimestep(currentNanoTime - lastNanoTime, paddle);
        ticked := Some(state);
        if state != ACTIVE {
          running := false;
          var message := game.RestartGame(state, choices, size);
        }
      } else {
        ticked := None;
      }
      lastNanoTime := currentNanoTime;
    }
  }
}
