/**
 * The game scene: the state `MainScene` keeps between engine callbacks and
 * host commands, and what each of its methods does to it.
 *
 * The engine drives the scene from outside: it calls `Create` when the scene
 * starts, `Update` once per frame, `AddRowOfPipes` and `SpawnLogo` when the
 * pipe and logo timers fire, `HitPipe` when the bird collides with a pipe and
 * `CollectLogo` when it overlaps a logo; `EngineStep` stands for the engine's
 * physics step, which moves the bird and the sprites between frames. The host
 * calls `Jump`, `ResumeGame`, `RestartGame` and `SetUnlockedCount`. Every
 * event the scene emits on the game's event bus is appended to `events`.
 */
module Scene {

  import opened Wrappers
  import opened Events
  import opened Sprites
  import Randomness
  import PipeRow
  import Culling
  import Tilt

  const BIRD_START_Y: real := 300.0
  const JUMP_VELOCITY: real := -350.0
  const RESUME_VELOCITY: real := -200.0
  const FLOOR_MARGIN: real := 20.0
  const PIPE_DELAY: real := 1500.0
  const LOGO_DELAY_MIN: real := 5000.0
  const LOGO_DELAY_SPREAD: real := 3000.0
  const LOGO_MARGIN: int := 100
  const BONUS_SCORE: int := 10
  const ANSWER_COUNT: int := 3

  /** A looping engine timer: its delay in milliseconds, whether it loops, whether it is paused. */
  datatype Timer = Timer(delay: real, loop: bool, paused: bool)

  /** `5000 + Math.random() * 3000`, the logo timer's delay, drawn once per scene start. */
  function LogoDelay(r: real): (delay: real)
    requires 0.0 <= r < 1.0
    ensures LOGO_DELAY_MIN <= delay < LOGO_DELAY_MIN + LOGO_DELAY_SPREAD
  {
    LOGO_DELAY_MIN + r * LOGO_DELAY_SPREAD
  }

  /** `unlockedCount >= 3`; an `undefined` count compares false. */
  predicate AllUnlocked(count: Option<int>)
  {
    count.Some? && count.value >= ANSWER_COUNT
  }

  /** The bird has left the canvas: below `height - 20` or above the top. */
  predicate OutOfBounds(y: real, height: nat)
  {
    y > height as real - FLOOR_MARGIN || y < 0.0
  }

  /** `if (timer) timer.paused = paused`. */
  function SetPaused(t: Option<Timer>, paused: bool): Option<Timer>
  {
    match t
    case None => None
    case Some(timer) => Some(timer.(paused := paused))
  }

  class MainScene {

    /** The canvas size. */
    const width: nat
    const height: nat

    var score: int
    var isGameRunning: bool
    var unlockedCount: Option<int>
    /** The two timers, `None` until the scene has started. */
    var pipeTimer: Option<Timer>
    var logoTimer: Option<Timer>
    /** The children of the `pipes` and `logos` groups, in group order. */
    var pipes: seq<Sprite>
    var logos: seq<Sprite>
    /** The bird's vertical position and velocity, and the angle of the latest tilt tween. */
    var birdY: real
    var birdVy: real
    var birdAngle: int
    /** Every event emitted on the game's event bus, oldest first. */
    var events: seq<GameEvent>

    /** `create` has run: the groups, the bird and the timers exist. */
    ghost predicate Started()
      reads this
    {
      pipeTimer.Some?
    }

    predicate TimersPaused()
      reads this
    {
      pipeTimer.Some? && pipeTimer.value.paused
    }

    ghost predicate Valid()
      reads this
    {
      && score >= 0
      && (forall p :: p in pipes ==> IsPipe(p))
      && (forall l :: l in logos ==> IsLogo(l))
      && pipeTimer.Some? == logoTimer.Some?
      && (pipeTimer.Some? ==> pipeTimer.value.delay == PIPE_DELAY && pipeTimer.value.loop)
      && (logoTimer.Some? ==>
            && LOGO_DELAY_MIN <= logoTimer.value.delay < LOGO_DELAY_MIN + LOGO_DELAY_SPREAD
            && logoTimer.value.loop
            && logoTimer.value.paused == pipeTimer.value.paused)
      // the timers are paused only while the game is stopped
      && (TimersPaused() ==> !isGameRunning)
      && (isGameRunning || pipes != [] || logos != [] ==> Started())
    }

    /** `new MainScene()` on a canvas of the given size: nothing has started yet. */
    constructor (width: nat, height: nat)
      ensures Valid() && !Started()
      ensures this.width == width && this.height == height
      ensures score == 0 && !isGameRunning && unlockedCount == Some(0)
      ensures pipes == [] && logos == [] && events == []
    {
      this.width, this.height := width, height;
      score, isGameRunning, unlockedCount := 0, false, Some(0);
      pipeTimer, logoTimer := None, None;
      pipes, logos := [], [];
      birdY, birdVy, birdAngle := BIRD_START_Y, 0.0, 0;
      events := [];
    }

    /**
     * `create`: a fresh bird, empty groups, score 0, running, and two fresh
     * looping timers, the logo one with its delay drawn from `r`. The unlocked
     * count and the event bus outlive the restart.
     */
    method Create(r: real)
      requires Valid() && 0.0 <= r < 1.0
      modifies this
      ensures Valid() && Started()
      ensures score == 0 && isGameRunning
      ensures pipes == [] && logos == []
      ensures pipeTimer == Some(Timer(PIPE_DELAY, true, false))
      ensures logoTimer == Some(Timer(LogoDelay(r), true, false))
      ensures birdY == BIRD_START_Y && birdVy == 0.0 && birdAngle == 0
      ensures unlockedCount == old(unlockedCount) && events == old(events)
    {
      birdY, birdVy, birdAngle := BIRD_START_Y, 0.0, 0;
      pipes, logos := [], [];
      score := 0;
      isGameRunning := true;
      pipeTimer := Some(Timer(PIPE_DELAY, true, false));
      logoTimer := Some(Timer(LogoDelay(r), true, false));
    }

    /**
     * `update`, once per frame: nothing while stopped; otherwise tilt the bird
     * by the sign of its velocity, end the game if it left the canvas, and
     * cull the groups (which goes on in the frame that ended the game).
     */
    method Update()
      requires Valid()
      modifies this
      ensures Valid()
      ensures !old(isGameRunning) ==> unchanged(this)
      ensures old(isGameRunning) ==>
        && birdAngle == (match Tilt.TiltTarget(birdVy) case Some(a) => a case None => old(birdAngle))
        && (if OutOfBounds(birdY, height)
            then !isGameRunning && events == old(events) + [GameOver]
            else isGameRunning && events == old(events))
        && pipes == Culling.Cull(old(pipes)) && logos == Culling.Cull(old(logos))
        && score == old(score) && unlockedCount == old(unlockedCount)
        && pipeTimer == old(pipeTimer) && logoTimer == old(logoTimer)
        && birdY == old(birdY) && birdVy == old(birdVy)
    {
      if !isGameRunning {
        return;
      }
      match Tilt.TiltTarget(birdVy) {
        case Some(angle) => birdAngle := angle;
        case None =>
      }
      if OutOfBounds(birdY, height) {
        HitPipe();
      }
      Culling.CullMembers(pipes);
      Culling.CullMembers(logos);
      pipes := Culling.DestroyOffScreen(pipes);
      logos := Culling.DestroyOffScreen(logos);
    }

    /** `jump`: while running, the bird gets the upward velocity 350; otherwise nothing. */
    method Jump()
      requires Valid()
      modifies this`birdVy
      ensures Valid()
      ensures birdVy == if old(isGameRunning) then JUMP_VELOCITY else old(birdVy)
    {
      if !isGameRunning {
        return;
      }
      birdVy := JUMP_VELOCITY;
    }

    /**
     * `addRowOfPipes`, when the pipe timer fires: while running, add one row
     * with its hole drawn from `r`, add 1 to the score and emit it; otherwise
     * nothing.
     */
    method AddRowOfPipes(r: real)
      requires Valid() && 0.0 <= r < 1.0
      modifies this
      ensures Valid()
      ensures !old(isGameRunning) ==> unchanged(this)
      ensures old(isGameRunning) ==>
        var total := PipeRow.SegmentCount(height);
        && pipes == old(pipes) + PipeRow.Row(width, PipeRow.ChooseHole(total, r), total)
        && score == old(score) + 1
        && events == old(events) + [ScoreUpdate(score)]
        && isGameRunning && unlockedCount == old(unlockedCount) && logos == old(logos)
        && pipeTimer == old(pipeTimer) && logoTimer == old(logoTimer)
        && birdY == old(birdY) && birdVy == old(birdVy) && birdAngle == old(birdAngle)
    {
      if !isGameRunning {
        return;
      }
      var total := PipeRow.SegmentCount(height);
      var hole := PipeRow.ChooseHole(total, r);
      for i := 0 to total
        modifies this`pipes
        invariant Valid() && isGameRunning
        invariant pipes == old(pipes) + PipeRow.Row(width, hole, i)
      {
        if !PipeRow.InHole(i, hole) {
          var texture, isCap := PipeBody, false;
          var isBottomPipe := i > hole + PipeRow.HOLE_HEIGHT - 1;
          if i == hole - 1 {
            texture, isCap := PipeCap, true;
          } else if i == hole + PipeRow.HOLE_HEIGHT {
            texture, isCap := PipeCap, true;
          }
          AddOnePipe(width as real, (i * PipeRow.SEGMENT_HEIGHT + PipeRow.SEGMENT_HEIGHT / 2) as real,
                     texture, isBottomPipe, isCap);
        }
      }
      score := score + 1;
      events := events + [ScoreUpdate(score)];
    }

    /** `addOnePipe`: add one pipe sprite to the `pipes` group. */
    method AddOnePipe(x: real, y: real, texture: Texture, flipVertical: bool, isCap: bool)
      requires Valid() && Started() && texture != LogoTexture
      modifies this`pipes
      ensures Valid()
      ensures pipes == old(pipes) + [MakePipe(x, y, texture, flipVertical, isCap)]
    {
      pipes := pipes + [MakePipe(x, y, texture, flipVertical, isCap)];
    }

    /**
     * `spawnLogo`, when the logo timer fires: while running, add a logo at the
     * right edge, at a height drawn from `r` in `[100, height - 100]`;
     * otherwise nothing.
     */
    method SpawnLogo(r: real)
      requires Valid() && 0.0 <= r < 1.0
      modifies this`logos
      ensures Valid()
      ensures !old(isGameRunning) ==> logos == old(logos)
      ensures old(isGameRunning) ==>
        var y := Randomness.Between(LOGO_MARGIN, height - LOGO_MARGIN, r);
        && logos == old(logos) + [MakeLogo(width as real, y as real)]
        && (height >= 2 * LOGO_MARGIN ==> LOGO_MARGIN <= y <= height - LOGO_MARGIN)
    {
      if !isGameRunning {
        return;
      }
      var y := Randomness.Between(LOGO_MARGIN, height - LOGO_MARGIN, r);
      logos := logos + [MakeLogo(width as real, y as real)];
    }

    /**
     * `collectLogo`, when the bird overlaps the logo at index `k` (whether or
     * not the game is running): the logo goes; with all answers unlocked the
     * score gains 10 and is emitted, otherwise the game pauses and asks the
     * host to unlock an answer.
     */
    method CollectLogo(k: nat)
      requires Valid() && k < |logos|
      modifies this
      ensures Valid()
      ensures logos == old(logos[..k] + logos[k + 1..])
      ensures pipes == old(pipes) && unlockedCount == old(unlockedCount)
      ensures birdY == old(birdY) && birdVy == old(birdVy) && birdAngle == old(birdAngle)
      ensures AllUnlocked(old(unlockedCount)) ==>
        && score == old(score) + BONUS_SCORE
        && events == old(events) + [ScoreUpdate(score)]
        && isGameRunning == old(isGameRunning)
        && pipeTimer == old(pipeTimer) && logoTimer == old(logoTimer)
      ensures !AllUnlocked(old(unlockedCount)) ==>
        && score == old(score)
        && events == old(events) + [UnlockAnswer]
        && !isGameRunning && TimersPaused()
        && pipeTimer == SetPaused(old(pipeTimer), true) && logoTimer == SetPaused(old(logoTimer), true)
    {
      logos := logos[..k] + logos[k + 1..];
      if AllUnlocked(unlockedCount) {
        score := score + BONUS_SCORE;
        events := events + [ScoreUpdate(score)];
      } else {
        PauseGame();
        events := events + [UnlockAnswer];
      }
    }

    /** `hitPipe`: stop the game and emit one game-over event; the timers keep running. */
    method HitPipe()
      requires Valid() && Started()
      modifies this`isGameRunning, this`events
      ensures Valid()
      ensures !isGameRunning
      ensures events == old(events) + [GameOver]
    {
      isGameRunning := false;
      events := events + [GameOver];
    }

    /** `pauseGame`: stop the game and pause whichever timers exist. */
    method PauseGame()
      requires Valid()
      modifies this`isGameRunning, this`pipeTimer, this`logoTimer
      ensures Valid()
      ensures !isGameRunning
      ensures pipeTimer == SetPaused(old(pipeTimer), true) && logoTimer == SetPaused(old(logoTimer), true)
      ensures Started() ==> TimersPaused()
    {
      isGameRunning := false;
      pipeTimer := SetPaused(pipeTimer, true);
      logoTimer := SetPaused(logoTimer, true);
    }

    /**
     * `resumeGame`, from any state (also after game over): run again, unpause
     * both timers, and kick the bird upwards at 200.
     */
    method ResumeGame()
      requires Valid() && Started()
      modifies this`isGameRunning, this`pipeTimer, this`logoTimer, this`birdVy
      ensures Valid()
      ensures isGameRunning && !TimersPaused()
      ensures pipeTimer == SetPaused(old(pipeTimer), false) && logoTimer == SetPaused(old(logoTimer), false)
      ensures birdVy == RESUME_VELOCITY
    {
      isGameRunning := true;
      pipeTimer := SetPaused(pipeTimer, false);
      logoTimer := SetPaused(logoTimer, false);
      birdVy := RESUME_VELOCITY;
    }

    /** `restartGame`: the scene starts over, which runs `create` again. */
    method RestartGame(r: real)
      requires Valid() && 0.0 <= r < 1.0
      modifies this
      ensures Valid() && Started()
      ensures score == 0 && isGameRunning
      ensures pipes == [] && logos == []
      ensures pipeTimer == Some(Timer(PIPE_DELAY, true, false))
      ensures logoTimer == Some(Timer(LogoDelay(r), true, false))
      ensures birdY == BIRD_START_Y && birdVy == 0.0 && birdAngle == 0
      ensures unlockedCount == old(unlockedCount) && events == old(events)
    {
      Create(r);
    }

    /** `setUnlockedCount`: remember what the host sent, `None` standing for `undefined`. */
    method SetUnlockedCount(count: Option<int>)
      requires Valid()
      modifies this`unlockedCount
      ensures Valid()
      ensures unlockedCount == count
    {
      unlockedCount := count;
    }

    /**
     * The engine's physics step, not part of the scene's code: it moves the
     * bird and gives every sprite a new horizontal position, keeping the groups
     * and all other sprite settings.
     */
    method EngineStep(y: real, vy: real, pipeXs: seq<real>, logoXs: seq<real>)
      requires Valid() && |pipeXs| == |pipes| && |logoXs| == |logos|
      modifies this`birdY, this`birdVy, this`pipes, this`logos
      ensures Valid()
      ensures birdY == y && birdVy == vy
      ensures pipes == MoveTo(old(pipes), pipeXs) && logos == MoveTo(old(logos), logoXs)
    {
      var oldPipes, oldLogos := pipes, logos;
      birdY, birdVy := y, vy;
      pipes := MoveTo(pipes, pipeXs);
      logos := MoveTo(logos, logoXs);
      forall p | p in pipes
        ensures IsPipe(p)
      {
        var i :| 0 <= i < |oldPipes| && p == oldPipes[i].(x := pipeXs[i]);
        assert oldPipes[i] in oldPipes;
      }
      forall l | l in logos
        ensures IsLogo(l)
      {
        var i :| 0 <= i < |oldLogos| && l == oldLogos[i].(x := logoXs[i]);
        assert oldLogos[i] in oldLogos;
      }
    }
  }
}
