/** The game state of game.js as an object whose fields the operations
    update in place, one method per function of the script. Each method is
    proved to produce the state the matching function of GameRules gives. */
module Game {
  import opened GameRules

  class GameState {
    var colorIndex: int
    /** The `colorInterval` handle. */
    var colorInterval: Interval
    /** setInterval timers the host still has scheduled. */
    var liveTimers: int
    var score: int
    var lives: int
    var colorSpeed: int
    var combo: int
    /** Also the bunny element's data-color-index attribute. */
    var bunnyColorIndex: int
    var gameOverFlag: bool

    /** The fields as a GameRules.State value. */
    function Model(): State
      reads this
    {
      State(colorIndex, colorInterval, liveTimers, score, lives, colorSpeed, combo,
            bunnyColorIndex, gameOverFlag)
    }

    ghost predicate Valid()
      reads this
    {
      Inv(Model())
    }

    /** Loading the script: the module-level initialisers, with the bunny's
        colour drawn at random. */
    constructor (bunnyDraw: int)
      requires IsColor(bunnyDraw)
      ensures Valid() && Model() == Initial(bunnyDraw)
    {
      colorIndex := 0;
      colorInterval := NoInterval;
      liveTimers := 0;
      score := 0;
      lives := StartLives;
      colorSpeed := StartSpeed;
      combo := 0;
      bunnyColorIndex := bunnyDraw;
      gameOverFlag := false;
    }

    /** The callback the interval runs each time it fires. */
    method Tick()
      requires Valid() && Running(Model())
      modifies this
      ensures Valid() && Model() == GameRules.Tick(old(Model()))
    {
      colorIndex := (colorIndex + 1) % PaletteSize;
    }

    method StartColorCycle(intervalMs: int)
      requires TimersAccounted(Model())
      modifies this
      ensures Model() == GameRules.StartColorCycle(old(Model()), intervalMs)
    {
      if colorInterval.Every? {
        liveTimers := liveTimers - 1;
      }
      colorInterval := Every(intervalMs);
      liveTimers := liveTimers + 1;
    }

    method StopColorCycle()
      requires TimersAccounted(Model())
      modifies this
      ensures Model() == GameRules.StopColorCycle(old(Model()))
    {
      if colorInterval.Every? {
        liveTimers := liveTimers - 1;
      }
      colorInterval := NoInterval;
    }

    method RestartColorCycle()
      requires TimersAccounted(Model())
      modifies this
      ensures Model() == GameRules.RestartColorCycle(old(Model()))
    {
      StopColorCycle();
      StartColorCycle(colorSpeed);
    }

    method HandleJump(nextColorIdx: int, platformDraw: int)
      requires Valid() && IsColor(nextColorIdx) && IsColor(platformDraw)
      modifies this
      ensures Valid() && Model() == Jump(old(Model()), nextColorIdx, platformDraw)
    {
      if gameOverFlag {
        return;
      }
      var matched := bunnyColorIndex == colorIndex;
      if matched {
        score := score + 1;
        combo := combo + 1;
        if combo % CombosPerSpeedUp == 0 && colorSpeed > MinSpeed {
          colorSpeed := colorSpeed - SpeedStep;
          RestartColorCycle();
        }
        JumpToNextPlatform(nextColorIdx, platformDraw);
      } else {
        TriggerFall();
      }
    }

    /** The state changes of jumpToNextPlatform(); the two draws are the
        script's two calls to the random source, in order. */
    method JumpToNextPlatform(nextColorIdx: int, platformDraw: int)
      requires IsColor(nextColorIdx) && IsColor(platformDraw)
      modifies this
      ensures Model() == GameRules.JumpToNextPlatform(old(Model()), nextColorIdx, platformDraw)
    {
      bunnyColorIndex := nextColorIdx;
      colorIndex := platformDraw;
    }

    method TriggerFall()
      requires Valid() && !gameOverFlag
      modifies this
      ensures Valid() && Model() == Fall(old(Model()))
    {
      lives := lives - 1;
      if lives <= 0 {
        gameOverFlag := true;
        StopColorCycle();
        combo := 0;
        colorSpeed := StartSpeed;
      }
    }

    method RestartGame(bunnyDraw: int)
      requires Valid() && IsColor(bunnyDraw)
      modifies this
      ensures Valid() && Model() == Restart(old(Model()), bunnyDraw)
    {
      gameOverFlag := false;
      score := 0;
      combo := 0;
      lives := StartLives;
      colorIndex := 0;
      bunnyColorIndex := bunnyDraw;
      StartColorCycle(colorSpeed);
    }

    /** The keydown (Space) and pointerdown handlers: start, restart or jump.
        `firstDraw` and `secondDraw` are the random draws the chosen handler
        consumes; restarting uses only the first. */
    method Press(firstDraw: int, secondDraw: int) returns (action: Action)
      requires Valid() && IsColor(firstDraw) && IsColor(secondDraw)
      modifies this
      ensures action == Route(old(Model()))
      ensures Valid() && Model() == GameRules.Press(old(Model()), firstDraw, secondDraw)
    {
      if colorInterval == NoInterval && !gameOverFlag {
        action := StartsCycle;
        StartColorCycle(colorSpeed);
      } else if gameOverFlag {
        action := RestartsGame;
        RestartGame(firstDraw);
      } else {
        action := Jumps;
        HandleJump(firstDraw, secondDraw);
      }
    }
  }

  /** A client that drives one game through a start, matches, misses, the
      end of the game and a restart, and checks from the contracts alone what
      the state is after each step. */
  method ReplayGame() {
    var g := new GameState(0);
    var a := g.Press(0, 0);
    assert a == StartsCycle && g.colorInterval == Every(900) && g.liveTimers == 1;

    // Bunny and platform both colour 0: a match.
    a := g.Press(1, 1);
    assert a == Jumps && g.score == 1 && g.combo == 1 && g.lives == 3;
    // Bunny 1, platform 1: four more matches; the fifth speeds up.
    a := g.Press(2, 2);
    a := g.Press(3, 3);
    a := g.Press(0, 0);
    assert g.combo == 4 && g.colorSpeed == 900;
    a := g.Press(1, 0);
    assert g.score == 5 && g.combo == 5;
    assert g.colorSpeed == 800 && g.colorInterval == Every(800) && g.liveTimers == 1;

    // Bunny 1, platform 0: three misses end the game.
    a := g.Press(2, 2);
    assert g.lives == 2 && g.score == 5 && g.combo == 5;
    a := g.Press(2, 2);
    assert g.lives == 1;
    a := g.Press(2, 2);
    assert g.lives == 0 && g.gameOverFlag && g.colorInterval == NoInterval && g.liveTimers == 0;
    assert g.combo == 0 && g.colorSpeed == 900 && g.score == 5;

    // A jump after the game is over changes nothing.
    ghost var before := g.Model();
    g.HandleJump(3, 3);
    assert g.Model() == before;

    // The next press restarts.
    a := g.Press(2, 3);
    assert a == RestartsGame && !g.gameOverFlag && g.score == 0 && g.combo == 0 && g.lives == 3;
    assert g.colorIndex == 0 && g.bunnyColorIndex == 2 && g.colorInterval == Every(900);
    g.Tick();
    g.Tick();
    assert g.colorIndex == 2 && g.bunnyColorIndex == 2;
  }
}
