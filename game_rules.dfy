/** The rules of the Hiphop-bunny game as functions on a state value.
    Every operation of game.js that changes the module-level state is a
    function from the old State to the new one; the class in game.dfy
    updates its fields in place and is proved to agree with these. */
module GameRules {

  /** COLORS.length: the palette has four colours. */
  const PaletteSize := 4
  const StartLives := 3
  /** Initial (and post-game-over) delay of the colour ticker, in ms. */
  const StartSpeed := 900
  /** The ticker only speeds up while colorSpeed is above this. */
  const MinSpeed := 400
  const SpeedStep := 100
  /** Every fifth consecutive match speeds the ticker up. */
  const CombosPerSpeedUp := 5

  /** The handle `colorInterval`: null, or a scheduled setInterval with its delay. */
  datatype Interval = NoInterval | Every(delayMs: int)

  /** The module-level variables of game.js. `liveTimers` counts the
      setInterval timers the host still has scheduled (each started and not
      yet cleared); `bunnyColorIndex` also stands for the bunny element's
      data-color-index attribute, which is always written with it. */
  datatype State = State(
    colorIndex: int,
    colorInterval: Interval,
    liveTimers: int,
    score: int,
    lives: int,
    colorSpeed: int,
    combo: int,
    bunnyColorIndex: int,
    gameOverFlag: bool)

  /** What a press of Space or a pointer press does. */
  datatype Action = StartsCycle | RestartsGame | Jumps

  /** Events the game reacts to: the ticker fires, or the player presses.
      A press carries the random draws the handler may consume, in order. */
  datatype Event = TimerFired | Pressed(firstDraw: int, secondDraw: int)

  predicate IsColor(i: int) {
    0 <= i < PaletteSize
  }

  predicate Running(s: State) {
    s.colorInterval.Every?
  }

  /** The handle is the only timer: one live timer when set, none when null. */
  predicate TimersAccounted(s: State) {
    s.liveTimers == if Running(s) then 1 else 0
  }

  predicate Matched(s: State) {
    s.bunnyColorIndex == s.colorIndex
  }

  /** The invariant every reachable state keeps. */
  predicate Inv(s: State) {
    && IsColor(s.colorIndex)
    && IsColor(s.bunnyColorIndex)
    && TimersAccounted(s)
    && 0 <= s.combo <= s.score
    && 0 <= s.lives <= StartLives
    && MinSpeed <= s.colorSpeed <= StartSpeed
    && s.colorSpeed % SpeedStep == 0
    && (Running(s) ==> s.colorInterval.delayMs == s.colorSpeed)
    && (s.gameOverFlag <==> s.lives == 0)
    && (s.gameOverFlag ==> !Running(s) && s.combo == 0 && s.colorSpeed == StartSpeed)
  }

  predicate WellDrawn(e: Event) {
    e.Pressed? ==> IsColor(e.firstDraw) && IsColor(e.secondDraw)
  }

  predicate AllWellDrawn(events: seq<Event>) {
    forall e :: e in events ==> WellDrawn(e)
  }

  /** The state when the script has loaded: nothing started yet. */
  function Initial(bunnyDraw: int): (s: State)
    requires IsColor(bunnyDraw)
    ensures Inv(s)
    ensures !Running(s) && !s.gameOverFlag && Route(s) == StartsCycle
    ensures s.score == 0 && s.combo == 0 && s.lives == StartLives
    ensures s.colorSpeed == StartSpeed && s.colorIndex == 0 && s.bunnyColorIndex == bunnyDraw
  {
    State(0, NoInterval, 0, 0, StartLives, StartSpeed, 0, bunnyDraw, false)
  }

  /** One firing of the interval callback: the platform colour moves on,
      wrapping from the last palette entry to the first. */
  function Tick(s: State): (t: State)
    requires Inv(s) && Running(s)
    ensures Inv(t) && Running(t)
    ensures t.colorIndex == if s.colorIndex == PaletteSize - 1 then 0 else s.colorIndex + 1
    ensures t == s.(colorIndex := t.colorIndex)
  {
    s.(colorIndex := (s.colorIndex + 1) % PaletteSize)
  }

  /** `n` firings of the ticker in a row. */
  function Ticks(s: State, n: nat): (t: State)
    requires Inv(s) && Running(s)
    ensures Inv(t) && Running(t)
  {
    if n == 0 then s else Tick(Ticks(s, n - 1))
  }

  /** startColorCycle(intervalMs): clear the old timer if there is one, then
      schedule a new one. Whatever the ticker was, exactly one timer is live. */
  function StartColorCycle(s: State, intervalMs: int): (t: State)
    requires TimersAccounted(s)
    ensures t.colorInterval == Every(intervalMs) && t.liveTimers == 1
    ensures t == s.(colorInterval := t.colorInterval, liveTimers := t.liveTimers)
  {
    var cleared := if Running(s) then s.liveTimers - 1 else s.liveTimers;
    s.(colorInterval := Every(intervalMs), liveTimers := cleared + 1)
  }

  /** stopColorCycle(): clear the timer if there is one; no timer is live. */
  function StopColorCycle(s: State): (t: State)
    requires TimersAccounted(s)
    ensures !Running(t) && t.liveTimers == 0
    ensures t == s.(colorInterval := NoInterval, liveTimers := 0)
    ensures !Running(s) ==> t == s
  {
    var cleared := if Running(s) then s.liveTimers - 1 else s.liveTimers;
    s.(colorInterval := NoInterval, liveTimers := cleared)
  }

  /** restartColorCycle(): stop, then start again at the current speed. */
  function RestartColorCycle(s: State): (t: State)
    requires TimersAccounted(s)
    ensures t.colorInterval == Every(s.colorSpeed) && t.liveTimers == 1
    ensures t == s.(colorInterval := t.colorInterval, liveTimers := t.liveTimers)
  {
    StartColorCycle(StopColorCycle(s), s.colorSpeed)
  }

  /** The state part of jumpToNextPlatform(): the first draw becomes the
      bunny's colour, the second the platform's colour. */
  function JumpToNextPlatform(s: State, nextColorIdx: int, platformDraw: int): (t: State)
    requires IsColor(nextColorIdx) && IsColor(platformDraw)
    ensures t.bunnyColorIndex == nextColorIdx && t.colorIndex == platformDraw
    ensures t == s.(bunnyColorIndex := t.bunnyColorIndex, colorIndex := t.colorIndex)
  {
    s.(bunnyColorIndex := nextColorIdx, colorIndex := platformDraw)
  }

  /** triggerFall(): one life lost. The last life ends the game, stops the
      ticker and resets combo and speed; any other miss changes nothing else
      (in particular the combo is kept). */
  function Fall(s: State): (t: State)
    requires Inv(s) && !s.gameOverFlag
    ensures Inv(t)
    ensures t.lives == s.lives - 1 && t.score == s.score
    ensures t.gameOverFlag <==> s.lives == 1
    ensures !t.gameOverFlag ==> t == s.(lives := s.lives - 1)
    ensures t.gameOverFlag ==>
      && !Running(t) && t.liveTimers == 0
      && t.combo == 0 && t.colorSpeed == StartSpeed
      && t.colorIndex == s.colorIndex && t.bunnyColorIndex == s.bunnyColorIndex
  {
    var lost := s.(lives := s.lives - 1);
    if lost.lives <= 0 then
      StopColorCycle(lost.(gameOverFlag := true)).(combo := 0, colorSpeed := StartSpeed)
    else
      lost
  }

  /** Whether the match that brings the combo to `combo` speeds the ticker up. */
  predicate SpeedsUp(combo: int, colorSpeed: int) {
    combo % CombosPerSpeedUp == 0 && colorSpeed > MinSpeed
  }

  /** handleJump(): ignored once the game is over; a match scores, extends
      the combo, maybe speeds up the ticker and moves to the next platform;
      a miss falls. */
  function Jump(s: State, nextColorIdx: int, platformDraw: int): (t: State)
    requires Inv(s) && IsColor(nextColorIdx) && IsColor(platformDraw)
    ensures Inv(t)
    ensures s.gameOverFlag ==> t == s
    ensures !s.gameOverFlag && Matched(s) ==>
      && t.score == s.score + 1 && t.combo == s.combo + 1
      && t.lives == s.lives && !t.gameOverFlag
      && t.bunnyColorIndex == nextColorIdx && t.colorIndex == platformDraw
    ensures !s.gameOverFlag && !Matched(s) ==> t == Fall(s)
  {
    if s.gameOverFlag then
      s
    else if Matched(s) then
      var scored := s.(score := s.score + 1, combo := s.combo + 1);
      var paced :=
        if SpeedsUp(scored.combo, scored.colorSpeed) then
          RestartColorCycle(scored.(colorSpeed := scored.colorSpeed - SpeedStep))
        else
          scored;
      JumpToNextPlatform(paced, nextColorIdx, platformDraw)
    else
      Fall(s)
  }

  /** restartGame(): a new game with a fresh bunny colour and a running
      ticker. The speed is left as it is. */
  function Restart(s: State, bunnyDraw: int): (t: State)
    requires Inv(s) && IsColor(bunnyDraw)
    ensures Inv(t)
    ensures !t.gameOverFlag && t.score == 0 && t.combo == 0 && t.lives == StartLives
    ensures t.colorIndex == 0 && t.bunnyColorIndex == bunnyDraw
    ensures t.colorSpeed == s.colorSpeed
    ensures t.colorInterval == Every(t.colorSpeed) && t.liveTimers == 1
  {
    var reset := s.(gameOverFlag := false, score := 0, combo := 0, lives := StartLives,
                    colorIndex := 0, bunnyColorIndex := bunnyDraw);
    StartColorCycle(reset, reset.colorSpeed)
  }

  /** The rule shared by the keydown (Space) and pointerdown handlers. */
  function Route(s: State): (a: Action)
    ensures a == StartsCycle <==> !Running(s) && !s.gameOverFlag
    ensures a == RestartsGame <==> s.gameOverFlag
    ensures a == Jumps <==> Running(s) && !s.gameOverFlag
  {
    if !Running(s) && !s.gameOverFlag then StartsCycle
    else if s.gameOverFlag then RestartsGame
    else Jumps
  }

  /** A press: start, restart or jump, as Route says. Afterwards the ticker
      runs exactly when the game is not over. Starting touches only the
      ticker; restarting a finished game is a fresh load-time game, started. */
  function Press(s: State, firstDraw: int, secondDraw: int): (t: State)
    requires Inv(s) && IsColor(firstDraw) && IsColor(secondDraw)
    ensures Inv(t)
    ensures Running(t) <==> !t.gameOverFlag
    ensures Route(s) == StartsCycle ==>
      t == s.(colorInterval := Every(s.colorSpeed), liveTimers := 1)
    ensures Route(s) == RestartsGame ==>
      t == StartColorCycle(Initial(firstDraw), StartSpeed)
  {
    match Route(s)
    case StartsCycle => StartColorCycle(s, s.colorSpeed)
    case RestartsGame => Restart(s, firstDraw)
    case Jumps => Jump(s, firstDraw, secondDraw)
  }

  /** One event. A stopped ticker has no timer that could fire. */
  function Step(s: State, e: Event): (t: State)
    requires Inv(s) && WellDrawn(e)
    ensures Inv(t)
  {
    match e
    case TimerFired => if Running(s) then Tick(s) else s
    case Pressed(a, b) => Press(s, a, b)
  }

  /** A sequence of events, in order. */
  function Run(s: State, events: seq<Event>): (t: State)
    requires Inv(s) && AllWellDrawn(events)
    ensures Inv(t)
    decreases |events|
  {
    if events == [] then s else Run(Step(s, events[0]), events[1..])
  }

  /** No state along the run, the first and the last included, is game over. */
  predicate InOneSession(s: State, events: seq<Event>)
    requires Inv(s) && AllWellDrawn(events)
    decreases |events|
  {
    !s.gameOverFlag && (events == [] || InOneSession(Step(s, events[0]), events[1..]))
  }

  // ---------------------------------------------------------------------
  // Properties

  /** After `n` ticks from colour index `i`, the colour index is (i + n) mod 4
      and nothing else has changed. */
  lemma {:induction false} TicksAdvance(s: State, n: nat)
    requires Inv(s) && Running(s)
    ensures Ticks(s, n) == s.(colorIndex := (s.colorIndex + n) % PaletteSize)
  {
    if n > 0 {
      TicksAdvance(s, n - 1);
      var i := s.colorIndex;
      assert ((i + n - 1) % PaletteSize + 1) % PaletteSize == (i + n) % PaletteSize;
    }
  }

  /** The speed changes on a matched jump exactly when the new combo is a
      (positive) multiple of 5 and the speed is above 400; it then drops by
      exactly 100 and the ticker is restarted at the new speed. Otherwise the
      ticker is left alone. */
  lemma MatchedJumpSpeed(s: State, nextColorIdx: int, platformDraw: int)
    requires Inv(s) && IsColor(nextColorIdx) && IsColor(platformDraw)
    requires !s.gameOverFlag && Matched(s)
    ensures var t := Jump(s, nextColorIdx, platformDraw);
      && (t.colorSpeed != s.colorSpeed <==>
            t.combo > 0 && t.combo % CombosPerSpeedUp == 0 && s.colorSpeed > MinSpeed)
      && (t.colorSpeed != s.colorSpeed ==>
            t.colorSpeed == s.colorSpeed - SpeedStep && t.colorInterval == Every(t.colorSpeed))
      && (t.colorSpeed == s.colorSpeed ==>
            t.colorInterval == s.colorInterval && t.liveTimers == s.liveTimers)
  {
  }

  /** A miss costs exactly one life and never changes the score; while lives
      remain, nothing else changes. */
  lemma MissedJump(s: State, nextColorIdx: int, platformDraw: int)
    requires Inv(s) && IsColor(nextColorIdx) && IsColor(platformDraw)
    requires !s.gameOverFlag && !Matched(s)
    ensures var t := Jump(s, nextColorIdx, platformDraw);
      && t.lives == s.lives - 1 && t.lives >= 0 && t.score == s.score
      && (t.lives > 0 ==> t == s.(lives := s.lives - 1))
      && (t.lives == 0 ==> t.gameOverFlag && !Running(t) && t.combo == 0 && t.colorSpeed == StartSpeed)
  {
  }

  /** The game ends only through a miss on the last life; nothing else
      sets the game-over flag. */
  lemma GameOverOnlyByLastMiss(s: State, e: Event)
    requires Inv(s) && WellDrawn(e)
    requires !s.gameOverFlag && Step(s, e).gameOverFlag
    ensures e.Pressed? && Route(s) == Jumps && !Matched(s) && s.lives == 1
    ensures Step(s, e).lives == 0
  {
  }

  /** Restarting a finished game gives the state the script loads with,
      with the ticker started at 900 ms. */
  lemma RestartIsFreshStart(s: State, bunnyDraw: int)
    requires Inv(s) && IsColor(bunnyDraw) && s.gameOverFlag
    ensures Restart(s, bunnyDraw) == StartColorCycle(Initial(bunnyDraw), StartSpeed)
  {
  }

  /** One event never raises the speed unless it ends the game; a finished
      game keeps 900 ms until the next one. */
  lemma StepSpeed(s: State, e: Event)
    requires Inv(s) && WellDrawn(e)
    ensures var t := Step(s, e);
      (!t.gameOverFlag || s.gameOverFlag ==> t.colorSpeed <= s.colorSpeed)
      && (s.gameOverFlag ==> t.colorSpeed == s.colorSpeed)
      && (t.colorSpeed < s.colorSpeed ==> t.colorSpeed == s.colorSpeed - SpeedStep)
  {
  }

  /** Within one game the ticker never slows down. */
  lemma {:induction false} SpeedNeverRisesInSession(s: State, events: seq<Event>)
    requires Inv(s) && AllWellDrawn(events)
    requires InOneSession(s, events)
    ensures Run(s, events).colorSpeed <= s.colorSpeed
    decreases |events|
  {
    if events != [] {
      var t := Step(s, events[0]);
      StepSpeed(s, events[0]);
      SpeedNeverRisesInSession(t, events[1..]);
    }
  }

  /** From the state the script loads with, every run keeps lives in [0, 3],
      the speed a multiple of 100 in [400, 900] and at most one live timer. */
  lemma {:induction false} ReachableStatesAreSane(bunnyDraw: int, events: seq<Event>)
    requires IsColor(bunnyDraw) && AllWellDrawn(events)
    ensures var t := Run(Initial(bunnyDraw), events);
      && 0 <= t.lives <= StartLives
      && MinSpeed <= t.colorSpeed <= StartSpeed && t.colorSpeed % SpeedStep == 0
      && 0 <= t.liveTimers <= 1
      && IsColor(t.colorIndex) && IsColor(t.bunnyColorIndex)
      && (t.gameOverFlag <==> t.lives == 0)
  {
  }
}
