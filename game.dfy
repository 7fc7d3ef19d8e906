/** The game: a player and a boss in the arena, the brain that watches the player, and the
    main loop that reads events, advances one frame and decides when the fight is over. */
module Game {
  import opened Settings
  import opened Utils
  import opened Events
  import opened Player
  import opened AiBrain
  import opened Boss

  /** Where the fight starts: the player in the middle of the arena, the boss at the top
      centre of the window. */
  const PlayerStartX: int := ArenaX + ArenaWidth / 2
  const PlayerStartY: int := ArenaY + ArenaHeight / 2
  const BossStartX: int := Width / 2
  const BossStartY: int := 100

  // ---------------------------------------------------------------------------
  // Events

  /** The flags the event handler reads and writes, and whether it restarted the game. */
  datatype Control = Control(running: bool, gameOver: bool, restarted: bool)

  /** Whether an event closes the game: the window's close request or Escape. */
  predicate Stops(e: Event) {
    e.Quit? || e == KeyDown(Escape)
  }

  /** One event: a close request or Escape stops the loop; R while the game is over starts a
      new game, which also sets the loop running again. */
  function Handled(c: Control, e: Event): Control {
    var quit := if e.Quit? then c.(running := false) else c;
    if e.KeyDown? then
      var escaped := if e.key == Escape then quit.(running := false) else quit;
      if e.key == R && escaped.gameOver then Control(true, false, true) else escaped
    else quit
  }

  /** The restart flag only accumulates: handling an event never clears it and never
      depends on it. */
  lemma HandledKeepsRestart(c: Control, e: Event)
    ensures var r := Handled(c.(restarted := false), e);
      Handled(c, e) == r.(restarted := c.restarted || r.restarted)
  {
  }

  /** The events of a frame, in order. */
  function AfterEvents(c: Control, events: seq<Event>): Control
    decreases |events|
  {
    if events == [] then c
    else Handled(AfterEvents(c, events[..|events| - 1]), events[|events| - 1])
  }

  /** Handling one more event of the frame. */
  lemma AfterEventsStep(c: Control, events: seq<Event>, i: int)
    requires 0 <= i < |events|
    ensures AfterEvents(c, events[..i + 1]) == Handled(AfterEvents(c, events[..i]), events[i])
  {
    assert events[..i + 1][..i] == events[..i];
  }

  /** While the game is not over nothing restarts it, and the loop keeps running exactly
      when it was running and no event of the frame closes the game. */
  lemma {:induction false} EventsDuringPlay(c: Control, events: seq<Event>)
    requires !c.gameOver
    ensures var r := AfterEvents(c, events);
      && !r.gameOver && r.restarted == c.restarted
      && (r.running <==> c.running && forall k :: 0 <= k < |events| ==> !Stops(events[k]))
    decreases |events|
  {
    if events != [] {
      var n := |events| - 1;
      var front := events[..n];
      EventsDuringPlay(c, front);
      assert forall k :: 0 <= k < n ==> front[k] == events[k];
    }
  }

  /** A restart needs the game to be over and an R in the frame; after one the game is not
      over. */
  lemma {:induction false} RestartNeedsGameOver(c: Control, events: seq<Event>)
    ensures var r := AfterEvents(c, events);
      && (r.restarted && !c.restarted ==> c.gameOver && exists k :: 0 <= k < |events| && events[k] == KeyDown(R))
      && (r.restarted && !c.restarted ==> !r.gameOver)
      && (!r.restarted ==> r.gameOver == c.gameOver)
    decreases |events|
  {
    if events != [] {
      var n := |events| - 1;
      var front := events[..n];
      RestartNeedsGameOver(c, front);
      var f := AfterEvents(c, front);
      if AfterEvents(c, events).restarted && !c.restarted && !f.restarted {
        assert events[n] == KeyDown(R);
      }
      if exists k :: 0 <= k < n && front[k] == KeyDown(R) {
        var k :| 0 <= k < n && front[k] == KeyDown(R);
        assert events[k] == KeyDown(R);
      }
    }
  }

  /** On the game-over screen, R restarts; a close request in the same frame before the R is
      undone by the restart, one after it is not. */
  lemma {:induction false} RestartExamples()
    ensures AfterEvents(Control(true, true, false), [KeyDown(R)]) == Control(true, false, true)
    ensures AfterEvents(Control(true, true, false), [Quit, KeyDown(R)]) == Control(true, false, true)
    ensures AfterEvents(Control(true, true, false), [KeyDown(R), Quit]) == Control(false, false, true)
    ensures AfterEvents(Control(true, false, false), [KeyDown(R)]) == Control(true, false, false)
  {
    assert [Quit, KeyDown(R)][..1] == [Quit];
    assert [KeyDown(R), Quit][..1] == [KeyDown(R)];
  }

  // ---------------------------------------------------------------------------
  // The whole game as a value

  /** Everything a frame of the game changes. */
  datatype World = World(player: PlayerState, boss: BossState, profile: Profile, gameTime: real,
                         aiTimer: real, gameOver: bool, victory: bool, running: bool)

  /** The game just started: the player at the arena's centre with full hp, the boss calm
      with full hp, the brain with whatever the behaviour file gave. */
  function InitialWorld(stored: Stored): World {
    World(Start(PlayerStartX, PlayerStartY),
          BossState(BossHp, Tranquilo, [], 0.0, 0.0, "", 0.0),
          Loaded(Blank, stored), 0.0, 0.0, false, false, true)
  }

  /** One frame of play: the player moves and shoots, the boss acts against the player as
      it now stands, the brain analyses the player every `AiAnalysisInterval` seconds, and
      the fight ends when the player's hp or the boss's is gone, a dead boss counting as a
      victory. */
  function WorldFrame(w: World, tuning: Tuning, dt: real, keys: Keys, geo: Geometry,
                      pick: nat, quip: nat, draw: nat -> real): World
  {
    Concluded(Played(w, tuning, dt, keys, geo, pick, quip, draw), dt)
  }

  /** The moving part of a frame: the player's own frame, then the boss's against the
      player as it now stands, whose bullets may hit it. */
  function Played(w: World, tuning: Tuning, dt: real, keys: Keys, geo: Geometry,
                  pick: nat, quip: nat, draw: nat -> real): World
  {
    var p := Frame(w.player, tuning, dt, keys, geo);
    var (b, v) := BossFrame(w.boss, BossStartX, BossStartY, w.profile, p.vitals, p.x, p.y, dt, geo, pick, quip, draw);
    w.(player := p.(vitals := v), boss := b)
  }

  /** The end of a frame, once the player and the boss have moved: the brain's timer and
      analysis, and the verdict on the fight. */
  function Concluded(w: World, dt: real): World {
    var timer := w.aiTimer + dt;
    var analyses := timer >= AiAnalysisInterval;
    var profile := if analyses then Analyzed(w.profile, w.player.tally.dodges, w.player.vitals.hitsTaken, w.gameTime)
                   else w.profile;
    var over := w.gameOver || w.player.vitals.hp <= 0 || w.boss.hp <= 0;
    var victory := if w.boss.hp <= 0 then true else if w.player.vitals.hp <= 0 then false else w.victory;
    w.(profile := profile, aiTimer := if analyses then 0.0 else timer, gameOver := over, victory := victory)
  }

  /** The world once a pass of the main loop has advanced the clock by `dt` and handled the
      frame's events: a restart gives a new game, otherwise only the clock and the running
      flag move. */
  function Begun(w: World, dt: real, events: seq<Event>, stored: Stored): World {
    var c := AfterEvents(Control(w.running, w.gameOver, false), events);
    if c.restarted then InitialWorld(stored).(running := c.running)
    else w.(gameTime := w.gameTime + dt, running := c.running)
  }

  /** One pass of the main loop: the clock and the events, then a frame unless the game is
      over. */
  function Pass(w: World, tuning: Tuning, dt: real, events: seq<Event>, stored: Stored, keys: Keys,
                geo: Geometry, pick: nat, quip: nat, draw: nat -> real): World
  {
    var s := Begun(w, dt, events, stored);
    if s.gameOver then s else WorldFrame(s, tuning, dt, keys, geo, pick, quip, draw)
  }

  /** A pass during the fight advances the clock and plays a frame; the loop goes on
      exactly when no event of the frame closes the game. */
  lemma {:induction false} PassDuringPlay(w: World, tuning: Tuning, dt: real, events: seq<Event>, stored: Stored,
                                          keys: Keys, geo: Geometry, pick: nat, quip: nat, draw: nat -> real)
    requires !w.gameOver
    ensures var running := w.running && forall k :: 0 <= k < |events| ==> !Stops(events[k]);
      Pass(w, tuning, dt, events, stored, keys, geo, pick, quip, draw) ==
        WorldFrame(w.(gameTime := w.gameTime + dt, running := running), tuning, dt, keys, geo, pick, quip, draw)
  {
    EventsDuringPlay(Control(w.running, w.gameOver, false), events);
  }

  /** On the game-over screen a pass without R only advances the clock and reads the close
      requests; nothing is played. */
  lemma {:induction false} PassWhileOver(w: World, tuning: Tuning, dt: real, events: seq<Event>, stored: Stored,
                                         keys: Keys, geo: Geometry, pick: nat, quip: nat, draw: nat -> real)
    requires w.gameOver && forall k :: 0 <= k < |events| ==> events[k] != KeyDown(R)
    ensures var c := AfterEvents(Control(w.running, true, false), events);
      Pass(w, tuning, dt, events, stored, keys, geo, pick, quip, draw) ==
        w.(gameTime := w.gameTime + dt, running := c.running)
  {
    RestartNeedsGameOver(Control(w.running, w.gameOver, false), events);
  }

  /** Nothing in a frame lowers the boss's hp, so a fight that started without a victory
      never reaches one: the game is over exactly when it already was or the player's hp has
      run out. */
  lemma {:induction false} NoVictory(w: World, tuning: Tuning, dt: real, keys: Keys, geo: Geometry,
                                     pick: nat, quip: nat, draw: nat -> real)
    requires w.boss.hp > 0 && !w.victory
    ensures var r := WorldFrame(w, tuning, dt, keys, geo, pick, quip, draw);
      && r.boss.hp == w.boss.hp && !r.victory
      && (r.gameOver <==> w.gameOver || r.player.vitals.hp <= 0)
  {
    var p := Frame(w.player, tuning, dt, keys, geo);
    BossFrameKeepsHp(w.boss, BossStartX, BossStartY, w.profile, p.vitals, p.x, p.y, dt, geo, pick, quip, draw);
  }

  /** The player's frame and the boss's bullets: the player is where its own frame put it,
      and the bullets cost it at most one hit. */
  lemma {:induction false} PlayerSideOfFrame(w: World, tuning: Tuning, dt: real, keys: Keys, geo: Geometry,
                                             pick: nat, quip: nat, draw: nat -> real)
    ensures var r := WorldFrame(w, tuning, dt, keys, geo, pick, quip, draw);
      var p := Frame(w.player, tuning, dt, keys, geo);
      && r.player == p.(vitals := r.player.vitals)
      && (r.player.vitals == p.vitals || r.player.vitals == Hit(p.vitals, ContactDamage).0)
  {
    var p := Frame(w.player, tuning, dt, keys, geo);
    var target := PlayerRect(p.x, p.y);
    var t := Turned(w.boss, w.profile, p.vitals.hp, dt);
    SweptDamage(t.bullets, geo, target, p.vitals);
  }

  /** The brain is consulted every three seconds: the analysis timer stays in [0, 3); the
      profile is replaced by the analysis of the player as this frame left it exactly when
      the timer reaches 3, and stays otherwise. */
  lemma {:induction false} AnalysisCadence(w: World, tuning: Tuning, dt: real, keys: Keys, geo: Geometry,
                                           pick: nat, quip: nat, draw: nat -> real)
    requires 0.0 <= w.aiTimer < AiAnalysisInterval && dt >= 0.0
    ensures var r := WorldFrame(w, tuning, dt, keys, geo, pick, quip, draw);
      && 0.0 <= r.aiTimer < AiAnalysisInterval
      && (w.aiTimer + dt >= 3.0 ==>
            r.aiTimer == 0.0 &&
            r.profile == Analyzed(w.profile, r.player.tally.dodges, r.player.vitals.hitsTaken, w.gameTime))
      && (w.aiTimer + dt < 3.0 ==> r.aiTimer == w.aiTimer + dt && r.profile == w.profile)
  {
  }

  /** Once over, the game stays over through further frames. */
  lemma {:induction false} GameOverSticks(w: World, tuning: Tuning, dt: real, keys: Keys, geo: Geometry,
                                          pick: nat, quip: nat, draw: nat -> real)
    requires w.gameOver
    ensures WorldFrame(w, tuning, dt, keys, geo, pick, quip, draw).gameOver
  {
  }

  // ---------------------------------------------------------------------------
  // The game object

  class Game {
    var running: bool
    var aiBrain: AIBrain
    var player: Player
    var boss: Boss
    var gameTime: real
    var aiAnalysisTimer: real
    var gameOver: bool
    var victory: bool

    /** The player's tuning constants, kept for a restart. */
    const tuning: Tuning

    /** The game's fields and those of its parts as one value. */
    ghost function State(): World
      reads this, player, boss, aiBrain
    {
      World(player.State(), boss.State(), aiBrain.playerData, gameTime, aiAnalysisTimer,
                 gameOver, victory, running)
    }

    /** The parts are wired together and keep their invariants, the boss stands where it
        started and the analysis timer is below its interval. */
    ghost predicate Valid()
      reads this, player, boss
    {
      && tuning.Valid() && player.Valid() && player.tuning == tuning
      && boss.Valid() && boss.ai == aiBrain && boss.x == BossStartX && boss.y == BossStartY
      && 0.0 <= aiAnalysisTimer < AiAnalysisInterval
    }

    /** A new game; `stored` is what the behaviour file gives the brain. */
    constructor (tuning: Tuning, stored: Stored)
      requires tuning.Valid()
      ensures this.tuning == tuning
      ensures Valid() && State() == InitialWorld(stored)
    {
      this.tuning := tuning;
      running := true;
      gameTime := 0.0;
      aiAnalysisTimer := 0.0;
      gameOver := false;
      victory := false;
      var brain := new AIBrain(stored);
      var hero := new Player(PlayerStartX, PlayerStartY, tuning);
      var enemy := new Boss(BossStartX, BossStartY, brain);
      aiBrain := brain;
      player := hero;
      boss := enemy;
    }

    /** Starts over with new parts, exactly as a new game. */
    method Restart(stored: Stored)
      requires tuning.Valid()
      modifies this
      ensures Valid() && State() == InitialWorld(stored)
      ensures fresh(player) && fresh(boss) && fresh(aiBrain)
    {
      running, gameTime, aiAnalysisTimer, gameOver, victory := true, 0.0, 0.0, false, false;
      var brain := new AIBrain(stored);
      var hero := new Player(PlayerStartX, PlayerStartY, tuning);
      var enemy := new Boss(BossStartX, BossStartY, brain);
      aiBrain, player, boss := brain, hero, enemy;
    }

    /** Reads the frame's events in order; the flags end as `AfterEvents` says, and a restart
        leaves a new game. */
    method HandleEvents(events: seq<Event>, stored: Stored) returns (ghost restarted: bool)
      requires Valid()
      modifies this
      ensures Valid()
      ensures AfterEvents(Control(old(running), old(gameOver), false), events) == Control(running, gameOver, restarted)
      ensures restarted ==> State() == InitialWorld(stored).(running := running)
      ensures restarted ==> fresh(player) && fresh(boss) && fresh(aiBrain)
      ensures !restarted ==> State() == old(State()).(running := running) && player == old(player) && boss == old(boss)
    {
      restarted := false;
      ghost var c := Control(running, gameOver, false);
      var i := 0;
      while i < |events|
        invariant 0 <= i <= |events|
        invariant Valid()
        invariant AfterEvents(c, events[..i]) == Control(running, gameOver, restarted)
        invariant restarted ==> State() == InitialWorld(stored).(running := running)
        invariant restarted ==> fresh(player) && fresh(boss) && fresh(aiBrain)
        invariant !restarted ==> (&& player == old(player) && boss == old(boss) && aiBrain == old(aiBrain)
                                  && gameTime == old(gameTime) && aiAnalysisTimer == old(aiAnalysisTimer)
                                  && gameOver == old(gameOver) && victory == old(victory))
      {
        ghost var before := Control(running, gameOver, restarted);
        var now := HandleEvent(events[i], stored);
        restarted := restarted || now;
        HandledKeepsRestart(before, events[i]);
        AfterEventsStep(c, events, i);
        i := i + 1;
      }
      assert events[..i] == events;
    }

    /** One event: a close request or Escape stops the loop, R on the game-over screen
        starts a new game; the flags move as `Handled` says. */
    method HandleEvent(event: Event, stored: Stored) returns (ghost restarted: bool)
      requires Valid()
      modifies this
      ensures Valid()
      ensures Handled(Control(old(running), old(gameOver), false), event) == Control(running, gameOver, restarted)
      ensures restarted ==> State() == InitialWorld(stored).(running := running)
      ensures restarted ==> fresh(player) && fresh(boss) && fresh(aiBrain)
      ensures !restarted ==> (&& player == old(player) && boss == old(boss) && aiBrain == old(aiBrain)
                              && gameTime == old(gameTime) && aiAnalysisTimer == old(aiAnalysisTimer)
                              && gameOver == old(gameOver) && victory == old(victory))
    {
      restarted := false;
      if event.Quit? {
        running := false;
      }
      if event.KeyDown? {
        if event.key == Escape {
          running := false;
        }
        if event.key == R && gameOver {
          Restart(stored);
          restarted := true;
        }
      }
    }

    /** One frame of play: the new game state is `WorldFrame` of the old one. */
    method Update(dt: real, keys: Keys, geo: Geometry, pick: nat, quip: nat, draw: nat -> real)
      requires Valid() && dt >= 0.0
      modifies this, player, boss, aiBrain
      ensures Valid()
      ensures State() == WorldFrame(old(State()), tuning, dt, keys, geo, pick, quip, draw)
    {
      Play(dt, keys, geo, pick, quip, draw);
      Conclude(dt);
    }

    /** The player's frame, then the boss's against the player as it now stands. */
    method Play(dt: real, keys: Keys, geo: Geometry, pick: nat, quip: nat, draw: nat -> real)
      requires Valid() && dt >= 0.0
      modifies player, boss
      ensures Valid()
      ensures State() == Played(old(State()), tuning, dt, keys, geo, pick, quip, draw)
    {
      player.Update(dt, keys, geo);
      boss.Update(dt, player, geo, pick, quip, draw);
    }

    /** The end of the frame: the brain's timer and analysis, then the verdict. */
    method Conclude(dt: real)
      requires Valid() && dt >= 0.0
      modifies this, aiBrain
      ensures Valid()
      ensures State() == Concluded(old(State()), dt)
    {
      aiAnalysisTimer := aiAnalysisTimer + dt;
      if aiAnalysisTimer >= AiAnalysisInterval {
        aiBrain.AnalyzePlayer(player, gameTime);
        aiAnalysisTimer := 0.0;
      }
      if player.hp <= 0 {
        gameOver := true;
        victory := false;
      }
      if boss.hp <= 0 {
        gameOver := true;
        victory := true;
      }
    }

    /** One pass of the main loop with frame time `dt`: the clock advances, the events are
        handled, and unless the game is over a frame is played. */
    method Tick(dt: real, events: seq<Event>, stored: Stored, keys: Keys, geo: Geometry,
                pick: nat, quip: nat, draw: nat -> real)
      requires Valid() && dt >= 0.0
      modifies this, player, boss, aiBrain
      ensures Valid()
      ensures State() == Pass(old(State()), tuning, dt, events, stored, keys, geo, pick, quip, draw)
    {
      ghost var w := State();
      gameTime := gameTime + dt;
      assert State() == w.(gameTime := w.gameTime + dt);
      ghost var restarted := HandleEvents(events, stored);
      assert State() == Begun(w, dt, events, stored);
      if !gameOver {
        Update(dt, keys, geo, pick, quip, draw);
      }
    }
  }
}
