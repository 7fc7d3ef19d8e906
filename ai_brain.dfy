/** The adaptive opponent's memory of the player: it records how the player dodged, guesses
    where the player is heading, and picks the boss's threat state. */
module AiBrain {
  import opened Settings
  import opened Player

  /** What the brain remembers of the player: the dodges per direction, the hits taken, the
      survival time and the label of the preferred direction ("none" until one is known; a
      stored profile may hold any label). */
  datatype Profile = Profile(dodges: Dodges, hitsTaken: int, survivalTime: real, preferredDirection: string)

  /** The profile of a player never seen. */
  const Blank: Profile := Profile(NoDodges, 0, 0.0, "none")

  /** What reading the behaviour file can give: no file, a file that fails to open or parse,
      a record that counts as false (empty, zero, null), or a usable record. */
  datatype Stored = NoFile | Unreadable | Falsy | Record(profile: Profile)

  /** The profile after an attempt to load: only a usable record replaces it, and then
      wholesale. */
  function Loaded(current: Profile, stored: Stored): (p: Profile)
    ensures stored.Record? ==> p == stored.profile
    ensures !stored.Record? ==> p == current
  {
    match stored
    case Record(q) => q
    case _ => current
  }

  /** The position of a direction in the dodge record, which decides ties. */
  function Rank(d: Direction): nat {
    match d
    case Left => 0
    case Right => 1
    case Up => 2
    case Down => 3
  }

  /** The largest dodge count. */
  function MaxDodges(d: Dodges): (m: int)
    ensures forall dir: Direction :: d.Count(dir) <= m
    ensures exists dir: Direction :: d.Count(dir) == m
  {
    var lr := if d.left >= d.right then d.left else d.right;
    var ud := if d.up >= d.down then d.up else d.down;
    var m := if lr >= ud then lr else ud;
    assert d.Count(Left) == d.left && d.Count(Right) == d.right && d.Count(Up) == d.up && d.Count(Down) == d.down;
    m
  }

  /** The arg-max of the dodge record: the first direction, in the order left, right, up,
      down, whose count is the largest. */
  function Favourite(d: Dodges): (r: Direction)
    ensures d.Count(r) == MaxDodges(d)
    ensures forall e: Direction :: Rank(e) < Rank(r) ==> d.Count(e) < d.Count(r)
  {
    var m := MaxDodges(d);
    if d.left == m then Left
    else if d.right == m then Right
    else if d.up == m then Up
    else Down
  }

  /** The profile after an analysis of a player with these dodges, hits and survival time. */
  function Analyzed(p: Profile, dodges: Dodges, hitsTaken: int, survivalTime: real): Profile {
    var q := p.(dodges := dodges, hitsTaken := hitsTaken, survivalTime := survivalTime);
    if MaxDodges(dodges) > 0 then q.(preferredDirection := Favourite(dodges).Name()) else q
  }

  /** An analysis copies the player's record, then names the most dodged direction when
      some direction was dodged at all; otherwise the old preference stays. The preference it
      names is one the player dodged most, and no direction listed before it was dodged as
      often. */
  lemma {:induction false} AnalysisRules(p: Profile, dodges: Dodges, hitsTaken: int, survivalTime: real)
    ensures var r := Analyzed(p, dodges, hitsTaken, survivalTime);
      && r.dodges == dodges && r.hitsTaken == hitsTaken && r.survivalTime == survivalTime
      && (MaxDodges(dodges) <= 0 ==> r.preferredDirection == p.preferredDirection)
      && (MaxDodges(dodges) > 0 ==>
            exists dir: Direction ::
              && r.preferredDirection == dir.Name()
              && (forall e: Direction :: dodges.Count(e) <= dodges.Count(dir))
              && (forall e: Direction :: Rank(e) < Rank(dir) ==> dodges.Count(e) < dodges.Count(dir)))
  {
    if MaxDodges(dodges) > 0 {
      var dir := Favourite(dodges);
      assert Analyzed(p, dodges, hitsTaken, survivalTime).preferredDirection == dir.Name();
    }
  }

  /** Equal counts go to the direction listed first: a player who dodged left and right
      equally often is taken to prefer left; one who never moved keeps the old label. */
  lemma {:induction false} AnalysisTies(p: Profile, n: int, hitsTaken: int, survivalTime: real)
    requires n > 0
    ensures Analyzed(p, Dodges(n, n, 0, 0), hitsTaken, survivalTime).preferredDirection == "left"
    ensures Analyzed(p, Dodges(0, n, n, n), hitsTaken, survivalTime).preferredDirection == "right"
    ensures Analyzed(p, NoDodges, hitsTaken, survivalTime).preferredDirection == p.preferredDirection
  {
  }

  /** The offset of the guess, in pixels. */
  const PredictionOffset: int := 50

  /** Where the player will be: 50 pixels ahead along the preferred direction; no guess for
      any other label. */
  function Predicted(direction: string, px: int, py: int): (int, int) {
    if direction == "left" then (px - PredictionOffset, py)
    else if direction == "right" then (px + PredictionOffset, py)
    else if direction == "up" then (px, py - PredictionOffset)
    else if direction == "down" then (px, py + PredictionOffset)
    else (px, py)
  }

  /** For the label of a direction the guess moves one step of 50 pixels the way the
      player's movement keys would (left decreases x, up decreases y); every other label
      leaves the position as is. */
  lemma {:induction false} PredictionFollowsMovement(dir: Direction, name: string, px: int, py: int)
    ensures var m := Movement(Keys(dir == Left, dir == Right, dir == Up, dir == Down, false, false), PredictionOffset);
      Predicted(dir.Name(), px, py) == (px + m.dx, py + m.dy)
    ensures name !in {"left", "right", "up", "down"} ==> Predicted(name, px, py) == (px, py)
  {
    match dir
    case Left =>
    case Right =>
    case Up =>
    case Down =>
  }

  /** A player at (100, 100) who prefers left is expected at (50, 100). */
  lemma {:induction false} PredictionExample()
    ensures Predicted("left", 100, 100) == (50, 100)
  {
  }

  /** The threat state for the two hp values and the profile: furioso when the player is
      above 70% and the boss below half; otherwise enajenado below 30% of the boss; otherwise
      furioso when the player dodged more than 100 times and was hit fewer than 3 times;
      otherwise tranquilo. The percentages are true divisions, as in the source. */
  function Decided(p: Profile, playerHp: int, bossHp: int): ThreatState {
    var playerShare := (playerHp as real) / (PlayerHp as real);
    var bossShare := (bossHp as real) / (BossHp as real);
    if playerShare > 0.7 && bossShare < 0.5 then Furioso
    else if bossShare < 0.3 then Enajenado
    else if p.dodges.Total() > 100 && p.hitsTaken < 3 then Furioso
    else Tranquilo
  }

  /** The same rule on whole hit points, with the percentages turned into thresholds:
      above 70 of the player's 100, below 250 and below 150 of the boss's 500. */
  lemma {:induction false} DecisionThresholds(p: Profile, playerHp: int, bossHp: int)
    ensures Decided(p, playerHp, bossHp) ==
      if playerHp > 70 && bossHp < 250 then Furioso
      else if bossHp < 150 then Enajenado
      else if p.dodges.Total() > 100 && p.hitsTaken < 3 then Furioso
      else Tranquilo
  {
    var playerShare := (playerHp as real) / 100.0;
    var bossShare := (bossHp as real) / 500.0;
    assert playerShare > 0.7 <==> playerHp > 70 by {
      assert playerHp as real == playerShare * 100.0;
    }
    assert bossShare < 0.5 <==> bossHp < 250 by {
      assert bossHp as real == bossShare * 500.0;
    }
    assert bossShare < 0.3 <==> bossHp < 150 by {
      assert bossHp as real == bossShare * 500.0;
    }
  }

  /** Enajenado is reached exactly when the boss is below 150 hp while the player is at 70 or
      less; a boss at 20% facing a player at full hp is furioso instead, and a boss at full hp
      facing a fresh profile is tranquilo. */
  lemma {:induction false} DecisionCases(p: Profile, playerHp: int, bossHp: int)
    ensures Decided(p, playerHp, bossHp) == Enajenado <==> bossHp < 150 && playerHp <= 70
    ensures Decided(p, PlayerHp, BossHp / 5) == Furioso
    ensures Decided(Blank, playerHp, BossHp) == Tranquilo
  {
    DecisionThresholds(p, playerHp, bossHp);
    DecisionThresholds(p, PlayerHp, BossHp / 5);
    DecisionThresholds(Blank, playerHp, BossHp);
  }

  class AIBrain {
    var playerData: Profile

    /** A brain starts from the blank profile and then tries the stored one. */
    constructor (stored: Stored)
      ensures playerData == Loaded(Blank, stored)
    {
      playerData := Blank;
      new;
      LoadBehavior(stored);
    }

    /** Replaces the profile by a usable stored record; anything else keeps it. */
    method LoadBehavior(stored: Stored)
      modifies this
      ensures playerData == Loaded(old(playerData), stored)
    {
      if stored.Record? {
        playerData := stored.profile;
      }
    }

    /** Records the player's dodges, hits and survival time and updates the preferred
        direction. */
    method AnalyzePlayer(player: Player, survivalTime: real)
      modifies this
      ensures playerData == Analyzed(old(playerData), player.dodges, player.hitsTaken, survivalTime)
    {
      playerData := playerData.(dodges := player.dodges);
      playerData := playerData.(hitsTaken := player.hitsTaken);
      playerData := playerData.(survivalTime := survivalTime);
      var dodges := player.dodges;
      var maxDodges := MaxDodges(dodges);
      if maxDodges > 0 {
        playerData := playerData.(preferredDirection := Favourite(dodges).Name());
      }
    }

    /** The guessed position of a player at (px, py). */
    function GetPredictedPosition(px: int, py: int): (r: (int, int))
      reads this
      ensures r == Predicted(playerData.preferredDirection, px, py)
    {
      var direction := playerData.preferredDirection;
      Predicted(direction, px, py)
    }

    /** The threat state for the current hp values; the survival time is not consulted. */
    function DecideBossState(playerHp: int, bossHp: int, survivalTime: real): (r: ThreatState)
      reads this
      ensures r == Decided(playerData, playerHp, bossHp)
    {
      Decided(playerData, playerHp, bossHp)
    }
  }
}
