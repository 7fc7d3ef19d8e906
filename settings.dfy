/** Game-wide constants: window, arena, player, boss, bullets and the adaptive AI,
    and the table of per-threat-state multipliers. */
module Settings {

  // Window
  const Width: int := 800
  const Height: int := 600
  const Fps: int := 60

  // Arena: the rectangle the player moves in
  const ArenaX: int := 200
  const ArenaY: int := 150
  const ArenaWidth: int := 400
  const ArenaHeight: int := 300

  // Colours as (red, green, blue)
  type Color = (int, int, int)
  const White: Color := (255, 255, 255)
  const Black: Color := (0, 0, 0)
  const Red: Color := (255, 0, 0)
  const Green: Color := (0, 255, 0)
  const Blue: Color := (0, 0, 255)
  const Yellow: Color := (255, 255, 0)
  const Purple: Color := (200, 0, 200)

  // Player
  const PlayerSize: int := 20
  const PlayerSpeed: int := 5
  const PlayerHp: int := 100

  // Boss
  const BossHp: int := 500

  /** The boss's three threat states. */
  datatype ThreatState = Tranquilo | Furioso | Enajenado {
    /** The key under which the state is stored in `BossStates`. */
    function Name(): string {
      match this
      case Tranquilo => "tranquilo"
      case Furioso => "furioso"
      case Enajenado => "enajenado"
    }
  }

  datatype StateConfig = StateConfig(speedMult: real, attackMult: real, color: Color)

  const BossStates: map<string, StateConfig> := map[
    "tranquilo" := StateConfig(0.7, 1.0, Green),
    "furioso" := StateConfig(1.2, 1.5, Yellow),
    "enajenado" := StateConfig(1.8, 2.5, Red)
  ]

  /** The table entry of a state; every state has one. */
  function Config(s: ThreatState): (c: StateConfig)
    ensures s.Name() in BossStates
    ensures c.speedMult > 0.0 && c.attackMult >= 1.0
  {
    BossStates[s.Name()]
  }

  // Attacks
  const BulletBaseSpeed: int := 3
  const BulletSize: int := 8

  // Adaptive AI
  const AiAnalysisInterval: real := 3.0
  const AiStateChangeThreshold: real := 0.3

  /** The table has exactly the three state names as keys, and names are distinct. */
  lemma StateTableKeys()
    ensures BossStates.Keys == {"tranquilo", "furioso", "enajenado"}
    ensures forall s: ThreatState :: s.Name() in BossStates
    ensures forall s: ThreatState, t: ThreatState :: s.Name() == t.Name() ==> s == t
  {
  }

  /** Both multipliers strictly grow with severity: tranquilo < furioso < enajenado. */
  lemma MultipliersIncrease()
    ensures Config(Tranquilo).speedMult < Config(Furioso).speedMult < Config(Enajenado).speedMult
    ensures Config(Tranquilo).attackMult < Config(Furioso).attackMult < Config(Enajenado).attackMult
  {
  }

  /** The arena lies inside the window and is wider and taller than the player. */
  lemma ArenaFitsWindow()
    ensures 0 <= ArenaX && ArenaX + ArenaWidth <= Width
    ensures 0 <= ArenaY && ArenaY + ArenaHeight <= Height
    ensures 0 < PlayerSize < ArenaWidth && PlayerSize < ArenaHeight
  {
  }
}
