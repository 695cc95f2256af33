/** Entity records, the round phase and the game's tuning constants.
    JavaScript numbers are modelled as exact reals; point values and scores
    are integers because every one of them is a sum of integer bug values.
    An entity id is the decimal rendering of a random number; the model keeps
    that number. */
module Types {

  datatype Option<T> = None | Some(value: T)

  /** The three phases of a round. */
  datatype GameState = Menu | Playing | GameOver

  /** The six kinds of bug. */
  datatype BugType = Fly | Mosquito | Ladybug | Bee | Moth | GoldenBeetle

  datatype Bug = Bug(
    id: real,
    x: real, y: real,
    dx: real, dy: real,
    radius: real,
    color: string,
    kind: BugType,
    points: int,
    wobbleOffset: real,
    wobbleSpeed: real)

  datatype Booger = Booger(
    id: real,
    x: real, y: real,
    dx: real, dy: real,
    radius: real,
    color: string,
    rotation: real)

  datatype Particle = Particle(
    id: real,
    x: real, y: real,
    dx: real, dy: real,
    radius: real,
    color: string,
    life: real,
    maxLife: real)

  const CanvasWidth: real := 800.0
  const CanvasHeight: real := 600.0
  const PlayerYOffset: real := 50.0
  const BoogerSpeed: real := 12.0
  const BoogerRadius: real := 6.0
  const SpawnRateMs: real := 800.0
  const GameDurationSec: real := 30.0

  /** The value of Math.PI, a double. */
  const Pi: real := 3.141592653589793

  const ColorBooger: string := "#84cc16"
  const ColorBugFly: string := "#1e293b"
  const ColorBugMosquito: string := "#991b1b"
  const ColorBugLadybug: string := "#dc2626"
  const ColorBugBee: string := "#fbbf24"
  const ColorBugMoth: string := "#94a3b8"
  const ColorBugGoldenBeetle: string := "#facc15"
  const ColorSplat: string := "#a3e635"

  function Min(a: real, b: real): real { if a <= b then a else b }
  function Max(a: real, b: real): real { if a >= b then a else b }
}
