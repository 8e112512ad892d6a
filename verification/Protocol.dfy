/** The shared vocabulary of internal/protocol: tuning constants and wire values.

    Lengths are pixels and velocities pixels per 60 Hz tick, as exact reals. */
module Protocol {

  const VIEW_MAX_W := 3200.0

  const GRAVITY := 0.42
  const FLAP_IMPULSE := -7.2
  const TERMINAL_VEL := 8.0
  const BIRD_X := 120.0
  const BIRD_RADIUS := 11.0
  const PIPE_WIDTH := 80.0
  const PIPE_GAP := 156.0
  const PIPE_SPACING := 260.0
  const SCROLL_SPEED := 3.1
  const FIRST_PIPE_X := 440.0
  const GAP_Y_MIN := 168.0
  const GAP_Y_MAX := 552.0
  const MAX_GAP_DELTA := 240.0
  const GROUND_Y := 720.0
  const CEILING_Y := 11.0
  const SPAWN_Y := 400.0

  const RAMP_SPEED_CAP := 4.65
  const RAMP_GAP_SHRINK := 2.0
  const RAMP_GAP_FLOOR := 144.0
  const MAX_RACE_TICKS: nat := 7200

  /** The difficulty rises every fifteen seconds. */
  predicate IsRampTick(tick: nat) {
    tick % 900 == 0
  }

  /** A ramp raises the speed by a sixteenth. */
  function SpedUp(scroll: real): real {
    scroll * 1.0625
  }

  function Min(a: real, b: real): real {
    if a <= b then a else b
  }

  function Max(a: real, b: real): real {
    if a >= b then a else b
  }

  function Clamp(v: real, lo: real, hi: real): real {
    if v < lo then lo else if v > hi then hi else v
  }

  function Abs(v: real): real {
    if v < 0.0 then -v else v
  }

  const FLAP_ANIM_TICKS: nat := 12
  const RING_LEN: nat := 8
  const SNAP_GAP_MS: nat := 150

  datatype Phase = Waiting | Countdown | Racing | Finished

  datatype BirdSnap = BirdSnap(
    id: nat, name: string, y: real, vy: real, score: nat,
    dead: bool, left: bool, flap: bool, pal: nat, acc: nat)

  datatype PipeSnap = PipeSnap(id: nat, x: real, g: real, h: real)

  /** One podium entry. */
  datatype ResultSnap = ResultSnap(id: nat, name: string, score: nat, rank: nat, left: bool)

  datatype Snapshot = Snapshot(
    now: int, tick: nat, st: Phase, goAt: int, theme: nat, seed: nat, dist: real, wait: nat,
    birds: seq<BirdSnap>, pipes: seq<PipeSnap>, res: seq<ResultSnap>)
}
