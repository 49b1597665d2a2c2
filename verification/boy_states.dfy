/** The nine states of the boy and what their `enter` hooks write
    (boy.py lines 59-224). Every `exit` and `do` hook is a no-op and has no
    counterpart here.

    A run state is identified with its compass vector (dx, dy), each
    component in {-1, 0, 1}; `Idle` is (0, 0). The movement direction `dir`
    is kept as an octant k, standing for the angle k·π/4 radians. */
module BoyStates {

  datatype State =
    | Idle
    | RunRight | RunRightUp | RunRightDown
    | RunLeft | RunLeftUp | RunLeftDown
    | RunUp | RunDown

  /** The run speed, derived exactly as boy.py lines 60-64 derive it:
      10 pixels per 0.3 m, 40 km/h. */
  const PixelPerMeter: real := 10.0 / 0.3
  const RunSpeedKmph: real := 40.0
  const RunSpeedMpm: real := RunSpeedKmph * 1000.0 / 60.0
  const RunSpeedMps: real := RunSpeedMpm / 60.0
  const RunSpeedPps: real := RunSpeedMps * PixelPerMeter

  lemma RunSpeedIsExact()
    ensures RunSpeedPps == 10000.0 / 27.0
    ensures 370.0 < RunSpeedPps < 371.0
  {
  }

  /** The compass vector of a state: which way it runs horizontally and
      vertically (up is +1, as in the source's y axis). */
  function Compass(s: State): (int, int)
  {
    match s
    case Idle => (0, 0)
    case RunRight => (1, 0)
    case RunRightUp => (1, 1)
    case RunRightDown => (1, -1)
    case RunLeft => (-1, 0)
    case RunLeftUp => (-1, 1)
    case RunLeftDown => (-1, -1)
    case RunUp => (0, 1)
    case RunDown => (0, -1)
  }

  predicate InCompass(v: (int, int))
  {
    -1 <= v.0 <= 1 && -1 <= v.1 <= 1
  }

  /** The state whose compass vector is `v`. */
  function StateAt(v: (int, int)): (s: State)
    requires InCompass(v)
    ensures Compass(s) == v
  {
    if v.0 == 1 then (if v.1 == 1 then RunRightUp else if v.1 == -1 then RunRightDown else RunRight)
    else if v.0 == -1 then (if v.1 == 1 then RunLeftUp else if v.1 == -1 then RunLeftDown else RunLeft)
    else (if v.1 == 1 then RunUp else if v.1 == -1 then RunDown else Idle)
  }

  /** States and compass vectors are in one-to-one correspondence. */
  lemma CompassIsBijective(s: State)
    ensures InCompass(Compass(s))
    ensures StateAt(Compass(s)) == s
  {
  }

  /** The signs of (cos θ, sin θ) for θ = k·π/4. */
  function OctantVector(k: int): (int, int)
  {
    var n := k % 8;
    if n == 0 then (1, 0)
    else if n == 1 then (1, 1)
    else if n == 2 then (0, 1)
    else if n == 3 then (-1, 1)
    else if n == 4 then (-1, 0)
    else if n == 5 then (-1, -1)
    else if n == 6 then (0, -1)
    else (1, -1)
  }

  /** The values of `boy.action`: the row of the sprite sheet. */
  predicate ValidAction(a: int) { 0 <= a <= 3 }

  /** Rows 0 and 1 are running, rows 2 and 3 standing. */
  predicate IsRunRow(a: int) { a == 0 || a == 1 }

  /** Rows 1 and 3 face right, rows 0 and 2 face left. */
  predicate FacesRight(a: int) { a == 1 || a == 3 }

  /** The fields of the boy that a state's `enter` writes: `action`,
      `speed` (pixels per second) and `dir` (as an octant). */
  datatype Motion = Motion(action: int, speed: real, octant: int)

  /** `Idle.enter` turns a running row into the standing row with the same
      facing (boy.py lines 76-79). */
  function StandAction(a: int): int
  {
    if a == 0 then 2 else if a == 1 then 3 else a
  }

  /** `RunUp.enter` and `RunDown.enter` turn a standing row into the running
      row with the same facing (boy.py lines 191-194 and 210-213). */
  function RunAction(a: int): int
  {
    if a == 2 then 0 else if a == 3 then 1 else a
  }

  /** `s.enter(boy, e)`: the event is not used by any state. */
  function Enter(s: State, m: Motion): (r: Motion)
    // speed and direction depend on the state only
    ensures s == Idle ==> r.speed == 0.0 && r.octant == 0
    ensures s != Idle ==> r.speed == RunSpeedPps && OctantVector(r.octant) == Compass(s)
    // a horizontal run fixes the facing; the others keep it
    ensures Compass(s).0 > 0 ==> r.action == 1
    ensures Compass(s).0 < 0 ==> r.action == 0
    ensures Compass(s).0 == 0 && ValidAction(m.action) ==>
              ValidAction(r.action) && FacesRight(r.action) == FacesRight(m.action)
    // the sprite row is a running row exactly in the run states
    ensures ValidAction(m.action) ==> (IsRunRow(r.action) <==> s != Idle)
    // an out-of-range action is left alone by the states that keep the facing
    ensures Compass(s).0 == 0 && !ValidAction(m.action) ==> r.action == m.action
  {
    match s
    case Idle => Motion(StandAction(m.action), 0.0, 0)
    case RunRight => Motion(1, RunSpeedPps, 0)
    case RunRightUp => Motion(1, RunSpeedPps, 1)
    case RunRightDown => Motion(1, RunSpeedPps, -1)
    case RunLeft => Motion(0, RunSpeedPps, 4)
    case RunLeftUp => Motion(0, RunSpeedPps, 3)
    case RunLeftDown => Motion(0, RunSpeedPps, -3)
    case RunUp => Motion(RunAction(m.action), RunSpeedPps, 2)
    case RunDown => Motion(RunAction(m.action), RunSpeedPps, -2)
  }

  /** Entering the same state twice has the effect of entering it once. */
  lemma EnterIdempotent(s: State, m: Motion)
    ensures Enter(s, Enter(s, m)) == Enter(s, m)
  {
  }

  /** The action table of the `enter` hooks for the four valid rows. */
  lemma EnterActionTable(s: State, a: int)
    requires ValidAction(a)
    ensures s == Idle ==> Enter(s, Motion(a, 0.0, 0)).action == [2, 3, 2, 3][a]
    ensures s in {RunUp, RunDown} ==> Enter(s, Motion(a, 0.0, 0)).action == [0, 1, 0, 1][a]
  {
  }
}
