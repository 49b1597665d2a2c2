/** What the transition table of boy.py (lines 231-246) amounts to: as long
    as the key events are ones a keyboard can produce, the boy always runs in
    the direction of the arrow keys currently held, and stands exactly when
    the held keys cancel out. */
module HeldKeys {

  import opened Events
  import opened BoyStates
  import opened StateMachine

  /** Which arrow keys are held down. */
  datatype Held = Held(left: bool, right: bool, up: bool, down: bool)

  const NoneHeld := Held(false, false, false, false)

  function Bit(b: bool): int { if b then 1 else 0 }

  /** The direction the held keys point in. */
  function Vector(h: Held): (v: (int, int))
    ensures InCompass(v)
  {
    (Bit(h.right) - Bit(h.left), Bit(h.up) - Bit(h.down))
  }

  /** Whether a keyboard with `h` held can deliver `e`: an arrow goes down
      only while it is up, and comes up only while it is down. */
  predicate Possible(h: Held, e: Event)
  {
    match e
    case Input(KeyDown(Right)) => !h.right
    case Input(KeyUp(Right)) => h.right
    case Input(KeyDown(Left)) => !h.left
    case Input(KeyUp(Left)) => h.left
    case Input(KeyDown(Up)) => !h.up
    case Input(KeyUp(Up)) => h.up
    case Input(KeyDown(Down)) => !h.down
    case Input(KeyUp(Down)) => h.down
    case _ => true
  }

  /** The held keys after `e`. */
  function Apply(h: Held, e: Event): Held
  {
    match e
    case Input(KeyDown(Right)) => h.(right := true)
    case Input(KeyUp(Right)) => h.(right := false)
    case Input(KeyDown(Left)) => h.(left := true)
    case Input(KeyUp(Left)) => h.(left := false)
    case Input(KeyDown(Up)) => h.(up := true)
    case Input(KeyUp(Up)) => h.(up := false)
    case Input(KeyDown(Down)) => h.(down := true)
    case Input(KeyUp(Down)) => h.(down := false)
    case _ => h
  }

  predicate PossibleSeq(h: Held, es: seq<Event>)
    decreases |es|
  {
    |es| == 0 || (Possible(h, es[0]) && PossibleSeq(Apply(h, es[0]), es[1..]))
  }

  function ApplyAll(h: Held, es: seq<Event>): Held
    decreases |es|
  {
    if |es| == 0 then h else ApplyAll(Apply(h, es[0]), es[1..])
  }

  /** One event: if the state agreed with the held keys before, it agrees
      after, and a possible arrow event is always handled. */
  lemma StepTracksHeldKeys(m: Machine, h: Held, e: Event)
    requires Compass(m.cur) == Vector(h) && Possible(h, e)
    ensures Compass(HandleEvent(m, e).0.cur) == Vector(Apply(h, e))
    ensures Delta(e).Some? ==> HandleEvent(m, e).1
  {
    CompassIsBijective(m.cur);
  }

  lemma {:induction false} RunTracksHeldKeys(m: Machine, h: Held, es: seq<Event>)
    requires Compass(m.cur) == Vector(h) && PossibleSeq(h, es)
    ensures Compass(Run(m, es).cur) == Vector(ApplyAll(h, es))
    decreases |es|
  {
    if |es| > 0 {
      StepTracksHeldKeys(m, h, es[0]);
      RunTracksHeldKeys(HandleEvent(m, es[0]).0, Apply(h, es[0]), es[1..]);
    }
  }

  /** From `start` with no key held, the state is the one the held keys
      point to; the boy stands exactly when they cancel out. */
  lemma StateFollowsHeldKeys(es: seq<Event>)
    requires PossibleSeq(NoneHeld, es)
    ensures Run(Start(), es).cur == StateAt(Vector(ApplyAll(NoneHeld, es)))
    ensures Run(Start(), es).cur == Idle <==> Vector(ApplyAll(NoneHeld, es)) == (0, 0)
  {
    RunTracksHeldKeys(Start(), NoneHeld, es);
    CompassIsBijective(Run(Start(), es).cur);
  }
}
