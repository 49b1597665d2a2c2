/** `Boy` of boy.py (lines 268-316): position, ball count and the state
    machine, with the hooks the frame loop and the collision detector call.
    The animation frame and drawing are not part of this model. */
module BoyEntity {

  import opened Wrappers
  import opened Events
  import opened BoyStates
  import opened StateMachine
  import opened Geometry
  import opened World
  import opened BallEntity

  datatype Boy = Boy(x: real, y: real, ballCount: nat, machine: Machine)

  /** `Boy()`: action 3, no balls, the machine started, and the position at
      the centre of a `w`×`h` background (integer halves, `//` rounding down). */
  function Init(w: int, h: int): (b: Boy)
    ensures b.machine == Start() && b.ballCount == 0
    ensures b.x == b.x.Floor as real && 2.0 * b.x <= w as real < 2.0 * b.x + 2.0
    ensures b.y == b.y.Floor as real && 2.0 * b.y <= h as real < 2.0 * b.y + 2.0
  {
    Boy((w / 2) as real, (h / 2) as real, 0, Start())
  }

  /** `update` after the state machine's step has moved the boy by
      (dx, dy): the position is clamped to stay 50 pixels inside a `w`×`h`
      background. */
  function Update(b: Boy, dx: real, dy: real, w: int, h: int): (r: Boy)
    ensures w >= 100 ==> 50.0 <= r.x <= (w - 50) as real
    ensures h >= 100 ==> 50.0 <= r.y <= (h - 50) as real
    ensures w < 100 ==> r.x == 50.0
    ensures h < 100 ==> r.y == 50.0
    ensures 50.0 <= b.x + dx <= (w - 50) as real ==> r.x == b.x + dx
    ensures 50.0 <= b.y + dy <= (h - 50) as real ==> r.y == b.y + dy
    ensures r.machine == b.machine && r.ballCount == b.ballCount
  {
    b.(x := Clamp(50.0, b.x + dx, (w - 50) as real),
       y := Clamp(50.0, b.y + dy, (h - 50) as real))
  }

  /** `handle_event`: the SDL event is tagged 'INPUT' and given to the
      state machine; nothing but the machine changes. */
  function HandleEvent(b: Boy, ev: KeyEvent): (r: Boy)
    ensures r.x == b.x && r.y == b.y && r.ballCount == b.ballCount
    ensures r.machine == StateMachine.HandleEvent(b.machine, Input(ev)).0
    ensures Consistent(b.machine) ==> Consistent(r.machine)
  {
    b.(machine := StateMachine.HandleEvent(b.machine, Input(ev)).0)
  }

  /** `get_bb`: 40 pixels wide and 100 tall, centred on the boy. */
  function BoundingBox(b: Boy): (box: Box)
    ensures box.Width() == 40.0 && box.Height() == 100.0
    ensures box.CentredOn(b.x, b.y)
  {
    Box(b.x - 20.0, b.y - 50.0, b.x + 20.0, b.y + 50.0)
  }

  /** `handle_collision(group, other)`: on 'boy:ball' one more ball is
      counted and the ball is removed from the world, without checking that
      it is still there; any other group is ignored. The registry part of
      the result is `None` when that removal fails. */
  function HandleCollision(b: Boy, group: string, other: Ball, reg: Registry): (r: (Boy, Option<Registry>))
    ensures group != BoyBall ==> r == (b, Some(reg))
    ensures group == BoyBall ==> r.0.ballCount == b.ballCount + 1
    ensures group == BoyBall ==> (r.1.Some? <==> other.id in reg)
    ensures r.1.Some? ==> forall p :: p != other.id ==> (p in r.1.value <==> p in reg)
    ensures group == BoyBall && r.1.Some? ==> other.id !in r.1.value
    ensures r.0.x == b.x && r.0.y == b.y && r.0.machine == b.machine
  {
    if group == BoyBall then
      (b.(ballCount := b.ballCount + 1), Remove(reg, other.id))
    else
      (b, Some(reg))
  }
}
