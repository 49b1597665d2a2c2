/** `Ball` of ball.py: a stationary collectible with a 20×20 bounding box
    that removes itself from the world when the boy touches it. */
module BallEntity {

  import opened Wrappers
  import opened Geometry
  import opened World

  datatype Ball = Ball(id: ObjectId, x: real, y: real)

  /** Python truthiness of an optional coordinate: `None` and 0 are false. */
  predicate Truthy(c: Option<real>)
  {
    c.Some? && c.value != 0.0
  }

  /** `Ball(x, y)`: a truthy coordinate is kept; otherwise the coordinate
      is the value `random.randint(0, limit)` produced, passed in here as
      `randomX` and `randomY` together with the limits. */
  function Create(id: ObjectId, x: Option<real>, y: Option<real>,
                  width: int, height: int, randomX: int, randomY: int): (b: Ball)
    requires !Truthy(x) ==> 0 <= randomX <= width
    requires !Truthy(y) ==> 0 <= randomY <= height
    ensures b.id == id
    ensures Truthy(x) ==> b.x == x.value
    ensures Truthy(y) ==> b.y == y.value
    ensures !Truthy(x) ==> b.x == b.x.Floor as real && 0.0 <= b.x <= width as real
    ensures !Truthy(y) ==> b.y == b.y.Floor as real && 0.0 <= b.y <= height as real
  {
    Ball(id,
         if Truthy(x) then x.value else randomX as real,
         if Truthy(y) then y.value else randomY as real)
  }

  /** An explicit coordinate of 0 is falsy, so it is replaced by the random
      value rather than kept. */
  lemma ZeroCoordinateIsNotKept(id: ObjectId, width: int, height: int, randomX: int, randomY: int)
    requires 0 <= randomX <= width && 0 <= randomY <= height
    ensures Create(id, Some(0.0), Some(0.0), width, height, randomX, randomY) == Ball(id, randomX as real, randomY as real)
  {
  }

  /** `update`: a ball does not move. */
  function Update(b: Ball): (r: Ball)
    ensures r.x == b.x && r.y == b.y && r.id == b.id
  {
    b
  }

  /** `get_bb`: a 20×20 box centred on the ball. */
  function BoundingBox(b: Ball): (box: Box)
    ensures box.Width() == 20.0 && box.Height() == 20.0
    ensures box.CentredOn(b.x, b.y)
    ensures box.left < box.right && box.bottom < box.top
  {
    Box(b.x - 10.0, b.y - 10.0, b.x + 10.0, b.y + 10.0)
  }

  /** `handle_collision(group, other)`: on 'boy:ball', and only while the
      ball is still in the world, the ball removes itself. The presence test
      is what keeps the removal from failing. */
  function HandleCollision(b: Ball, group: string, reg: Registry): (r: Registry)
    ensures group != BoyBall ==> r == reg
    ensures group == BoyBall && b.id in reg ==> Remove(reg, b.id) == Some(r)
    ensures b.id !in reg ==> r == reg
    ensures group == BoyBall ==> b.id !in r
    ensures forall p :: p != b.id ==> (p in r <==> p in reg)
  {
    if group == BoyBall then
      if b.id in reg then Remove(reg, b.id).value else reg
    else
      reg
  }

  /** A duplicate collision callback changes nothing more. */
  lemma HandleCollisionIdempotent(b: Ball, group: string, reg: Registry)
    ensures HandleCollision(b, group, HandleCollision(b, group, reg)) == HandleCollision(b, group, reg)
  {
  }
}
