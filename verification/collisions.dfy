/** Both sides of a boy–ball collision: `game_world` calls the boy's and
    the ball's `handle_collision` with the same group. */
module Collisions {

  import opened Wrappers
  import opened World
  import opened BallEntity
  import opened BoyEntity

  /** Boy first, then ball: the boy's removal succeeds, the ball's presence
      test then finds it gone, and the ball is counted once and removed once. */
  lemma BoyThenBall(boy: Boy, ball: Ball, reg: Registry)
    requires ball.id in reg
    ensures var (b1, r1) := BoyEntity.HandleCollision(boy, BoyBall, ball, reg);
            && b1.ballCount == boy.ballCount + 1
            && r1.Some?
            && BallEntity.HandleCollision(ball, BoyBall, r1.value) == r1.value
            && r1.value == reg - {ball.id}
  {
  }

  /** Ball first, then boy: the ball removes itself and the boy still
      counts it, but the boy's unguarded removal finds the ball already gone
      and fails. */
  lemma BallThenBoy(boy: Boy, ball: Ball, reg: Registry)
    requires ball.id in reg
    ensures var r1 := BallEntity.HandleCollision(ball, BoyBall, reg);
            var (b2, r2) := BoyEntity.HandleCollision(boy, BoyBall, ball, r1);
            && r1 == reg - {ball.id}
            && b2.ballCount == boy.ballCount + 1
            && r2.None?
  {
  }
}
