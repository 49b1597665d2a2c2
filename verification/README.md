# Boy and ball: a Dafny model

This project models the core of a small pico2d game drill. A boy runs in
eight directions, driven by a finite state machine over arrow-key events.
Balls lie on the field, and the boy collects them by touching them.

The model covers:

- the event predicates (`right_down`, …, `time_out`);
- the nine states and what each state's `enter` writes into the boy (`action`, `speed`, `dir`);
- the transition table of `StateMachine`, with its first-match `handle_event` and `start`;
- the boy's clamp into the playfield, its bounding box and its collision hook;
- the ball's constructor, `update`, bounding box and collision hook.

Modules, one per component:

| file | module | models |
|---|---|---|
| `events.dfy` | `Events` | the tagged events and the predicates of boy.py |
| `boy_states.dfy` | `BoyStates` | the nine states, the run speed, `enter` |
| `state_machine.dfy` | `StateMachine` | the table, `handle_event`, `start` |
| `held_keys.dfy` | `HeldKeys` | what the table means for a real keyboard |
| `boy.dfy` | `BoyEntity` | `Boy` |
| `ball.dfy` | `BallEntity` | `Ball` |
| `collisions.dfy` | `Collisions` | the two collision hooks together |
| `geometry.dfy` | `Geometry` | bounding boxes, pico2d's `clamp` |
| `world.dfy` | `World` | the object registry of `game_world` |
| `wrappers.dfy` | `Wrappers` | `Option` |

Encodings:

- Each predicate function is a constructor of `Pred`, and `Matches` gives its meaning.
- An event is `Input(KeyDown(k))`, `Input(KeyUp(k))`, `Input(OtherEvent)`, `TimeOut`, or `NoEvent` (the `('NONE', 0)` passed by `start`).
- The direction `dir` is an octant `k`, standing for `k·π/4` radians. The sign is kept as in the source: `RunLeftDown` is −3 and `RunLeft` is 4.
- `RUN_SPEED_PPS` is the exact real 10000/27 ≈ 370.37, derived by the same chain of constants as boy.py:60-64.
- Positions are reals.
- The registry is a `set` of object identities.

The transition table is reproduced entry for entry, in the dictionaries'
insertion order. It is also given a reference meaning that does not depend on
it. Give each state a compass vector (dx, dy) in {-1, 0, 1}². An arrow press
adds its direction to that vector, and a release subtracts it. The table moves
to the state with the summed vector, and ignores the event when the sum leaves
the compass (`StateMachine.CompassStep`). `TransitionIsCompassStep` proves the
table equals this rule for every state and every event.

From that, `HeldKeys.StateFollowsHeldKeys` shows the boy always runs toward
the arrow keys currently held. This holds as long as the events are ones a
keyboard can produce. The table can look asymmetric (some states lack some
release entries), but every missing entry is an event that would leave the
compass.

`Ball(x, y)` keeps a coordinate only when it is truthy, so an explicit 0 is
replaced by a random value (`BallEntity.ZeroCoordinateIsNotKept`). The model
keeps this behaviour as written.

## Model

| member | source | states |
|---|---|---|
| Events.Matches | boy.py:16-53 | each key predicate accepts exactly the 'INPUT' event with its SDL type and key; `time_out` accepts exactly the 'TIME_OUT' tag |
| StateMachine.Table | boy.py:231-246 | each state's entries, predicate and target, in the dictionaries' insertion order |
| StateMachine.Transition | boy.py:258-263 | the target of the first entry of the current state that accepts the event, if any |
| Events.PredicatesDisjoint | boy.py:16-53 | no event satisfies two different predicates: each tests its own (type, key) pair, and `time_out` tests the tag only |
| Events.NoPredicateAcceptsNonKeyInput | boy.py:16-53 | a non-key SDL event and the `('NONE', 0)` event of `start` satisfy no predicate |
| BoyStates.RunSpeedIsExact | boy.py:60-64 | 40 km/h at 10 px per 0.3 m is exactly 10000/27 px/s, between 370 and 371 |
| BoyStates.Enter | boy.py:72-224 | after entering `Idle` the speed and direction are 0. After entering a run state the speed is the run speed and the direction points along that state's compass vector. Right runs face right (action 1), left runs face left (action 0), and vertical runs and `Idle` keep the facing. The sprite row is a running row exactly in the run states |
| BoyStates.EnterIdempotent | boy.py:72-224 | entering a state twice has the same effect as entering it once |
| BoyStates.EnterActionTable | boy.py:76-79 | `Idle` maps action 0→2 and 1→3 and keeps 2 and 3; `RunUp`/`RunDown` map 2→0 and 3→1 and keep 0 and 1 |
| BoyStates.CompassIsBijective | boy.py:72-224 | the nine states and the nine compass vectors correspond one to one |
| StateMachine.FirstMatchSpec | boy.py:258-263 | the scan finds a target exactly when some entry's predicate accepts the event, and the target is that of the first such entry |
| StateMachine.FirstMatchFromSpec | boy.py:258-263 | the same for a scan that has already passed some entries without a match |
| StateMachine.TransitionIsCompassStep | boy.py:231-246 | the table, state by state and event by event, is the clipped compass-vector sum |
| StateMachine.TableUsesArrowPredicatesOnly | boy.py:231-246 | `space_down` and `time_out` occur in no state's entries |
| StateMachine.TablePredicatesDistinct | boy.py:231-246 | no predicate occurs twice among one state's entries |
| StateMachine.AtMostOneEntryMatches | boy.py:258-263 | at most one entry of a state accepts any event, so the first-match order cannot change the result |
| StateMachine.HandleEvent | boy.py:257-265 | returns true iff an entry of the current state accepts the event, which is also exactly when the compass sum stays inside. When true, the new state is the compass target and its `enter` has run. When false, nothing changes. A consistent machine stays consistent |
| StateMachine.HandleEventScan | boy.py:257-265 | the source's loop: handled iff some entry matches; then the machine is in the first matching entry's target, entered; otherwise unchanged |
| StateMachine.Start | boy.py:248-249 | `start` leaves the machine in `Idle` with action 3, speed 0 and direction 0, and consistent |
| StateMachine.RunKeepsConsistent | boy.py:227-265 | from a consistent machine, any sequence of events keeps the action in range and keeps speed, direction and sprite row in agreement with the state |
| StateMachine.ActionStaysInRange | boy.py:271 | starting from action 3 and `start`, `action` stays in {0, 1, 2, 3} under every sequence of events |
| StateMachine.RightUpTrace | boy.py:232-236 | right down, up down, up up, right up leads to `RunRight`, `RunRightUp`, `RunRight`, `Idle`, ending with speed 0 and action 3 |
| StateMachine.SpaceAndTimeOutIgnored | boy.py:48-53 | space-down and `TIME_OUT` are never handled and change nothing, in every state |
| HeldKeys.StepTracksHeldKeys | boy.py:231-246 | if the state agrees with the held arrow keys, it still agrees after any event a keyboard can deliver, and every such arrow event is handled |
| HeldKeys.RunTracksHeldKeys | boy.py:231-246 | the same along any possible sequence of events |
| HeldKeys.StateFollowsHeldKeys | boy.py:231-246 | from `start` with no key held, the state is the one the held keys point to; the boy stands exactly when they cancel out |
| BoyEntity.Init | boy.py:269-278 | a new boy is started, has no balls, and sits at the floor of half the background size |
| BoyEntity.Update | boy.py:282-285 | after the move the position lies in [50, w−50]×[50, h−50] when the background is at least 100×100 (50 when smaller). A position already inside is kept, and nothing else changes |
| BoyEntity.HandleEvent | boy.py:289-290 | the SDL event is tagged as input and handled by the machine; position and count do not change |
| BoyEntity.BoundingBox | boy.py:310-311 | a 40×100 box centred on the boy |
| BoyEntity.HandleCollision | boy.py:313-316 | on 'boy:ball' the count rises by exactly 1 and the ball is removed without a presence check, so the removal fails exactly when the ball is already gone; any other group changes nothing; other objects stay |
| BallEntity.Create | ball.py:10-14 | a truthy coordinate is kept; otherwise the coordinate is an integer between 0 and the background limit |
| BallEntity.ZeroCoordinateIsNotKept | ball.py:13-14 | an explicit coordinate of 0 is falsy and is replaced by the random value |
| BallEntity.Update | ball.py:22-23 | the ball does not move |
| BallEntity.BoundingBox | ball.py:25-26 | a 20×20 box centred on the ball, left < right and bottom < top |
| BallEntity.HandleCollision | ball.py:28-31 | on 'boy:ball' the ball removes itself only while it is still in the world, so its removal never fails; afterwards it is absent; an absent ball or any other group leaves the registry unchanged; no other object changes |
| BallEntity.HandleCollisionIdempotent | ball.py:28-31 | a second callback has no further effect |
| Collisions.BoyThenBall | boy.py:313-316 | boy's hook then ball's hook: the boy's removal succeeds, the ball's guard then finds it gone, the count rises by 1 and exactly the ball is removed |
| Collisions.BallThenBoy | ball.py:28-31 | ball's hook then boy's hook: the ball removes itself and the count rises by 1, but the boy's unguarded removal meets an absent ball and fails |
| Geometry.Clamp | boy.py:284-285 | the result lies in [lo, hi] when lo ≤ hi, equals v when v is inside, the nearer bound otherwise, and lo when hi < lo |
| Geometry.ClampIdempotent | boy.py:284-285 | clamping twice is clamping once |
| World.Remove | boy.py:316 | removal succeeds exactly when the object is present; then it is absent and every other object's membership is unchanged |

## Left out

- Animation frame and movement integration (boy.py:251-255). The frame advance and `x += cos(dir)·speed·frame_time` use trigonometry and the external clock `game_framework.frame_time`. `BoyEntity.Update` takes the resulting displacement as parameters `dx`, `dy`. The frame and the frame-rate constants (boy.py:67-69) are not modelled.
- Drawing, image and font loading (boy.py:292-308, ball.py:16-20, and the class-level `Ball.image` cache at ball.py:8-12). These are rendering calls into pico2d.
- The `exit` and `do` hooks of every state are no-ops and have no counterpart.
- Floating point: positions, speed and directions are exact reals. `10.0 / 0.3` and π/4 multiples are not rounded as Python's floats are.
- pico2d's `clamp` is not part of this model. It is taken to be `max(lo, min(v, hi))`.
- The internals of `game_world` and `server` are not part of this model. The registry is an abstract set, and the background size is a parameter. Removing an absent object is modelled as a failed removal (`None`). Whether `remove_object` raises or silently does nothing is not known here.
- Collisions.BallThenBoy: does not promise that ball-first order ends cleanly. The boy's hook then removes an object already gone, and what `remove_object` does then is not part of this model.
- `BallEntity.Create`: the value of `random.randint` is a parameter. Nothing is claimed about its distribution.
- The collision detector that decides which pairs overlap, and the order in which it calls the two hooks, are external. Both orders are covered by the lemmas in `Collisions`.
