/** Input events and the event predicates of boy.py (lines 16-53).

    The source passes tuples `(tag, payload)` to the state machine: `('INPUT',
    sdl_event)` for keyboard input, `('TIME_OUT', …)` for the time-out event
    and `('NONE', 0)` for the event handed to `start`. The tuple becomes a
    closed sum type here, and each predicate a constructor of `Pred` with
    `Matches` as its meaning. */
module Events {

  import opened Wrappers

  /** The key identifiers the predicates test, plus every other key. */
  datatype Key = Left | Right | Up | Down | Space | OtherKey(code: int)

  /** The SDL event carried by an 'INPUT' tuple: its `type` and `key`. */
  datatype KeyEvent = KeyDown(key: Key) | KeyUp(key: Key) | OtherEvent

  datatype Event = Input(raw: KeyEvent) | TimeOut | NoEvent

  /** One constructor per predicate function of boy.py. */
  datatype Pred =
    | RightDown | RightUp | LeftDown | LeftUp
    | UpkeyDown | UpkeyUp | DownkeyDown | DownkeyUp
    | SpaceDown | TimeOutPred

  /** The one event a key predicate accepts. */
  function KeyEventOf(p: Pred): Option<KeyEvent>
  {
    match p
    case RightDown => Some(KeyDown(Right))
    case RightUp => Some(KeyUp(Right))
    case LeftDown => Some(KeyDown(Left))
    case LeftUp => Some(KeyUp(Left))
    case UpkeyDown => Some(KeyDown(Up))
    case UpkeyUp => Some(KeyUp(Up))
    case DownkeyDown => Some(KeyDown(Down))
    case DownkeyUp => Some(KeyUp(Down))
    case SpaceDown => Some(KeyDown(Space))
    case TimeOutPred => None
  }

  /** Whether predicate `p` accepts event `e`: a key predicate tests the tag
      'INPUT', the SDL event type and the key; `time_out` tests the tag only. */
  predicate Matches(p: Pred, e: Event)
  {
    match p
    case TimeOutPred => e.TimeOut?
    case _ => e.Input? && KeyEventOf(p) == Some(e.raw)
  }

  /** No two predicates accept the same event. */
  lemma PredicatesDisjoint(p: Pred, q: Pred, e: Event)
    requires Matches(p, e) && Matches(q, e)
    ensures p == q
  {
  }

  /** Events tagged anything but 'INPUT' or 'TIME_OUT' satisfy no predicate,
      and neither do SDL events other than key-down and key-up. */
  lemma NoPredicateAcceptsNonKeyInput(p: Pred, e: Event)
    requires e.NoEvent? || e == Input(OtherEvent)
    ensures !Matches(p, e)
  {
  }
}
