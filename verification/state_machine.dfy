/** `StateMachine` of boy.py (lines 227-265): the transition table, the
    first-match scan of `handle_event`, and `start`.

    The machine's own state is the current state together with the fields of
    the boy that the `enter` hooks write. */
module StateMachine {

  import opened Wrappers
  import opened Events
  import opened BoyStates

  datatype Entry = Entry(pred: Pred, next: State)

  datatype Machine = Machine(cur: State, motion: Motion)

  /** `self.transitions[s]`, in the dictionary's insertion order. */
  function Table(s: State): seq<Entry>
  {
    match s
    case Idle =>
      [Entry(RightDown, RunRight), Entry(LeftDown, RunLeft), Entry(LeftUp, RunRight), Entry(RightUp, RunLeft),
       Entry(UpkeyDown, RunUp), Entry(DownkeyDown, RunDown), Entry(UpkeyUp, RunDown), Entry(DownkeyUp, RunUp)]
    case RunRight =>
      [Entry(RightUp, Idle), Entry(LeftDown, Idle), Entry(UpkeyDown, RunRightUp), Entry(UpkeyUp, RunRightDown),
       Entry(DownkeyDown, RunRightDown), Entry(DownkeyUp, RunRightUp)]
    case RunRightUp =>
      [Entry(UpkeyUp, RunRight), Entry(RightUp, RunUp), Entry(LeftDown, RunUp), Entry(DownkeyDown, RunRight)]
    case RunUp =>
      [Entry(UpkeyUp, Idle), Entry(LeftDown, RunLeftUp), Entry(DownkeyDown, Idle), Entry(RightDown, RunRightUp),
       Entry(LeftUp, RunRightUp), Entry(RightUp, RunLeftUp)]
    case RunLeftUp =>
      [Entry(RightDown, RunUp), Entry(DownkeyDown, RunLeft), Entry(LeftUp, RunUp), Entry(UpkeyUp, RunLeft)]
    case RunLeft =>
      [Entry(LeftUp, Idle), Entry(UpkeyDown, RunLeftUp), Entry(RightDown, Idle), Entry(DownkeyDown, RunLeftDown),
       Entry(UpkeyUp, RunLeftDown), Entry(DownkeyUp, RunLeftUp)]
    case RunLeftDown =>
      [Entry(LeftUp, RunDown), Entry(DownkeyUp, RunLeft), Entry(UpkeyDown, RunLeft), Entry(RightDown, RunDown)]
    case RunDown =>
      [Entry(DownkeyUp, Idle), Entry(LeftDown, RunLeftDown), Entry(UpkeyDown, Idle), Entry(RightDown, RunRightDown),
       Entry(LeftUp, RunRightDown), Entry(RightUp, RunLeftDown)]
    case RunRightDown =>
      [Entry(RightUp, RunDown), Entry(DownkeyUp, RunRight), Entry(LeftDown, RunDown), Entry(UpkeyDown, RunRight)]
  }

  /** Some entry of `t` accepts `e`. */
  predicate AnyMatch(t: seq<Entry>, e: Event)
  {
    exists i :: 0 <= i < |t| && Matches(t[i].pred, e)
  }

  /** Entry `i` is the first entry of `t` that accepts `e`. */
  predicate FirstMatchAt(t: seq<Entry>, e: Event, i: int)
  {
    && 0 <= i < |t|
    && Matches(t[i].pred, e)
    && forall j :: 0 <= j < i ==> !Matches(t[j].pred, e)
  }

  /** The target of the first entry of `t`, from index `i` on, whose
      predicate accepts `e`. */
  function FirstMatchFrom(t: seq<Entry>, e: Event, i: nat): Option<State>
    requires i <= |t|
    decreases |t| - i
  {
    if i == |t| then None
    else if Matches(t[i].pred, e) then Some(t[i].next)
    else FirstMatchFrom(t, e, i + 1)
  }

  function FirstMatch(t: seq<Entry>, e: Event): Option<State>
  {
    FirstMatchFrom(t, e, 0)
  }

  /** `FirstMatch` finds something exactly when some entry accepts the
      event, and what it finds is the target of the first such entry. */
  lemma FirstMatchSpec(t: seq<Entry>, e: Event)
    ensures FirstMatch(t, e).None? <==> !AnyMatch(t, e)
    ensures FirstMatch(t, e).Some? ==>
              exists i :: FirstMatchAt(t, e, i) && t[i].next == FirstMatch(t, e).value
  {
    FirstMatchFromSpec(t, e, 0);
  }

  /** `FirstMatchSpec` for a scan that has already passed `i` entries
      without a match. */
  lemma {:induction false} FirstMatchFromSpec(t: seq<Entry>, e: Event, i: nat)
    requires i <= |t|
    requires forall j :: 0 <= j < i ==> !Matches(t[j].pred, e)
    ensures FirstMatchFrom(t, e, i).None? <==> !AnyMatch(t, e)
    ensures FirstMatchFrom(t, e, i).Some? ==>
              exists k :: FirstMatchAt(t, e, k) && t[k].next == FirstMatchFrom(t, e, i).value
    decreases |t| - i
  {
    if i < |t| {
      if Matches(t[i].pred, e) {
        assert FirstMatchAt(t, e, i);
      } else {
        FirstMatchFromSpec(t, e, i + 1);
      }
    }
  }

  /** The state `handle_event` moves to from `s` on `e`, if any. */
  function Transition(s: State, e: Event): Option<State>
  {
    FirstMatch(Table(s), e)
  }

  /** How a key event moves the compass vector: pressing an arrow adds its
      direction, releasing it takes the direction away. */
  function Delta(e: Event): Option<(int, int)>
  {
    match e
    case Input(KeyDown(Right)) => Some((1, 0))
    case Input(KeyUp(Right)) => Some((-1, 0))
    case Input(KeyDown(Left)) => Some((-1, 0))
    case Input(KeyUp(Left)) => Some((1, 0))
    case Input(KeyDown(Up)) => Some((0, 1))
    case Input(KeyUp(Up)) => Some((0, -1))
    case Input(KeyDown(Down)) => Some((0, -1))
    case Input(KeyUp(Down)) => Some((0, 1))
    case _ => None
  }

  /** Reference semantics of the table, independent of it: an arrow event
      moves to the state whose compass vector is the current one plus the
      event's delta, and is ignored when that sum leaves the compass. */
  function CompassStep(s: State, e: Event): Option<State>
  {
    match Delta(e)
    case None => None
    case Some(d) =>
      var v := (Compass(s).0 + d.0, Compass(s).1 + d.1);
      if InCompass(v) then Some(StateAt(v)) else None
  }

  /** The machine as `start` leaves it: `Idle.enter` applied to the boy's
      fields before any of them but `action` (3) is set. */
  function Start(): (m: Machine)
    ensures m.cur == Idle && m.motion == Motion(3, 0.0, 0)
    ensures Consistent(m)
  {
    Machine(Idle, Enter(Idle, Motion(3, 0.0, 0)))
  }

  /** What the boy's fields say about the current state: the sprite row,
      the speed and the direction all agree with it. */
  predicate Consistent(m: Machine)
  {
    && ValidAction(m.motion.action)
    && (IsRunRow(m.motion.action) <==> m.cur != Idle)
    && (m.cur == Idle ==> m.motion.speed == 0.0 && m.motion.octant == 0)
    && (m.cur != Idle ==> m.motion.speed == RunSpeedPps && OctantVector(m.motion.octant) == Compass(m.cur))
    && (Compass(m.cur).0 > 0 ==> FacesRight(m.motion.action))
    && (Compass(m.cur).0 < 0 ==> !FacesRight(m.motion.action))
  }

  /** `handle_event(e)`: on the first matching entry, `exit` the old state
      (a no-op), switch to the entry's target and `enter` it; answer whether
      an entry matched. */
  function HandleEvent(m: Machine, e: Event): (r: (Machine, bool))
    ensures r.1 <==> AnyMatch(Table(m.cur), e)
    ensures r.1 <==> CompassStep(m.cur, e).Some?
    ensures !r.1 ==> r.0 == m
    ensures r.1 ==> r.0.cur == CompassStep(m.cur, e).value
    ensures r.1 ==> r.0.motion == Enter(r.0.cur, m.motion)
    ensures Consistent(m) ==> Consistent(r.0)
  {
    FirstMatchSpec(Table(m.cur), e);
    TransitionIsCompassStep(m.cur, e);
    match Transition(m.cur, e)
    case None => (m, false)
    case Some(next) => (Machine(next, Enter(next, m.motion)), true)
  }

  /** `handle_event` as the source writes it: a loop over the current
      state's entries that stops at the first predicate accepting `e`. */
  method HandleEventScan(m: Machine, e: Event) returns (m': Machine, handled: bool)
    ensures handled <==> AnyMatch(Table(m.cur), e)
    ensures handled ==> exists i :: FirstMatchAt(Table(m.cur), e, i)
                                    && m' == Machine(Table(m.cur)[i].next, Enter(Table(m.cur)[i].next, m.motion))
    ensures !handled ==> m' == m
  {
    var entries := Table(m.cur);
    var i := 0;
    while i < |entries|
      invariant 0 <= i <= |entries|
      invariant forall j :: 0 <= j < i ==> !Matches(entries[j].pred, e)
    {
      if Matches(entries[i].pred, e) {
        var next := entries[i].next;
        assert FirstMatchAt(entries, e, i);
        return Machine(next, Enter(next, m.motion)), true;
      }
      i := i + 1;
    }
    return m, false;
  }

  /** The machine after handling the events of `es` in order. */
  function Run(m: Machine, es: seq<Event>): Machine
    decreases |es|
  {
    if |es| == 0 then m else Run(HandleEvent(m, es[0]).0, es[1..])
  }

  /** Every machine reachable from `start` is consistent; in particular
      `action` stays in {0, 1, 2, 3}. */
  lemma {:induction false} RunKeepsConsistent(m: Machine, es: seq<Event>)
    requires Consistent(m)
    ensures Consistent(Run(m, es))
    decreases |es|
  {
    if |es| > 0 {
      RunKeepsConsistent(HandleEvent(m, es[0]).0, es[1..]);
    }
  }

  /** Starting from `start`, `action` stays a valid sprite row under any
      sequence of events. */
  lemma ActionStaysInRange(es: seq<Event>)
    ensures 0 <= Run(Start(), es).motion.action <= 3
  {
    RunKeepsConsistent(Start(), es);
  }

  /** Right pressed, up pressed, up released, right released: the boy runs
      right, then up-right, then right again, and stands. */
  lemma RightUpTrace()
    ensures var m1 := HandleEvent(Start(), Input(KeyDown(Right))).0;
            var m2 := HandleEvent(m1, Input(KeyDown(Up))).0;
            var m3 := HandleEvent(m2, Input(KeyUp(Up))).0;
            var m4 := HandleEvent(m3, Input(KeyUp(Right))).0;
            && m1.cur == RunRight && m2.cur == RunRightUp && m3.cur == RunRight
            && m4.cur == Idle && m4.motion.speed == 0.0 && m4.motion.action == 3
  {
    assert Transition(Idle, Input(KeyDown(Right))) == Some(RunRight);
    assert Transition(RunRight, Input(KeyDown(Up))) == Some(RunRightUp);
    assert Transition(RunRightUp, Input(KeyUp(Up))) == Some(RunRight);
    assert Transition(RunRight, Input(KeyUp(Right))) == Some(Idle);
  }

  /** `space_down` and `time_out` are never matched, in any state. */
  lemma SpaceAndTimeOutIgnored(m: Machine)
    ensures HandleEvent(m, Input(KeyDown(Space))) == (m, false)
    ensures HandleEvent(m, TimeOut) == (m, false)
  {
  }

  /** Within one state's entries, an event is accepted by at most one entry,
      so the order in which the entries are tried does not matter. */
  lemma AtMostOneEntryMatches(s: State, e: Event, i: int, j: int)
    requires 0 <= i < |Table(s)| && 0 <= j < |Table(s)|
    requires Matches(Table(s)[i].pred, e) && Matches(Table(s)[j].pred, e)
    ensures i == j
  {
    PredicatesDisjoint(Table(s)[i].pred, Table(s)[j].pred, e);
    TablePredicatesDistinct(s, i, j);
  }

  /** No predicate occurs twice in a state's entries (they are the keys of
      a dictionary). */
  lemma TablePredicatesDistinct(s: State, i: int, j: int)
    requires 0 <= i < |Table(s)| && 0 <= j < |Table(s)|
    requires Table(s)[i].pred == Table(s)[j].pred
    ensures i == j
  {
  }

  /** Only the eight arrow predicates occur in the table: `space_down` and
      `time_out` appear in no state's entries. */
  lemma TableUsesArrowPredicatesOnly(s: State, i: int)
    requires 0 <= i < |Table(s)|
    ensures Table(s)[i].pred !in {SpaceDown, TimeOutPred}
  {
  }

  /** The table is the compass: every state moves on every event exactly as
      `CompassStep` says. */
  lemma TransitionIsCompassStep(s: State, e: Event)
    ensures Transition(s, e) == CompassStep(s, e)
  {
    if Delta(e).None? {
      forall i | 0 <= i < |Table(s)|
        ensures !Matches(Table(s)[i].pred, e)
      {
        TableUsesArrowPredicatesOnly(s, i);
      }
      FirstMatchSpec(Table(s), e);
    } else {
      ArrowEventCases(s, e);
    }
  }

  /** `TransitionIsCompassStep` for the eight arrow events, one state at a
      time. */
  lemma ArrowEventCases(s: State, e: Event)
    requires Delta(e).Some?
    ensures Transition(s, e) == CompassStep(s, e)
  {
    match s
    case Idle => IdleFollowsCompass(e);
    case RunRight => RunRightFollowsCompass(e);
    case RunRightUp => RunRightUpFollowsCompass(e);
    case RunRightDown => RunRightDownFollowsCompass(e);
    case RunLeft => RunLeftFollowsCompass(e);
    case RunLeftUp => RunLeftUpFollowsCompass(e);
    case RunLeftDown => RunLeftDownFollowsCompass(e);
    case RunUp => RunUpFollowsCompass(e);
    case RunDown => RunDownFollowsCompass(e);
  }

  /** With the state fixed, both sides are computed for each arrow event. */
  lemma IdleFollowsCompass(e: Event)
    requires Delta(e).Some?
    ensures Transition(Idle, e) == CompassStep(Idle, e)
  {
  }

  /** With the state fixed, both sides are computed for each arrow event. */
  lemma RunRightFollowsCompass(e: Event)
    requires Delta(e).Some?
    ensures Transition(RunRight, e) == CompassStep(RunRight, e)
  {
  }

  /** With the state fixed, both sides are computed for each arrow event. */
  lemma RunRightUpFollowsCompass(e: Event)
    requires Delta(e).Some?
    ensures Transition(RunRightUp, e) == CompassStep(RunRightUp, e)
  {
  }

  /** With the state fixed, both sides are computed for each arrow event. */
  lemma RunRightDownFollowsCompass(e: Event)
    requires Delta(e).Some?
    ensures Transition(RunRightDown, e) == CompassStep(RunRightDown, e)
  {
  }

  /** With the state fixed, both sides are computed for each arrow event. */
  lemma RunLeftFollowsCompass(e: Event)
    requires Delta(e).Some?
    ensures Transition(RunLeft, e) == CompassStep(RunLeft, e)
  {
  }

  /** With the state fixed, both sides are computed for each arrow event. */
  lemma RunLeftUpFollowsCompass(e: Event)
    requires Delta(e).Some?
    ensures Transition(RunLeftUp, e) == CompassStep(RunLeftUp, e)
  {
  }

  /** With the state fixed, both sides are computed for each arrow event. */
  lemma RunLeftDownFollowsCompass(e: Event)
    requires Delta(e).Some?
    ensures Transition(RunLeftDown, e) == CompassStep(RunLeftDown, e)
  {
  }

  /** With the state fixed, both sides are computed for each arrow event. */
  lemma RunUpFollowsCompass(e: Event)
    requires Delta(e).Some?
    ensures Transition(RunUp, e) == CompassStep(RunUp, e)
  {
  }

  /** With the state fixed, both sides are computed for each arrow event. */
  lemma RunDownFollowsCompass(e: Event)
    requires Delta(e).Some?
    ensures Transition(RunDown, e) == CompassStep(RunDown, e)
  {
  }
}
