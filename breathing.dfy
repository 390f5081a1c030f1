/** The "breathing" of the spider-web graphic (script.js): every 100 ms the
    scale moves one step in the current direction, and the direction flips
    once the scale reaches 1.05 or 0.95. The scale is held in integer
    hundredths (start 100, step 1, bounds 95 and 105) so that it is exact. */
module Breathing {

  const Upper: int := 105
  const Lower: int := 95

  datatype State = State(scale: int, direction: int)

  const Start: State := State(100, 1)

  /** The reachable states: the scale within its bounds, a unit direction,
      and the direction pointing inwards at a bound. */
  predicate Inv(s: State) {
    (s.direction == 1 || s.direction == -1) &&
    Lower <= s.scale <= Upper &&
    (s.scale == Upper ==> s.direction == -1) &&
    (s.scale == Lower ==> s.direction == 1)
  }

  /** One timer tick. */
  function Tick(s: State): (t: State)
    ensures t.scale == s.scale + s.direction
    ensures t.scale >= Upper || t.scale <= Lower ==> t.direction == -s.direction
    ensures Lower < t.scale < Upper ==> t.direction == s.direction
  {
    var scale := s.scale + s.direction;
    State(scale, if scale >= Upper || scale <= Lower then -s.direction else s.direction)
  }

  /** Every tick keeps the scale within [95, 105]; the direction reverses
      exactly when the upper bound is reached going up or the lower bound
      going down. */
  lemma TickKeepsBounds(s: State)
    requires Inv(s)
    ensures Inv(Tick(s))
    ensures Tick(s).direction != s.direction <==>
      (s.direction == 1 && Tick(s).scale == Upper) || (s.direction == -1 && Tick(s).scale == Lower)
  {
  }

  /** The state after n ticks. */
  function Ticks(s: State, n: nat): State
  {
    if n == 0 then s else Tick(Ticks(s, n - 1))
  }

  /** Every state reached from the start satisfies the invariant. */
  lemma {:induction false} AlwaysInBounds(n: nat)
    ensures Inv(Ticks(Start, n))
  {
    if n > 0 {
      AlwaysInBounds(n - 1);
      TickKeepsBounds(Ticks(Start, n - 1));
    }
  }

  /** The trajectory in closed form for one period: up to 105 in 5 ticks,
      down to 95 in 10 more, back to 100 in 5 more. */
  lemma {:induction false} Trajectory(n: nat)
    requires n <= 20
    ensures Ticks(Start, n) ==
      if n < 5 then State(100 + n, 1)
      else if n < 15 then State(110 - n, -1)
      else State(80 + n, 1)
  {
    if n > 0 {
      Trajectory(n - 1);
    }
  }

  /** The oscillation has period 20 ticks (2 seconds). */
  lemma Periodic(n: nat)
    ensures Ticks(Start, n + 20) == Ticks(Start, n)
  {
    Trajectory(20);
    TicksCompose(Start, 20, n);
  }

  lemma {:induction false} TicksCompose(s: State, m: nat, n: nat)
    ensures Ticks(s, m + n) == Ticks(Ticks(s, m), n)
  {
    if n > 0 {
      TicksCompose(s, m, n - 1);
    }
  }

  /** The page's oscillator: `breatheScale` and `breatheDirection`. */
  class Oscillator {
    var scale: int
    var direction: int

    function Current(): State
      reads this
    {
      State(scale, direction)
    }

    constructor ()
      ensures Current() == Start && Inv(Current())
    {
      scale := 100;
      direction := 1;
    }

    /** One interval tick; the graphic's transform is `scale(scale / 100)`. */
    method OnTimer()
      requires Inv(Current())
      modifies this
      ensures Current() == Tick(old(Current())) && Inv(Current())
      ensures Lower <= scale <= Upper
    {
      TickKeepsBounds(Current());
      scale := scale + direction;
      if scale >= Upper || scale <= Lower {
        direction := -direction;
      }
    }
  }
}
