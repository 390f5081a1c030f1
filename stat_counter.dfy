/** The statistics counters of script.js. When a stat scrolls into view, the
    digits of its text are parsed; a positive number starts a counter that
    climbs from 0 to that number on a 16 ms interval, and the stat is no
    longer observed. The counter's accumulator is a real number here. */
module StatCounter {
  import opened Wrappers

  /** The `\d` class of a non-Unicode JavaScript regular expression. */
  predicate IsDigit(c: char) {
    '0' <= c <= '9'
  }

  /** `text.replace(/\D/g, '')`: the digits of `text`, in order. */
  function Digits(text: string): (ds: string)
    ensures |ds| <= |text|
    ensures forall c :: c in ds <==> c in text && IsDigit(c)
  {
    if text == [] then []
    else if IsDigit(text[0]) then [text[0]] + Digits(text[1..])
    else Digits(text[1..])
  }

  /** The value of one decimal digit. */
  function DigitValue(c: char): (d: nat)
    requires IsDigit(c)
    ensures d <= 9 && "0123456789"[d] == c
    ensures d == 0 <==> c == '0'
  {
    c as int - '0' as int
  }

  /** Digit extraction keeps order and multiplicity: it distributes over
      concatenation. */
  lemma {:induction false} DigitsAppend(a: string, b: string)
    ensures Digits(a + b) == Digits(a) + Digits(b)
  {
    if a == [] {
      assert a + b == b;
    } else {
      assert (a + b)[1..] == a[1..] + b;
      DigitsAppend(a[1..], b);
    }
  }

  /** A string made only of digits is kept whole. */
  lemma {:induction false} DigitsOfDigitString(ds: string)
    requires forall c :: c in ds ==> IsDigit(c)
    ensures Digits(ds) == ds
  {
    if ds != [] {
      assert ds[0] in ds;
      assert forall c :: c in ds[1..] ==> c in ds;
      DigitsOfDigitString(ds[1..]);
      assert ds == [ds[0]] + ds[1..];
    }
  }

  /** The decimal value of a string of digits. */
  function DecimalValue(ds: string): nat
    requires forall c :: c in ds ==> IsDigit(c)
  {
    if ds == [] then 0
    else assert ds[|ds| - 1] in ds; DecimalValue(ds[..|ds| - 1]) * 10 + DigitValue(ds[|ds| - 1])
  }

  /** 10 to the power `k`. */
  function Pow10(k: nat): (p: nat)
    ensures p >= 1
  {
    if k == 0 then 1 else 10 * Pow10(k - 1)
  }

  /** The decimal value is positional: a single digit is worth its digit
      value, and appending `b` shifts `a` left by |b| places. */
  lemma {:induction false} DecimalValuePositional(a: string, b: string)
    requires forall c :: c in a ==> IsDigit(c)
    requires forall c :: c in b ==> IsDigit(c)
    ensures forall c :: c in a + b ==> IsDigit(c)
    ensures |a| == 1 ==> DecimalValue(a) == DigitValue(a[0])
    ensures DecimalValue(a + b) == DecimalValue(a) * Pow10(|b|) + DecimalValue(b)
  {
    assert forall c :: c in a + b ==> c in a || c in b;
    if |a| == 1 {
      assert a[..0] == [];
    }
    if b == [] {
      assert a + b == a;
    } else {
      var init := b[..|b| - 1];
      var last := b[|b| - 1];
      assert forall c :: c in init ==> c in b;
      assert last in b;
      DecimalValuePositional(a, init);
      assert (a + b)[..|a + b| - 1] == a + init;
      assert (a + b)[|a + b| - 1] == last;
      assert DecimalValue(a + b) == DecimalValue(a + init) * 10 + DigitValue(last);
      assert DecimalValue(b) == DecimalValue(init) * 10 + DigitValue(last);
      assert Pow10(|b|) == 10 * Pow10(|init|);
      ShiftLeft(DecimalValue(a), Pow10(|init|), DecimalValue(init), DigitValue(last));
    }
  }

  lemma ShiftLeft(x: int, p: int, y: int, digit: int)
    ensures (x * p + y) * 10 + digit == x * (10 * p) + (y * 10 + digit)
  {
  }

  /** `parseInt` of a digit string: NaN (`None`) for the empty string. */
  function ParseDigits(ds: string): (n: Option<nat>)
    requires forall c :: c in ds ==> IsDigit(c)
    ensures n.None? <==> ds == []
    ensures n.Some? ==> n.value == DecimalValue(ds)
  {
    if ds == [] then None else Some(DecimalValue(ds))
  }

  /** The target a stat's text starts a counter with, or `None` when the test
      `number > 0` fails (NaN or zero). */
  function StartTarget(text: string): (t: Option<nat>)
    ensures t.Some? ==> t.value > 0
  {
    var n := ParseDigits(Digits(text));
    if n.Some? && n.value > 0 then n else None
  }

  /** A digit string has a positive value exactly when one of its digits is
      not `0`. */
  lemma {:induction false} PositiveIffNonZeroDigit(ds: string)
    requires forall c :: c in ds ==> IsDigit(c)
    ensures DecimalValue(ds) > 0 <==> exists c :: c in ds && '1' <= c <= '9'
  {
    if ds != [] {
      var init := ds[..|ds| - 1];
      assert ds == init + [ds[|ds| - 1]];
      assert forall c :: c in ds <==> c in init || c == ds[|ds| - 1];
      PositiveIffNonZeroDigit(init);
      var last := ds[|ds| - 1];
      assert IsDigit(last);
      assert DecimalValue(ds) == DecimalValue(init) * 10 + DigitValue(last);
      if DigitValue(last) > 0 {
        assert last in ds && '1' <= last <= '9';
      } else if DecimalValue(init) > 0 {
        var c :| c in init && '1' <= c <= '9';
        assert c in ds;
      } else {
        assert forall c :: c in ds && '1' <= c <= '9' ==> c in init;
      }
    }
  }

  /** A counter starts exactly when the text holds a non-zero ASCII digit. */
  lemma StartsIffNonZeroDigit(text: string)
    ensures StartTarget(text).Some? <==> exists c :: c in text && '1' <= c <= '9'
  {
    var ds := Digits(text);
    PositiveIffNonZeroDigit(ds);
    if exists c :: c in text && '1' <= c <= '9' {
      var c :| c in text && '1' <= c <= '9';
      assert c in ds;
    }
  }

  /** Text without digits contributes nothing. */
  lemma {:induction false} DigitsOfPlain(p: string)
    requires forall c :: c in p ==> !IsDigit(c)
    ensures Digits(p) == []
  {
    if p != [] {
      assert p[0] in p;
      assert forall c :: c in p[1..] ==> c in p;
      DigitsOfPlain(p[1..]);
    }
  }

  /** A stat text such as "150+": the digits written between digit-free
      text start a counter whose target is the number they spell. */
  lemma StartTargetOfNumber(p: string, ds: string, q: string)
    requires forall c :: c in p ==> !IsDigit(c)
    requires forall c :: c in q ==> !IsDigit(c)
    requires forall c :: c in ds ==> IsDigit(c)
    requires DecimalValue(ds) > 0
    ensures StartTarget(p + ds + q) == Some(DecimalValue(ds))
  {
    DigitsAppend(p + ds, q);
    DigitsAppend(p, ds);
    DigitsOfDigitString(ds);
    DigitsOfPlain(p);
    DigitsOfPlain(q);
    assert Digits(p + ds + q) == ds;
  }

  /** The stats still watched by the intersection observer. */
  class StatsObserver {
    var observed: set<nat>

    constructor (stats: set<nat>)
      ensures observed == stats
    {
      observed := stats;
    }

    /** One observer entry for stat `stat`: when it intersects and its text
        gives a positive number, a counter with that target starts and the
        stat is unobserved; otherwise nothing happens. */
    method OnEntry(stat: nat, intersecting: bool, text: string) returns (started: Option<nat>)
      modifies this
      ensures started == if intersecting then StartTarget(text) else None
      ensures observed == if started.Some? then old(observed) - {stat} else old(observed)
    {
      started := None;
      if intersecting {
        var number := ParseDigits(Digits(text));
        if number.Some? && number.value > 0 {
          started := number;
          observed := observed - {stat};
        }
      }
    }
  }

  /** One tick of the interval: add the increment, and clamp to the target
      once it is reached. */
  function Advance(current: real, increment: real, target: real): (next: real)
    ensures next <= target
    ensures next == target <==> current + increment >= target
    ensures current <= target && increment >= 0.0 ==> current <= next
  {
    if current + increment >= target then target else current + increment
  }

  /** The number shown, `Math.floor(current)`, never decreases and never passes
      the target. */
  lemma ShownIsMonotone(current: real, increment: real, target: nat)
    requires 0.0 <= current <= target as real && increment >= 0.0
    ensures current.Floor <= Advance(current, increment, target as real).Floor <= target
  {
    var next := Advance(current, increment, target as real);
    assert next.Floor as real <= next <= target as real;
  }

  const DefaultDuration: real := 2000.0
  const TickMillis: real := 16.0

  /** The accumulator after `k` ticks of a counter with the default duration. */
  function ValueAfter(target: nat, k: nat): real
  {
    if k == 0 then 0.0
    else Advance(ValueAfter(target, k - 1), target as real / (DefaultDuration / TickMillis), target as real)
  }

  /** `k` increments of size `step` added to 0. */
  function Accumulated(k: nat, step: real): real
  {
    if k == 0 then 0.0 else Accumulated(k - 1, step) + step
  }

  lemma {:induction false} AccumulatedIsProduct(k: nat, step: real)
    ensures Accumulated(k, step) == k as real * step
  {
    if k > 0 {
      AccumulatedIsProduct(k - 1, step);
      assert (k - 1) as real * step + step == k as real * step;
    }
  }

  /** With the default duration the counter climbs by target/125 per tick:
      it is below the target for the first 124 ticks and reaches it exactly
      on tick 125, where the interval is cleared. */
  lemma {:induction false} TicksToFinish(target: nat, k: nat)
    requires target > 0 && k <= 125
    ensures ValueAfter(target, k) == Accumulated(k, target as real / 125.0)
    ensures ValueAfter(target, k) == target as real <==> k == 125
  {
    var t := target as real;
    var step := t / 125.0;
    assert t / (DefaultDuration / TickMillis) == step;
    StepFacts(k, step);
    if k > 0 {
      TicksToFinish(target, k - 1);
      StepFacts(k - 1, step);
      assert ValueAfter(target, k) == Advance(Accumulated(k - 1, step), step, t);
    }
  }

  /** Where k increments of t/125 stand relative to t. */
  lemma StepFacts(k: nat, step: real)
    requires k <= 125 && step > 0.0
    ensures Accumulated(k, step) < 125.0 * step <==> k < 125
    ensures Accumulated(k, step) == 125.0 * step <==> k == 125
  {
    AccumulatedIsProduct(k, step);
    if k < 125 {
      assert (125 - k) as real * step > 0.0;
      assert k as real * step + (125 - k) as real * step == 125.0 * step;
    }
  }

  /** A running stat counter (animateCounter). */
  class Counter {
    const target: nat
    const increment: real
    var current: real
    var running: bool
    /** The number last written to the element, `None` before the first tick. */
    var shown: Option<int>

    ghost predicate Valid()
      reads this
    {
      target > 0 && increment > 0.0 &&
      0.0 <= current <= target as real &&
      (running <==> current < target as real) &&
      (shown.Some? ==> shown.value == current.Floor)
    }

    /** animateCounter(element, target, duration): the increment is
        target / (duration / 16) and the accumulator starts at 0. */
    constructor (target: nat, duration: real)
      requires target > 0 && duration > 0.0
      ensures Valid() && this.target == target
      ensures increment == target as real / (duration / TickMillis)
      ensures current == 0.0 && running && shown == None
    {
      this.target := target;
      increment := target as real / (duration / TickMillis);
      current := 0.0;
      running := true;
      shown := None;
    }

    /** One interval tick. */
    method Tick()
      requires Valid() && running
      modifies this
      ensures Valid()
      ensures current == Advance(old(current), increment, target as real)
      ensures shown == Some(current.Floor) && shown.value <= target
      ensures old(shown).Some? ==> old(shown).value <= shown.value
      ensures !running <==> shown == Some(target)
    {
      ShownIsMonotone(current, increment, target);
      current := current + increment;
      if current >= target as real {
        current := target as real;
        running := false;
      }
      shown := Some(current.Floor);
    }
  }
}
