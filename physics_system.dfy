/** Booger charging and ballistics: one optional booger being charged by
    rubbing, a stress accumulator that ends the charge with a nosebleed, and
    a gravity step for boogers in flight.

    The charging state is also given as a value (Charge) with the operations
    on it as functions; the methods of PhysicsSystem are proved to move the
    object's fields exactly as those functions move the value, and the
    properties of a whole charging session are proved about the functions. */
module Physics {
  import opened Types
  import opened Randomness

  const MaxRadius: real := 40.0
  const MinRadius: real := 10.0
  const MaxRubStress: real := 1000.0
  /** Downward acceleration in px/s^2. */
  const Gravity: real := 800.0
  /** Radians per second a booger spins in flight. */
  const SpinRate: real := 10.0
  /** Radius gained per unit of rub. */
  const GrowthPerRub: real := 0.05
  /** The color a freshly created booger gets (lime 400). */
  const ColorCharging: string := "#bef264"

  datatype GrowResult = Ok | Nosebleed

  /** The charging slot and the stress accumulated in it. */
  datatype Charge = Charge(booger: Option<Booger>, stress: real)

  /** A booger as createBooger makes it. */
  function Fresh(id: real, x: real, y: real): (b: Booger)
    ensures Capped(Charge(Some(b), 0.0)) && b.radius == MinRadius
    ensures b.dx == 0.0 && b.dy == 0.0 && b.rotation == 0.0
  {
    Booger(id, x, y, 0.0, 0.0, MinRadius, ColorCharging, 0.0)
  }

  /** growBooger on a value: with a booger in the slot the amount is added to
      the stress, and the booger is either lost to a nosebleed or grown,
      capped at MaxRadius. */
  function Grow(c: Charge, amount: real): (r: (Charge, GrowResult))
    ensures r.0.booger.Some? ==> c.booger.Some?
    ensures Capped(c) ==> Capped(r.0)
  {
    if c.booger.None? then (c, Ok)
    else
      var stress := c.stress + amount;
      if stress > MaxRubStress then (Charge(None, stress), Nosebleed)
      else
        var b := c.booger.value;
        (Charge(Some(b.(radius := Min(MaxRadius, b.radius + amount * GrowthPerRub))), stress), Ok)
  }

  /** A booger's radius never exceeds the cap. */
  ghost predicate Capped(c: Charge) {
    c.booger.Some? ==> c.booger.value.radius <= MaxRadius
  }

  /** One growBooger call: without a booger nothing changes and the result
      is OK; with one, the stress grows by the amount, and the result is
      NOSEBLEED, with the slot emptied, exactly when the stress then exceeds
      the limit; otherwise only the radius changes, to the capped sum, which
      keeps the cap and does not shrink for a non-negative amount. */
  lemma GrowStep(c: Charge, amount: real)
    requires Capped(c)
    ensures var (n, r) := Grow(c, amount);
            && Capped(n)
            && (c.booger.None? ==> n == c && r == Ok)
            && (c.booger.Some? ==>
                  && n.stress == c.stress + amount
                  && (r == Nosebleed <==> c.stress + amount > MaxRubStress)
                  && (n.booger.None? <==> r == Nosebleed)
                  && (r == Ok ==> n.booger.value == c.booger.value.(radius := n.booger.value.radius))
                  && (r == Ok ==> n.booger.value.radius <= MaxRadius)
                  && (r == Ok && 0.0 <= amount ==> n.booger.value.radius >= c.booger.value.radius))
  {
  }

  /** A run of growBooger calls, one per amount. */
  function GrowAll(c: Charge, amounts: seq<real>): (n: Charge)
    ensures n.booger.Some? ==> c.booger.Some?
    ensures Capped(c) ==> Capped(n)
    decreases |amounts|
  {
    if amounts == [] then c else GrowAll(Grow(c, amounts[0]).0, amounts[1..])
  }

  function Sum(s: seq<real>): real
    decreases |s|
  {
    if s == [] then 0.0 else s[0] + Sum(s[1..])
  }

  predicate NonNegative(s: seq<real>) {
    forall i :: 0 <= i < |s| ==> s[i] >= 0.0
  }

  lemma {:induction false} SumNonNegative(s: seq<real>)
    requires NonNegative(s)
    ensures Sum(s) >= 0.0
  {
    if s != [] {
      SumNonNegative(s[1..]);
    }
  }

  /** Once the slot is empty, further rubbing changes nothing. */
  lemma {:induction false} GrowAllEmpty(c: Charge, amounts: seq<real>)
    requires c.booger.None?
    ensures GrowAll(c, amounts) == c
    decreases |amounts|
  {
    if amounts != [] {
      GrowAllEmpty(c, amounts[1..]);
    }
  }

  /** Over a session of non-negative rubs, the booger survives exactly when
      the stress it starts with plus everything rubbed stays within the
      limit. */
  lemma {:induction false} NosebleedIffOverLimit(c: Charge, amounts: seq<real>)
    requires c.booger.Some? && c.stress <= MaxRubStress && NonNegative(amounts)
    ensures GrowAll(c, amounts).booger.None? <==> c.stress + Sum(amounts) > MaxRubStress
    decreases |amounts|
  {
    if amounts != [] {
      var next := Grow(c, amounts[0]).0;
      SumNonNegative(amounts[1..]);
      if c.stress + amounts[0] > MaxRubStress {
        GrowAllEmpty(next, amounts[1..]);
      } else {
        NosebleedIffOverLimit(next, amounts[1..]);
      }
    }
  }

  /** While the booger survives a session of non-negative rubs, its radius
      is its starting radius plus 0.05 per unit rubbed, capped at MaxRadius,
      and the stress is the starting stress plus everything rubbed. */
  lemma {:induction false} RadiusAfterSession(c: Charge, amounts: seq<real>)
    requires c.booger.Some? && c.booger.value.radius <= MaxRadius && NonNegative(amounts)
    requires c.stress + Sum(amounts) <= MaxRubStress
    ensures var n := GrowAll(c, amounts);
            && n.booger.Some?
            && n.stress == c.stress + Sum(amounts)
            && n.booger.value == c.booger.value.(radius := Min(MaxRadius, c.booger.value.radius + Sum(amounts) * GrowthPerRub))
    decreases |amounts|
  {
    if amounts != [] {
      var next := Grow(c, amounts[0]).0;
      SumNonNegative(amounts[1..]);
      RadiusAfterSession(next, amounts[1..]);
    }
  }

  /** One physics step of a booger in flight: gravity first, then the move
      with the updated vertical speed, then the spin. */
  function Step(b: Booger, dt: real): (r: Booger)
    ensures r == b.(x := r.x, y := r.y, dy := r.dy, rotation := r.rotation)
  {
    var dy := b.dy + Gravity * dt;
    b.(dy := dy, x := b.x + b.dx * dt, y := b.y + dy * dt, rotation := b.rotation + SpinRate * dt)
  }

  /** n steps of the same length. */
  function Fly(b: Booger, dt: real, n: nat): (f: Booger)
    ensures f == b.(x := f.x, y := f.y, dy := f.dy, rotation := f.rotation)
    decreases n
  {
    if n == 0 then b else Fly(Step(b, dt), dt, n - 1)
  }

  /** The trajectory after n equal steps in closed form: uniform motion
      across, spin at a constant rate, and vertical speed growing by
      Gravity * dt per step; each step's fall uses the speed after that
      step's gravity, so the height gains the triangular number
      n(n+1)/2 of Gravity * dt * dt terms. */
  lemma {:induction false} FlyClosedForm(b: Booger, dt: real, n: nat)
    ensures var k := n as real;
            var f := Fly(b, dt, n);
            && f == b.(x := f.x, y := f.y, dy := f.dy, rotation := f.rotation)
            && f.x == b.x + k * (b.dx * dt)
            && f.dy == b.dy + k * (Gravity * dt)
            && f.y == b.y + k * (b.dy * dt) + (k * (k + 1.0) / 2.0) * (Gravity * dt * dt)
            && f.rotation == b.rotation + k * (SpinRate * dt)
    decreases n
  {
    if n > 0 {
      FlyClosedForm(Step(b, dt), dt, n - 1);
    }
  }

  class PhysicsSystem {
    var booger: Option<Booger>
    var currentRubStress: real

    function Charging(): Charge reads this {
      Charge(booger, currentRubStress)
    }

    ghost predicate Valid() reads this {
      Capped(Charging())
    }

    constructor ()
      ensures Valid() && booger == None && currentRubStress == 0.0
    {
      booger := None;
      currentRubStress := 0.0;
    }

    /** Replaces whatever is in the slot with a fresh booger at (x, y) and
        clears the stress. The id is one draw of Math.random. */
    method CreateBooger(x: real, y: real, rng: RandomSource) returns (b: Booger)
      requires rng.Valid()
      modifies this`booger, this`currentRubStress, rng`drawn
      ensures Valid()
      ensures rng.drawn == old(rng.drawn) + 1
      ensures b == Fresh(rng.roll(old(rng.drawn)), x, y)
      ensures b.radius == MinRadius && b.dx == 0.0 && b.dy == 0.0 && b.rotation == 0.0
      ensures booger == Some(b) && currentRubStress == 0.0
    {
      currentRubStress := 0.0;
      var id := rng.Next();
      b := Fresh(id, x, y);
      booger := Some(b);
    }

    method GrowBooger(amount: real) returns (r: GrowResult)
      requires Valid()
      modifies this`booger, this`currentRubStress
      ensures Valid()
      ensures (Charging(), r) == Grow(old(Charging()), amount)
    {
      GrowStep(Charging(), amount);
      if booger.None? {
        return Ok;
      }
      currentRubStress := currentRubStress + amount;
      if currentRubStress > MaxRubStress {
        booger := None;
        return Nosebleed;
      }
      var b := booger.value;
      booger := Some(b.(radius := Min(MaxRadius, b.radius + amount * GrowthPerRub)));
      return Ok;
    }

    /** Sets the booger's velocity to the flick velocity; the speed is not
        used. The booger stays in the slot. */
    method LaunchBooger(vx: real, vy: real, speed: real)
      requires Valid()
      modifies this`booger
      ensures Valid()
      ensures old(booger).None? ==> booger == None
      ensures old(booger).Some? ==> booger == Some(old(booger).value.(dx := vx, dy := vy))
    {
      if booger.None? {
        return;
      }
      booger := Some(booger.value.(dx := vx, dy := vy));
    }

    /** Steps every booger of the array in place, last to first. Boogers that
        leave the screen are not removed: the array keeps its elements in
        their order. */
    method Update(dt: real, boogers: array<Booger>)
      modifies boogers
      ensures forall i :: 0 <= i < boogers.Length ==> boogers[i] == Step(old(boogers[i]), dt)
    {
      var i := boogers.Length - 1;
      while i >= 0
        invariant -1 <= i < boogers.Length
        invariant forall j :: 0 <= j <= i ==> boogers[j] == old(boogers[j])
        invariant forall j :: i < j < boogers.Length ==> boogers[j] == Step(old(boogers[j]), dt)
        decreases i
      {
        boogers[i] := Step(boogers[i], dt);
        i := i - 1;
      }
    }

    method GetBooger() returns (b: Option<Booger>)
      ensures b == booger
    {
      b := booger;
    }

    /** Empties the slot and the stress. The new state does not depend on
        the old one, so a second call changes nothing. */
    method Clear()
      modifies this`booger, this`currentRubStress
      ensures Valid()
      ensures Charging() == Charge(None, 0.0)
    {
      booger := None;
      currentRubStress := 0.0;
    }
  }
}
