/** The per-frame simulation of the direct-aim game canvas, with drawing
    left out: spawning bugs from a weighted table, the round timer, bug
    motion and despawn, booger motion, collision and scoring, particle
    explosions and their decay, the reset when a round starts, and the aim
    clamp.

    Each step is given as a function on values (the specification) and as a
    method of GameCanvas that changes the fields the way the original
    changes its refs, with the loops the original has; every method is
    proved to agree with its function. Math.random is a RandomSource,
    Math.sin is the parameter `sin`, and the frame timestamp is a
    parameter. */
module Canvas {
  import opened Types
  import opened Randomness

  // ---------------------------------------------------------------------
  // The bug table

  /** What a bug type comes with. */
  datatype Profile = Profile(radius: real, speed: real, points: int, color: string, wobbleSpeed: real)

  /** The decision chain on the type roll, with strict thresholds. */
  function KindOf(roll: real): (k: BugType)
    ensures 0.0 <= roll < 1.0 ==> InBand(k, roll)
  {
    if roll > 0.97 then GoldenBeetle
    else if roll > 0.85 then Bee
    else if roll > 0.70 then Ladybug
    else if roll > 0.55 then Moth
    else if roll > 0.35 then Mosquito
    else Fly
  }

  /** The lower and upper end of the roll interval each type is drawn on. */
  function Lower(k: BugType): (lo: real)
    ensures 0.0 <= lo < 1.0
  {
    match k
    case Fly => 0.0
    case Mosquito => 0.35
    case Moth => 0.55
    case Ladybug => 0.70
    case Bee => 0.85
    case GoldenBeetle => 0.97
  }

  function Upper(k: BugType): (hi: real)
    ensures Lower(k) < hi <= 1.0
  {
    match k
    case Fly => 0.35
    case Mosquito => 0.55
    case Moth => 0.70
    case Ladybug => 0.85
    case Bee => 0.97
    case GoldenBeetle => 1.0
  }

  /** The roll interval of a type: open below (closed for the fly, whose
      interval starts at the smallest roll) and closed above (open for the
      golden beetle, since a roll is below 1). */
  function InBand(k: BugType, roll: real): (b: bool)
    ensures b ==> Lower(k) <= roll <= Upper(k) && 0.0 <= roll < 1.0
  {
    (if k == Fly then Lower(k) <= roll else Lower(k) < roll)
    && (if k == GoldenBeetle then roll < Upper(k) else roll <= Upper(k))
  }

  /** Every roll in [0, 1) picks the one type whose interval holds it; the
      intervals are 35%, 20%, 15%, 15%, 12% and 3% wide. */
  lemma KindBands(roll: real, k: BugType)
    requires 0.0 <= roll < 1.0
    ensures KindOf(roll) == k <==> InBand(k, roll)
    ensures Upper(k) - Lower(k) == match k
                                    case Fly => 0.35
                                    case Mosquito => 0.20
                                    case Moth => 0.15
                                    case Ladybug => 0.15
                                    case Bee => 0.12
                                    case GoldenBeetle => 0.03
  {
  }

  /** Size, speed, points, color and wobble of each type. */
  function ProfileOf(k: BugType): (p: Profile)
    ensures p.radius > 0.0 && p.speed > 0.0 && p.points > 0 && p.wobbleSpeed > 0.0
  {
    match k
    case GoldenBeetle => Profile(12.0, 12.0, 500, ColorBugGoldenBeetle, 0.002)
    case Bee => Profile(13.0, 5.0, 80, ColorBugBee, 0.02)
    case Ladybug => Profile(12.0, 4.0, 30, ColorBugLadybug, 0.005)
    case Moth => Profile(18.0, 1.5, 20, ColorBugMoth, 0.015)
    case Mosquito => Profile(10.0, 7.0, 50, ColorBugMosquito, 0.01)
    case Fly => Profile(15.0, 2.0, 10, ColorBugFly, 0.005)
  }

  // The scalings applied to single draws.

  /** A draw scaled to an angle, as Math.random() * Math.PI * 2. */
  function Angle(r: real): (a: real)
    ensures 0.0 <= r < 1.0 ==> 0.0 <= a < 2.0 * Pi
  {
    r * Pi * 2.0
  }

  /** A draw scaled to the entry height, in the upper half of the canvas
      shifted down by 50. */
  function Height(r: real): (h: real)
    ensures 0.0 <= r < 1.0 ==> 50.0 <= h < 350.0
  {
    r * (CanvasHeight / 2.0) + 50.0
  }

  /** A draw scaled to a particle's velocity component. */
  function Spread(r: real): (v: real)
    ensures 0.0 <= r < 1.0 ==> -4.0 <= v < 4.0
  {
    (r - 0.5) * 8.0
  }

  /** A draw scaled to a particle's radius. */
  function Size(r: real): (s: real)
    ensures 0.0 <= r < 1.0 ==> 2.0 <= s < 6.0
  {
    r * 4.0 + 2.0
  }

  /** The bug spawnBug makes from five consecutive draws, taken in the
      original's order: type, height, direction, id, wobble phase. */
  function Spawned(roll: nat -> real, at: nat): (b: Bug)
    ensures b.points == ProfileOf(b.kind).points && b.points > 0
    ensures b.dy == 0.0 && (b.dx > 0.0 <==> b.x < 0.0) && (b.dx < 0.0 <==> b.x > CanvasWidth)
  {
    var kind := KindOf(roll(at));
    var p := ProfileOf(kind);
    var direction := if roll(at + 2) > 0.5 then 1.0 else -1.0;
    var x := if direction == 1.0 then -p.radius else CanvasWidth + p.radius;
    Bug(roll(at + 3), x, Height(roll(at + 1)), p.speed * direction, 0.0, p.radius, p.color, kind, p.points,
        Angle(roll(at + 4)), p.wobbleSpeed)
  }

  /** A spawned bug has its type's profile, enters from just beyond the left
      edge heading right or from just beyond the right edge heading left,
      does not move vertically, and starts in the band [50, 350). */
  lemma SpawnEntry(roll: nat -> real, at: nat)
    requires IsUnitStream(roll)
    ensures var b := Spawned(roll, at);
            var p := ProfileOf(b.kind);
            && b.kind == KindOf(roll(at))
            && b.radius == p.radius && b.points == p.points && b.color == p.color
            && b.wobbleSpeed == p.wobbleSpeed
            && b.dy == 0.0 && b.dx != 0.0 && b.radius > 0.0
            && (b.dx > 0.0 ==> b.x == -b.radius && b.dx == p.speed)
            && (b.dx < 0.0 ==> b.x == CanvasWidth + b.radius && b.dx == -p.speed)
            && (b.dx > 0.0 <==> roll(at + 2) > 0.5)
            && 50.0 <= b.y < 350.0
            && 0.0 <= b.wobbleOffset < 2.0 * Pi
  {
    assert 0.0 <= roll(at + 1) < 1.0 && 0.0 <= roll(at + 4) < 1.0;
  }

  // ---------------------------------------------------------------------
  // Explosions

  /** One particle of an explosion from four consecutive draws: id, the two
      velocity components in [-4, 4), and the radius in [2, 6). */
  function Shard(x: real, y: real, color: string, roll: nat -> real, at: nat): (p: Particle)
    ensures IsUnitStream(roll) ==> -4.0 <= p.dx < 4.0 && -4.0 <= p.dy < 4.0 && 2.0 <= p.radius < 6.0
  {
    Particle(roll(at), x, y, Spread(roll(at + 1)), Spread(roll(at + 2)), Size(roll(at + 3)), color, 1.0, 1.0)
  }

  /** n particles of an explosion whose draws start at `at`, four per
      particle, in the order they are drawn. */
  function Shards(x: real, y: real, color: string, roll: nat -> real, at: nat, n: nat): (r: seq<Particle>)
    ensures |r| == n
  {
    seq(n, k requires 0 <= k < n => Shard(x, y, color, roll, at + 4 * k))
  }

  /** One more particle extends an explosion at its end. */
  lemma ShardsGrow(x: real, y: real, color: string, roll: nat -> real, at: nat, n: nat)
    ensures Shards(x, y, color, roll, at, n + 1) == Shards(x, y, color, roll, at, n) + [Shard(x, y, color, roll, at + 4 * n)]
  {
    var a, b := Shards(x, y, color, roll, at, n + 1), Shards(x, y, color, roll, at, n) + [Shard(x, y, color, roll, at + 4 * n)];
    assert forall k :: 0 <= k < n + 1 ==> a[k] == b[k];
  }

  /** Every particle of an explosion starts at the hit point with full
      life, a velocity within [-4, 4) on each axis and a radius in [2, 6). */
  lemma ShardsFresh(x: real, y: real, color: string, roll: nat -> real, at: nat, n: nat)
    requires IsUnitStream(roll)
    ensures forall i :: 0 <= i < n ==>
              var p := Shards(x, y, color, roll, at, n)[i];
              && p.id == roll(at + 4 * i)
              && p.x == x && p.y == y && p.color == color
              && p.life == 1.0 && p.maxLife == 1.0
              && -4.0 <= p.dx < 4.0 && -4.0 <= p.dy < 4.0
              && 2.0 <= p.radius < 6.0
  {
    forall i | 0 <= i < n
      ensures 0.0 <= roll(at + 4 * i + 1) < 1.0 && 0.0 <= roll(at + 4 * i + 2) < 1.0
      ensures 0.0 <= roll(at + 4 * i + 3) < 1.0
    {
    }
  }


  // ---------------------------------------------------------------------
  // Bugs

  /** One frame of a bug's motion: a fixed step across and a half-pixel
      wobble given by the sine of the timestamp scaled by the bug's wobble
      speed, shifted by its phase. */
  function MoveBug(b: Bug, time: real, sin: real -> real): (r: Bug)
    ensures r == b.(x := r.x, y := r.y)
    ensures r.x == b.x + b.dx
    ensures UnitWave(sin) ==> b.y - 0.5 <= r.y <= b.y + 0.5
  {
    var across := b.(x := b.x + b.dx);
    across.(y := across.y + Drift(across, time, sin))
  }

  /** The vertical wobble of a bug at a timestamp. */
  function Drift(b: Bug, time: real, sin: real -> real): (d: real)
    ensures UnitWave(sin) ==> -0.5 <= d <= 0.5
  {
    sin(time * b.wobbleSpeed + b.wobbleOffset) * 0.5
  }

  /** `sin` stays within [-1, 1], as Math.sin does. */
  ghost predicate UnitWave(sin: real -> real) {
    forall t :: -1.0 <= sin(t) <= 1.0
  }

  /** A bug has left the screen: moving right beyond 850 or moving left
      beyond -50. */
  function Gone(b: Bug): (gone: bool)
    ensures -50.0 <= b.x <= CanvasWidth + 50.0 ==> !gone
    ensures gone ==> b.dx != 0.0
  {
    (b.dx > 0.0 && b.x > CanvasWidth + 50.0) || (b.dx < 0.0 && b.x < -50.0)
  }

  /** splice(i, 1): the element at i goes, those after it move down one. */
  function Remove<T>(s: seq<T>, i: nat): (r: seq<T>)
    requires i < |s|
    ensures |r| == |s| - 1
    ensures forall k :: 0 <= k < i ==> r[k] == s[k]
    ensures forall k :: i <= k < |r| ==> r[k] == s[k + 1]
  {
    s[..i] + s[i + 1..]
  }

  /** Writing an element and then splicing it out is removing it. */
  lemma SetThenRemove<T>(s: seq<T>, i: nat, x: T)
    requires i < |s|
    ensures s[i := x][..i] + s[i := x][i + 1..] == Remove(s, i)
  {
    assert s[i := x][..i] == s[..i];
    assert s[i := x][i + 1..] == s[i + 1..];
  }

  /** The forEach sweep from index k on: the bug at index k (if the array
      still reaches that far) is moved, and removed by a splice if it has
      left the screen; the sweep then goes on at index k + 1 of the array
      as it now is. */
  function Sweep(bs: seq<Bug>, k: nat, time: real, sin: real -> real): (r: seq<Bug>)
    ensures |r| <= |bs|
    decreases |bs| - k
  {
    if k >= |bs| then bs
    else
      var b := MoveBug(bs[k], time, sin);
      if Gone(b) then Sweep(Remove(bs, k), k + 1, time, sin)
      else Sweep(bs[k := b], k + 1, time, sin)
  }

  /** The sweep never touches what lies before its index. */
  lemma {:induction false} SweepKeepsPrefix(bs: seq<Bug>, k: nat, time: real, sin: real -> real)
    requires k <= |bs|
    ensures k <= |Sweep(bs, k, time, sin)| && Sweep(bs, k, time, sin)[..k] == bs[..k]
    decreases |bs| - k
  {
    if k < |bs| {
      var next := if Gone(MoveBug(bs[k], time, sin)) then Remove(bs, k) else bs[k := MoveBug(bs[k], time, sin)];
      assert Sweep(bs, k, time, sin) == Sweep(next, k + 1, time, sin);
      assert next[..k] == bs[..k];
      if k + 1 <= |next| {
        SweepKeepsPrefix(next, k + 1, time, sin);
        var r := Sweep(next, k + 1, time, sin);
        assert r[..k] == r[..k + 1][..k];
      } else {
        assert Sweep(next, k + 1, time, sin) == next;
      }
    }
  }


  /** The sweep told front to back without indices: a bug that is not
      skipped is moved and, if it has left the screen, dropped, and then the
      bug after it is skipped; a skipped bug is kept where it was. */
  function SweepRef(bs: seq<Bug>, skip: bool, time: real, sin: real -> real): (r: seq<Bug>)
    ensures |r| <= |bs|
    decreases |bs|
  {
    if bs == [] then []
    else if skip then [bs[0]] + SweepRef(bs[1..], false, time, sin)
    else
      var b := MoveBug(bs[0], time, sin);
      if Gone(b) then SweepRef(bs[1..], true, time, sin)
      else [b] + SweepRef(bs[1..], false, time, sin)
  }

  /** The forEach with its splice, from index k on, is the reference sweep
      of the bugs from k on, after the untouched bugs before k. */
  lemma {:induction false} SweepIsRef(bs: seq<Bug>, k: nat, time: real, sin: real -> real)
    requires k <= |bs|
    ensures Sweep(bs, k, time, sin) == bs[..k] + SweepRef(bs[k..], false, time, sin)
    decreases |bs| - k
  {
    if k == |bs| {
      assert bs[..k] == bs && bs[k..] == [];
    } else if !Gone(MoveBug(bs[k], time, sin)) {
      var b := MoveBug(bs[k], time, sin);
      var next := bs[k := b];
      SweepIsRef(next, k + 1, time, sin);
      RefMoved(bs, k, time, sin);
      Regroup(bs[..k], [b], SweepRef(bs[k + 1..], false, time, sin));
    } else if k + 1 < |bs| {
      var r := Remove(bs, k);
      SweepIsRef(r, k + 1, time, sin);
      RefDropped(bs, k, time, sin);
      Regroup(bs[..k], [bs[k + 1]], SweepRef(bs[k + 2..], false, time, sin));
    } else {
      assert Remove(bs, k) == bs[..k];
      RefDroppedLast(bs, k, time, sin);
    }
  }

  /** A bug that stays on screen: the sweep writes it back moved, and the
      reference sweep emits it moved. */
  lemma RefMoved(bs: seq<Bug>, k: nat, time: real, sin: real -> real)
    requires k < |bs| && !Gone(MoveBug(bs[k], time, sin))
    ensures var b := MoveBug(bs[k], time, sin);
            && Sweep(bs, k, time, sin) == Sweep(bs[k := b], k + 1, time, sin)
            && bs[k := b][..k + 1] == bs[..k] + [b]
            && bs[k := b][k + 1..] == bs[k + 1..]
            && SweepRef(bs[k..], false, time, sin) == [b] + SweepRef(bs[k + 1..], false, time, sin)
  {
    assert bs[k..][0] == bs[k] && bs[k..][1..] == bs[k + 1..];
  }

  /** A bug that leaves the screen with a bug after it: the splice slides
      that bug into the passed index, and the reference sweep skips it. */
  lemma RefDropped(bs: seq<Bug>, k: nat, time: real, sin: real -> real)
    requires k + 1 < |bs| && Gone(MoveBug(bs[k], time, sin))
    ensures && Sweep(bs, k, time, sin) == Sweep(Remove(bs, k), k + 1, time, sin)
            && Remove(bs, k)[..k + 1] == bs[..k] + [bs[k + 1]]
            && Remove(bs, k)[k + 1..] == bs[k + 2..]
            && SweepRef(bs[k..], false, time, sin) == [bs[k + 1]] + SweepRef(bs[k + 2..], false, time, sin)
  {
    assert bs[k..][0] == bs[k] && bs[k..][1..] == bs[k + 1..];
    assert bs[k + 1..][0] == bs[k + 1] && bs[k + 1..][1..] == bs[k + 2..];
  }

  /** The last bug leaves the screen: both sweeps end without it. */
  lemma RefDroppedLast(bs: seq<Bug>, k: nat, time: real, sin: real -> real)
    requires k + 1 == |bs| && Gone(MoveBug(bs[k], time, sin))
    ensures Sweep(bs, k, time, sin) == bs[..k] + SweepRef(bs[k..], false, time, sin)
  {
    assert bs[k..][0] == bs[k] && bs[k..][1..] == [];
    assert Sweep(bs, k, time, sin) == Sweep(bs[..k], k + 1, time, sin);
  }

  lemma Regroup<T>(a: seq<T>, b: seq<T>, c: seq<T>)
    ensures (a + b) + c == a + (b + c)
  {
  }

  /** When no bug leaves the screen, every bug is moved exactly once. */
  lemma {:induction false} SweepMovesAll(bs: seq<Bug>, k: nat, time: real, sin: real -> real)
    requires k <= |bs|
    requires forall i :: k <= i < |bs| ==> !Gone(MoveBug(bs[i], time, sin))
    ensures |Sweep(bs, k, time, sin)| == |bs|
    ensures forall i :: 0 <= i < k ==> Sweep(bs, k, time, sin)[i] == bs[i]
    ensures forall i :: k <= i < |bs| ==> Sweep(bs, k, time, sin)[i] == MoveBug(bs[i], time, sin)
    decreases |bs| - k
  {
    if k < |bs| {
      var b := MoveBug(bs[k], time, sin);
      SweepMovesAll(bs[k := b], k + 1, time, sin);
    }
  }

  /** The splice during the sweep skips a bug: when the bug at index k
      leaves the screen, the bug after it slides into index k, which the
      sweep has already passed, and stays where it was this frame. */
  lemma SweepSkipsNext(bs: seq<Bug>, k: nat, time: real, sin: real -> real)
    requires k + 1 < |bs| && Gone(MoveBug(bs[k], time, sin))
    ensures k < |Sweep(bs, k, time, sin)| && Sweep(bs, k, time, sin)[k] == bs[k + 1]
  {
    var rest := Remove(bs, k);
    SweepKeepsPrefix(rest, k + 1, time, sin);
    var r := Sweep(rest, k + 1, time, sin);
    assert r[..k + 1][k] == rest[..k + 1][k];
  }

  // ---------------------------------------------------------------------
  // Boogers

  /** Math.hypot(dx, dy) < s, in squared form: a length is never negative,
      so it is below s exactly when s is positive and the squared length is
      below s squared. */
  function Overlap(b: Booger, bug: Bug): (o: bool)
    ensures o ==> var s := b.radius + bug.radius;
                  -s < b.x - bug.x < s && -s < b.y - bug.y < s
  {
    Closer(b.x - bug.x, b.y - bug.y, b.radius + bug.radius)
  }

  /** Math.hypot(dx, dy) < s */
  function Closer(dx: real, dy: real, s: real): (c: bool)
    ensures c ==> -s < dx < s && -s < dy < s
  {
    BoxBound(dx, dy, s);
    s > 0.0 && dx * dx + dy * dy < s * s
  }

  /** A point within distance s of the origin lies in the open square of
      half-width s. */
  lemma BoxBound(dx: real, dy: real, s: real)
    ensures s > 0.0 && dx * dx + dy * dy < s * s ==> -s < dx < s && -s < dy < s
  {
    if s > 0.0 && dx * dx + dy * dy < s * s {
      AxisBound(dx, dy, s);
      AxisBound(dy, dx, s);
    }
  }

  lemma AxisBound(u: real, v: real, s: real)
    requires s > 0.0 && u * u + v * v < s * s
    ensures -s < u < s
  {
    assert v * v >= 0.0;
    assert (s - u) * (s + u) == s * s - u * u;
    assert (s - u) * (s + u) > 0.0;
  }

  /** The reverse search among the first n bugs for one the booger hits:
      the highest such index. */
  function LastHit(b: Booger, bugs: seq<Bug>, n: nat): (r: Option<nat>)
    requires n <= |bugs|
    ensures r.Some? ==> r.value < n && Overlap(b, bugs[r.value])
    ensures r.Some? ==> forall k :: r.value < k < n ==> !Overlap(b, bugs[k])
    ensures r.None? ==> forall k :: 0 <= k < n ==> !Overlap(b, bugs[k])
    decreases n
  {
    if n == 0 then None
    else if Overlap(b, bugs[n - 1]) then Some(n - 1)
    else LastHit(b, bugs, n - 1)
  }

  /** The state the booger loop works on, and the scores it reports. */
  datatype Pass = Pass(bugs: seq<Bug>, boogers: seq<Booger>, particles: seq<Particle>,
                       score: int, at: nat, reports: seq<int>)

  /** The explosion color: gold for the golden beetle, the splat color
      for every other kind. */
  function SplatColor(bug: Bug): string {
    if bug.kind == GoldenBeetle then "#fde047" else ColorSplat
  }

  /** Only the golden beetle splats gold; every other kind uses the splat
      color. */
  lemma SplatColorCases(bug: Bug)
    ensures SplatColor(bug) == "#fde047" <==> bug.kind == GoldenBeetle
    ensures SplatColor(bug) == "#fde047" || SplatColor(bug) == ColorSplat
  {
  }

  /** One iteration of the booger loop at index i. */
  function ProcessBooger(s: Pass, i: nat, roll: nat -> real): (r: Pass)
    requires i < |s.boogers|
    ensures |r.boogers| == |s.boogers| || |r.boogers| == |s.boogers| - 1
    ensures |r.bugs| == |s.bugs| || |r.bugs| == |s.bugs| - 1
    ensures r.boogers[..i] == s.boogers[..i]
  {
    var b := s.boogers[i].(y := s.boogers[i].y + s.boogers[i].dy);
    if b.y < -20.0 then s.(boogers := Remove(s.boogers, i))
    else
      match LastHit(b, s.bugs, |s.bugs|)
      case None => s.(boogers := s.boogers[i := b])
      case Some(j) =>
        var bug := s.bugs[j];
        var score := s.score + bug.points;
        Pass(Remove(s.bugs, j), Remove(s.boogers, i),
             s.particles + Shards(bug.x, bug.y, SplatColor(bug), roll, s.at, 8),
             score, s.at + 32, s.reports + [score])
  }

  /** The booger loop from index i down to 0. */
  function BoogerPass(s: Pass, i: int, roll: nat -> real): (r: Pass)
    requires i < |s.boogers|
    ensures |r.boogers| <= |s.boogers| && |r.bugs| <= |s.bugs|
    decreases i + 1
  {
    if i < 0 then s else BoogerPass(ProcessBooger(s, i, roll), i - 1, roll)
  }

  /** Every bug is worth a positive number of points. */
  ghost predicate Scoring(bugs: seq<Bug>) {
    forall k :: 0 <= k < |bugs| ==> bugs[k].points > 0
  }

  /** A booger that flies off the top is removed without any collision
      test; otherwise the hit bug is the last one in the array it overlaps,
      the score goes up by exactly that bug's points and is reported, both
      are removed, and an explosion of eight particles is added at the bug;
      a booger that hits nothing stays, moved. */
  lemma BoogerOutcome(s: Pass, i: nat, roll: nat -> real)
    requires i < |s.boogers|
    ensures var b := s.boogers[i].(y := s.boogers[i].y + s.boogers[i].dy);
            var r := ProcessBooger(s, i, roll);
            && (b.y < -20.0 ==> r == s.(boogers := Remove(s.boogers, i)))
            && (b.y >= -20.0 && LastHit(b, s.bugs, |s.bugs|).None? ==>
                  r == s.(boogers := s.boogers[i := b]))
            && (b.y >= -20.0 && LastHit(b, s.bugs, |s.bugs|).Some? ==>
                  var j := LastHit(b, s.bugs, |s.bugs|).value;
                  && Overlap(b, s.bugs[j])
                  && (forall k :: j < k < |s.bugs| ==> !Overlap(b, s.bugs[k]))
                  && r.score == s.score + s.bugs[j].points
                  && r.reports == s.reports + [r.score]
                  && r.bugs == Remove(s.bugs, j) && r.boogers == Remove(s.boogers, i)
                  && r.particles == s.particles + Shards(s.bugs[j].x, s.bugs[j].y, SplatColor(s.bugs[j]), roll, s.at, 8)
                  && r.at == s.at + 32)
  {
  }

  /** The scores reported so far strictly increase, and the last one is
      the current score. */
  ghost predicate Reported(p: Pass) {
    && (forall k, l :: 0 <= k < l < |p.reports| ==> p.reports[k] < p.reports[l])
    && (|p.reports| > 0 ==> p.reports[|p.reports| - 1] == p.score)
  }

  /** What one iteration keeps: bugs keep positive points, the reports so
      far stay as they are, a hit removes one bug and reports one score
      above the old one, and without a report the score is unchanged. */
  lemma ProcessKeeps(s: Pass, i: nat, roll: nat -> real)
    requires i < |s.boogers| && Scoring(s.bugs) && Reported(s)
    ensures var r := ProcessBooger(s, i, roll);
            && Scoring(r.bugs) && Reported(r)
            && r.score >= s.score
            && (r.reports == s.reports || r.reports == s.reports + [r.score])
            && (r.reports == s.reports ==> r.score == s.score && r.bugs == s.bugs)
            && (r.reports != s.reports ==> r.score > s.score && |r.bugs| == |s.bugs| - 1)
  {
    var b := s.boogers[i].(y := s.boogers[i].y + s.boogers[i].dy);
    var r := ProcessBooger(s, i, roll);
    if b.y >= -20.0 && LastHit(b, s.bugs, |s.bugs|).Some? {
      var j := LastHit(b, s.bugs, |s.bugs|).value;
      assert r.bugs == Remove(s.bugs, j) && r.score == s.score + s.bugs[j].points;
      assert r.reports == s.reports + [r.score];
      ScoringRemove(s.bugs, j);
      ReportedHit(s, r);
    } else {
      assert r.bugs == s.bugs && r.score == s.score && r.reports == s.reports;
    }
  }

  /** A splice keeps every remaining bug's points positive. */
  lemma ScoringRemove(bs: seq<Bug>, j: nat)
    requires j < |bs| && Scoring(bs)
    ensures Scoring(Remove(bs, j))
  {
    var r := Remove(bs, j);
    assert forall k :: 0 <= k < |r| ==> r[k] == (if k < j then bs[k] else bs[k + 1]);
  }

  /** Reporting a score above the current one keeps the reports increasing
      with the current score last. */
  lemma ReportedHit(s: Pass, n: Pass)
    requires Reported(s) && n.score > s.score && n.reports == s.reports + [n.score]
    ensures Reported(n)
  {
  }


  /** Over the whole booger loop bugs keep positive points, the score never
      goes down, the reports keep increasing with the new score last, each
      hit removes exactly one bug and reports exactly one score, and a loop
      that reports nothing leaves the score alone. */
  lemma {:induction false} PassScores(s: Pass, i: int, roll: nat -> real)
    requires i < |s.boogers| && Scoring(s.bugs) && Reported(s)
    ensures var r := BoogerPass(s, i, roll);
            && Scoring(r.bugs) && Reported(r)
            && r.score >= s.score
            && |s.reports| <= |r.reports|
            && |s.bugs| - |r.bugs| == |r.reports| - |s.reports|
            && (|r.reports| == |s.reports| ==> r.score == s.score)
    decreases i + 1
  {
    if i >= 0 {
      ProcessKeeps(s, i, roll);
      PassScores(ProcessBooger(s, i, roll), i - 1, roll);
    }
  }

  /** The booger loop takes 32 draws, one explosion, per score it
      reports, and no others. */
  lemma {:induction false} PassDraws(s: Pass, i: int, roll: nat -> real)
    requires i < |s.boogers|
    ensures var r := BoogerPass(s, i, roll);
            |s.reports| <= |r.reports| && r.at == s.at + 32 * (|r.reports| - |s.reports|)
    decreases i + 1
  {
    if i >= 0 {
      PassDraws(ProcessBooger(s, i, roll), i - 1, roll);
    }
  }

  /** The booger loop only appends to the reports, and every score it
      appends is above the score it started from. */
  lemma {:induction false} PassExtends(s: Pass, i: int, roll: nat -> real)
    requires i < |s.boogers| && Scoring(s.bugs) && Reported(s)
    ensures var r := BoogerPass(s, i, roll);
            && s.reports <= r.reports
            && (forall k :: |s.reports| <= k < |r.reports| ==> s.score < r.reports[k])
    decreases i + 1
  {
    if i >= 0 {
      var n := ProcessBooger(s, i, roll);
      ProcessKeeps(s, i, roll);
      PassExtends(n, i - 1, roll);
      var r := BoogerPass(n, i - 1, roll);
      assert r == BoogerPass(s, i, roll);
      forall k | |s.reports| <= k < |r.reports|
        ensures s.score < r.reports[k]
      {
        if k < |n.reports| {
          assert r.reports[k] == n.reports[k] == n.score;
        }
      }
    }
  }

  // ---------------------------------------------------------------------
  // Particles

  /** One frame of a particle: it moves by its velocity and loses 0.05 of
      its life. */
  function Fade(p: Particle): (r: Particle)
    ensures r == p.(x := r.x, y := r.y, life := r.life)
    ensures r.life < p.life
  {
    p.(x := p.x + p.dx, y := p.y + p.dy, life := p.life - 0.05)
  }

  /** One frame of all particles: each faded, those whose life has run out
      dropped, the rest kept in order. */
  function FadeAll(ps: seq<Particle>): (r: seq<Particle>)
    ensures |r| <= |ps|
    decreases |ps|
  {
    if ps == [] then []
    else (if Fade(ps[0]).life <= 0.0 then [] else [Fade(ps[0])]) + FadeAll(ps[1..])
  }

  /** Every particle kept by a frame has life left, and is a faded particle
      of the frame before. */
  lemma {:induction false} FadeAllAlive(ps: seq<Particle>)
    ensures forall k :: 0 <= k < |FadeAll(ps)| ==> FadeAll(ps)[k].life > 0.0
    ensures forall q :: q in FadeAll(ps) ==> exists p :: p in ps && q == Fade(p)
    decreases |ps|
  {
    if ps != [] {
      FadeAllAlive(ps[1..]);
      assert forall p :: p in ps[1..] ==> p in ps;
    }
  }

  function FadeN(p: Particle, n: nat): Particle
    decreases n
  {
    if n == 0 then p else FadeN(Fade(p), n - 1)
  }

  /** After n frames a particle has moved n times its velocity and lost
      0.05 of life per frame; one from an explosion (life 1) is still there
      after 19 frames and gone in the 20th. */
  lemma {:induction false} FadeLifetime(p: Particle, n: nat)
    ensures var q := FadeN(p, n);
            && q.life == p.life - 0.05 * (n as real)
            && q.x == p.x + (n as real) * p.dx && q.y == p.y + (n as real) * p.dy
            && q == p.(x := q.x, y := q.y, life := q.life)
            && (p.life == 1.0 ==> (q.life > 0.0 <==> n < 20))
    decreases n
  {
    if n > 0 {
      FadeLifetime(Fade(p), n - 1);
    }
  }

  /** One frame of the particles from index i on: the one at i, faded and
      kept if it has life left, before the rest. */
  lemma FadeFront(ps: seq<Particle>, i: nat)
    requires i < |ps|
    ensures FadeAll(ps[i..]) == (if Fade(ps[i]).life <= 0.0 then [] else [Fade(ps[i])]) + FadeAll(ps[i + 1..])
  {
    assert ps[i..][1..] == ps[i + 1..];
  }

  lemma Split<T>(s: seq<T>, i: nat)
    requires i < |s|
    ensures s[..i + 1] == s[..i] + [s[i]]
  {
  }

  /** Splicing out the element after a prefix. */
  lemma SpliceJoin<T>(a: seq<T>, x: T, b: seq<T>)
    ensures (a + [x] + b)[..|a|] + (a + [x] + b)[|a| + 1..] == a + b
  {
    assert (a + [x] + b)[..|a|] == a;
    assert (a + [x] + b)[|a| + 1..] == b;
  }

  /** Overwriting the element after a prefix. */
  lemma SetJoin<T>(a: seq<T>, x: T, y: T, b: seq<T>)
    ensures (a + [x] + b)[|a| := y] == a + [y] + b
  {
  }

  /** One pass of the particle loop at index i, on a sequence whose tail
      from i + 1 has already been processed: splicing out the faded particle
      or overwriting it leaves the tail from i processed. */
  lemma FadeStep(orig: seq<Particle>, i: nat, ps: seq<Particle>)
    requires i < |orig| && ps == orig[..i + 1] + FadeAll(orig[i + 1..])
    ensures i < |ps| && ps[i] == orig[i]
    ensures Fade(orig[i]).life <= 0.0 ==> ps[..i] + ps[i + 1..] == orig[..i] + FadeAll(orig[i..])
    ensures Fade(orig[i]).life > 0.0 ==> ps[i := Fade(orig[i])] == orig[..i] + FadeAll(orig[i..])
  {
    ghost var rest := FadeAll(orig[i + 1..]);
    Split(orig, i);
    assert ps == orig[..i] + [orig[i]] + rest;
    FadeFront(orig, i);
    if Fade(orig[i]).life <= 0.0 {
      SpliceJoin(orig[..i], orig[i], rest);
      assert [] + rest == rest;
    } else {
      SetJoin(orig[..i], orig[i], Fade(orig[i]), rest);
      Regroup(orig[..i], [Fade(orig[i])], rest);
    }
  }

  /** The particles kept by one frame are exactly the faded particles with
      life left, in their original order. */
  lemma {:induction false} FadeAllKeeps(ps: seq<Particle>, a: seq<Particle>, b: seq<Particle>)
    requires ps == a + b
    ensures FadeAll(ps) == FadeAll(a) + FadeAll(b)
    decreases |a|
  {
    if a != [] {
      assert ps[0] == a[0] && ps[1..] == a[1..] + b;
      FadeAllKeeps(ps[1..], a[1..], b);
      ghost var head := if Fade(a[0]).life <= 0.0 then [] else [Fade(a[0])];
      Regroup(head, FadeAll(a[1..]), FadeAll(b));
    } else {
      assert ps == b;
    }
  }

  /** Conversely, every particle with life left after fading is kept. */
  lemma FadeAllKeepsLiving(ps: seq<Particle>, i: nat)
    requires i < |ps| && Fade(ps[i]).life > 0.0
    ensures Fade(ps[i]) in FadeAll(ps)
  {
    FadeAllKeeps(ps, ps[..i], ps[i..]);
    FadeFront(ps, i);
    assert FadeAll(ps) == FadeAll(ps[..i]) + ([Fade(ps[i])] + FadeAll(ps[i + 1..]));
  }

  // ---------------------------------------------------------------------
  // The round timer

  /** What the timer does in one frame: a gap of a second or more is not
      counted; otherwise the gap is taken off, and if nothing is left the
      round ends. */
  datatype Tick = Skipped | Counted(left: real) | Expired

  function TickOf(timeLeft: real, deltaTime: real): (t: Tick)
    ensures t == Skipped <==> deltaTime >= 1000.0
    ensures t.Counted? ==> t.left > 0.0 && t.left == timeLeft - deltaTime / 1000.0
    ensures t == Expired <==> deltaTime < 1000.0 && timeLeft - deltaTime / 1000.0 <= 0.0
  {
    if deltaTime < 1000.0 then
      var left := timeLeft - deltaTime / 1000.0;
      if left <= 0.0 then Expired else Counted(left)
    else Skipped
  }

  function Counts(deltaTime: real): real {
    if deltaTime < 1000.0 then deltaTime else 0.0
  }

  function CountedSum(ds: seq<real>): real
    decreases |ds|
  {
    if ds == [] then 0.0 else Counts(ds[0]) + CountedSum(ds[1..])
  }

  /** The timer over a run of frames with the given gaps, stopping at the
      frame that ends the round: the time left, and whether it ended. */
  function RunTimer(timeLeft: real, ds: seq<real>): (real, bool)
    decreases |ds|
  {
    if ds == [] then (timeLeft, false)
    else match TickOf(timeLeft, ds[0])
      case Skipped => RunTimer(timeLeft, ds[1..])
      case Counted(left) => RunTimer(left, ds[1..])
      case Expired => (0.0, true)
  }

  predicate AllNonNegative(ds: seq<real>) {
    forall k :: 0 <= k < |ds| ==> ds[k] >= 0.0
  }

  lemma {:induction false} CountedSumNonNegative(ds: seq<real>)
    requires AllNonNegative(ds)
    ensures CountedSum(ds) >= 0.0
    decreases |ds|
  {
    if ds != [] {
      CountedSumNonNegative(ds[1..]);
    }
  }

  /** With gaps that are never negative, the round ends within a run of
      frames exactly when the gaps under a second add up to all the time
      that was left, and while it has not ended the time left is what was
      left minus those gaps. Gaps of a second or more never count. */
  lemma {:induction false} RoundEnds(timeLeft: real, ds: seq<real>)
    requires timeLeft > 0.0 && AllNonNegative(ds)
    ensures RunTimer(timeLeft, ds).1 <==> CountedSum(ds) >= 1000.0 * timeLeft
    ensures !RunTimer(timeLeft, ds).1 ==> RunTimer(timeLeft, ds).0 == timeLeft - CountedSum(ds) / 1000.0
    decreases |ds|
  {
    if ds != [] {
      CountedSumNonNegative(ds[1..]);
      match TickOf(timeLeft, ds[0])
      case Skipped =>
        RoundEnds(timeLeft, ds[1..]);
      case Counted(left) =>
        RoundEnds(left, ds[1..]);
      case Expired =>
    }
  }

  // ---------------------------------------------------------------------
  // The aim

  /** Math.max(20, Math.min(CANVAS_WIDTH - 20, x)) */
  function ClampAim(x: real): (r: real)
    ensures 20.0 <= r <= CanvasWidth - 20.0
    ensures 20.0 <= x <= CanvasWidth - 20.0 ==> r == x
    ensures x < 20.0 ==> r == 20.0
    ensures x > CanvasWidth - 20.0 ==> r == CanvasWidth - 20.0
  {
    Max(20.0, Min(CanvasWidth - 20.0, x))
  }

  // ---------------------------------------------------------------------
  // A whole frame

  /** Everything the frame reads and writes besides the random stream. */
  datatype World = World(bugs: seq<Bug>, boogers: seq<Booger>, particles: seq<Particle>,
                         score: int, timeLeft: real, lastSpawnTime: real, lastTime: real,
                         playerX: real)

  /** The callbacks a frame makes: onTimeUpdate (at most once), onScoreUpdate
      (once per hit), onGameOver, and whether the next frame is requested. */
  datatype FrameReport = FrameReport(time: Option<real>, scores: seq<int>, gameOver: bool, reschedule: bool)

  /** More than SpawnRateMs have passed since the last spawn. */
  function SpawnDue(time: real, lastSpawnTime: real): (due: bool)
    ensures due ==> time > lastSpawnTime
    ensures time <= lastSpawnTime + SpawnRateMs ==> !due
  {
    time - lastSpawnTime > SpawnRateMs
  }

  /** The timer part of a frame: the frame clock moves to `time`; a gap
      under a second is taken off the time left and reported, and when
      nothing is left the time is clamped to zero and the round is over. */
  function Clocked(w: World, time: real): (r: (World, Option<real>, bool))
    ensures r.0 == w.(lastTime := time, timeLeft := r.0.timeLeft)
    ensures r.1.Some? ==> r.1.value == r.0.timeLeft
    ensures r.1.None? ==> r.0.timeLeft == w.timeLeft
    ensures r.2 <==> r.1 == Some(0.0)
    ensures r.1.Some? <==> time - w.lastTime < 1000.0
    ensures r.1.Some? && !r.2 ==> r.0.timeLeft == w.timeLeft - (time - w.lastTime) / 1000.0
    ensures r.2 <==> time - w.lastTime < 1000.0 && w.timeLeft - (time - w.lastTime) / 1000.0 <= 0.0
  {
    match TickOf(w.timeLeft, time - w.lastTime)
    case Skipped => (w.(lastTime := time), None, false)
    case Counted(left) => (w.(lastTime := time, timeLeft := left), Some(left), false)
    case Expired => (w.(lastTime := time, timeLeft := 0.0), Some(0.0), true)
  }

  /** The spawn part of a frame: one bug from the next five draws when
      more than SpawnRateMs have passed since the last spawn. */
  function Spawning(w: World, time: real, roll: nat -> real, at: nat): (r: (World, nat))
    ensures r.0 == w.(bugs := r.0.bugs, lastSpawnTime := r.0.lastSpawnTime)
    ensures |w.bugs| <= |r.0.bugs| <= |w.bugs| + 1 && r.0.bugs[..|w.bugs|] == w.bugs
    ensures |r.0.bugs| == |w.bugs| + 1 <==> SpawnDue(time, w.lastSpawnTime)
    ensures |r.0.bugs| == |w.bugs| + 1 ==> r.0.bugs[|w.bugs|] == Spawned(roll, at) && r.0.lastSpawnTime == time && r.1 == at + 5
    ensures |r.0.bugs| == |w.bugs| ==> r.0 == w && r.1 == at
  {
    if SpawnDue(time, w.lastSpawnTime) then (w.(bugs := w.bugs + [Spawned(roll, at)], lastSpawnTime := time), at + 5)
    else (w, at)
  }

  /** One frame of play at timestamp `time`, with the draws starting at
      `at`: the new world, the report and where the draws stop. */
  function Frame(w: World, time: real, roll: nat -> real, at: nat, sin: real -> real): (r: (World, FrameReport, nat))
    ensures r.0.lastTime == time && r.0.playerX == w.playerX
    ensures r.1.gameOver <==> !r.1.reschedule
    ensures r.1.gameOver ==> r.1.scores == [] && r.2 == at
  {
    var (w1, timeReport, over) := Clocked(w, time);
    if over then (w1, FrameReport(timeReport, [], true, false), at)
    else
      var (w2, at2) := Spawning(w1, time, roll, at);
      var (w3, scores, at3) := Advanced(w2, time, roll, at2, sin);
      (w3, FrameReport(timeReport, scores, false, true), at3)
  }

  /** The moving part of a frame: the bug sweep, the booger loop and the
      particle loop, with the scores reported and where the draws stop. */
  function Advanced(w: World, time: real, roll: nat -> real, at: nat, sin: real -> real): (r: (World, seq<int>, nat))
    ensures r.0 == w.(bugs := r.0.bugs, boogers := r.0.boogers, particles := r.0.particles, score := r.0.score)
    ensures |r.0.boogers| <= |w.boogers|
  {
    var p := BoogerPass(Pass(Sweep(w.bugs, 0, time, sin), w.boogers, w.particles, w.score, at, []),
                        |w.boogers| - 1, roll);
    (w.(bugs := p.bugs, boogers := p.boogers, particles := FadeAll(p.particles), score := p.score), p.reports, p.at)
  }

  /** What a frame promises: the round ends, with the time clamped to zero
      and nothing else moved, exactly when a sub-second gap uses up the time
      left; otherwise the frame asks for the next one, spawns one bug
      exactly when more than 800 ms have passed since the last spawn, and
      never lowers the score, reporting one score per hit, last the new
      score. */
  lemma FrameOutcome(w: World, time: real, roll: nat -> real, at: nat, sin: real -> real)
    requires Scoring(w.bugs) && IsUnitStream(roll)
    ensures var (n, rep, at') := Frame(w, time, roll, at, sin);
            var dt := time - w.lastTime;
            && n.lastTime == time
            && Scoring(n.bugs)
            && (rep.gameOver <==> dt < 1000.0 && w.timeLeft - dt / 1000.0 <= 0.0)
            && (rep.gameOver ==> n == w.(lastTime := time, timeLeft := 0.0) && rep.time == Some(0.0)
                                 && !rep.reschedule && at' == at)
            && (!rep.gameOver ==>
                  && rep.reschedule
                  && (dt >= 1000.0 ==> n.timeLeft == w.timeLeft && rep.time == None)
                  && (dt < 1000.0 ==> n.timeLeft == w.timeLeft - dt / 1000.0 && n.timeLeft > 0.0
                                      && rep.time == Some(n.timeLeft))
                  && (n.lastSpawnTime == time || n.lastSpawnTime == w.lastSpawnTime)
                  && (SpawnDue(time, w.lastSpawnTime) ==> n.lastSpawnTime == time)
                  && (!SpawnDue(time, w.lastSpawnTime) ==> n.lastSpawnTime == w.lastSpawnTime)
                  && |n.bugs| <= |w.bugs| + 1
                  && n.score >= w.score
                  && (forall k :: 0 <= k < |rep.scores| ==> w.score < rep.scores[k])
                  && (forall k, l :: 0 <= k < l < |rep.scores| ==> rep.scores[k] < rep.scores[l])
                  && (|rep.scores| > 0 ==> rep.scores[|rep.scores| - 1] == n.score)
                  && (|rep.scores| == 0 ==> n.score == w.score)
                  && n.playerX == w.playerX
                  && at' == at + (if SpawnDue(time, w.lastSpawnTime) then 5 else 0) + 32 * |rep.scores|)
  {
    var (w1, _, over) := Clocked(w, time);
    if !over {
      var (w2, at2) := Spawning(w1, time, roll, at);
      if SpawnDue(time, w.lastSpawnTime) {
        ScoringAppend(w.bugs, Spawned(roll, at));
      }
      AdvancedOutcome(w2, time, roll, at2, sin);
      FrameDraws(w, time, roll, at, sin);
    }
  }

  /** A frame that goes on takes five draws for a spawn and 32 per hit. */
  lemma FrameDraws(w: World, time: real, roll: nat -> real, at: nat, sin: real -> real)
    requires !Clocked(w, time).2
    ensures var (_, rep, at') := Frame(w, time, roll, at, sin);
            at' == at + (if SpawnDue(time, w.lastSpawnTime) then 5 else 0) + 32 * |rep.scores|
  {
    var (w2, at2) := Spawning(Clocked(w, time).0, time, roll, at);
    PassDraws(Pass(Sweep(w2.bugs, 0, time, sin), w2.boogers, w2.particles, w2.score, at2, []), |w2.boogers| - 1, roll);
  }

  /** Appending a bug worth points keeps every bug worth points. */
  lemma ScoringAppend(bs: seq<Bug>, b: Bug)
    requires Scoring(bs) && b.points > 0
    ensures Scoring(bs + [b])
  {
  }

  /** What the moving part of a frame keeps and reports: bugs keep positive
      points, only the bugs, boogers, particles and score change, a bug is
      gone for every score reported, and the reported scores strictly
      increase from above the old score up to the new one, which is the old
      one when nothing is reported. */
  lemma AdvancedOutcome(w: World, time: real, roll: nat -> real, at: nat, sin: real -> real)
    requires Scoring(w.bugs)
    ensures var (n, scores, _) := Advanced(w, time, roll, at, sin);
            && Scoring(n.bugs)
            && n == w.(bugs := n.bugs, boogers := n.boogers, particles := n.particles, score := n.score)
            && |n.bugs| + |scores| <= |w.bugs|
            && n.score >= w.score
            && (forall k :: 0 <= k < |scores| ==> w.score < scores[k])
            && (forall k, l :: 0 <= k < l < |scores| ==> scores[k] < scores[l])
            && (|scores| > 0 ==> scores[|scores| - 1] == n.score)
            && (|scores| == 0 ==> n.score == w.score)
  {
    SweepScoring(w.bugs, 0, time, sin);
    var s := Pass(Sweep(w.bugs, 0, time, sin), w.boogers, w.particles, w.score, at, []);
    PassScores(s, |w.boogers| - 1, roll);
    PassExtends(s, |w.boogers| - 1, roll);
  }

  /** The moving part of a frame keeps every bug worth points. */
  lemma AdvancedScoring(w: World, time: real, roll: nat -> real, at: nat, sin: real -> real)
    requires Scoring(w.bugs)
    ensures Scoring(Advanced(w, time, roll, at, sin).0.bugs)
  {
    AdvancedOutcome(w, time, roll, at, sin);
  }

  /** The sweep only moves and removes bugs; it keeps their points. */
  lemma {:induction false} SweepScoring(bs: seq<Bug>, k: nat, time: real, sin: real -> real)
    requires Scoring(bs)
    ensures Scoring(Sweep(bs, k, time, sin))
    decreases |bs| - k
  {
    if k < |bs| {
      var b := MoveBug(bs[k], time, sin);
      if Gone(b) {
        var r := Remove(bs, k);
        assert forall i :: 0 <= i < |r| ==> r[i] in bs;
        SweepScoring(r, k + 1, time, sin);
      } else {
        SweepScoring(bs[k := b], k + 1, time, sin);
      }
    }
  }

  // ---------------------------------------------------------------------
  // The component's refs

  class GameCanvas {
    var playerX: real
    var bugs: seq<Bug>
    var boogers: seq<Booger>
    var particles: seq<Particle>
    var lastSpawnTime: real
    var score: int
    var timeLeft: real
    var lastTime: real

    function Snapshot(): World reads this {
      World(bugs, boogers, particles, score, timeLeft, lastSpawnTime, lastTime, playerX)
    }

    ghost predicate Valid() reads this {
      Scoring(bugs)
    }

    /** The refs' initial values. */
    constructor ()
      ensures Valid()
      ensures Snapshot() == World([], [], [], 0, GameDurationSec, 0.0, 0.0, CanvasWidth / 2.0)
    {
      playerX := CanvasWidth / 2.0;
      bugs := [];
      boogers := [];
      particles := [];
      lastSpawnTime := 0.0;
      score := 0;
      timeLeft := GameDurationSec;
      lastTime := 0.0;
    }

    /** The reset when the round enters PLAYING: score 0, a full clock, no
        entities, the frame clock set to `now` and the spawn clock to 0. It
        reports score 0 and the full time. The aim is kept. */
    method StartRound(now: real) returns (scoreReport: int, timeReport: real)
      modifies this`score, this`timeLeft, this`bugs, this`boogers, this`particles, this`lastTime, this`lastSpawnTime
      ensures Valid()
      ensures Snapshot() == World([], [], [], 0, GameDurationSec, 0.0, now, old(playerX))
      ensures scoreReport == 0 && timeReport == GameDurationSec
    {
      score := 0;
      timeLeft := GameDurationSec;
      bugs := [];
      boogers := [];
      particles := [];
      lastTime := now;
      lastSpawnTime := 0.0;
      scoreReport, timeReport := 0, GameDurationSec;
    }

    /** A mouse or touch position mapped to canvas coordinates becomes the aim,
        clamped to [20, 780]. */
    method Aim(x: real)
      modifies this`playerX
      ensures playerX == ClampAim(x)
    {
      playerX := ClampAim(x);
    }

    /** Fires a booger straight up from the aim, only while playing. Two
        draws: the id, then the spin. */
    method Shoot(state: GameState, rng: RandomSource)
      requires rng.Valid()
      modifies this`boogers, rng`drawn
      ensures state != Playing ==> boogers == old(boogers) && rng.drawn == old(rng.drawn)
      ensures state == Playing ==>
                && rng.drawn == old(rng.drawn) + 2
                && boogers == old(boogers) + [Booger(rng.roll(old(rng.drawn)), playerX,
                                                     CanvasHeight - PlayerYOffset - 20.0, 0.0, -BoogerSpeed,
                                                     BoogerRadius, ColorBooger,
                                                     Angle(rng.roll(old(rng.drawn) + 1)))]
    {
      if state != Playing {
        return;
      }
      var id := rng.Next();
      var spin := rng.Next();
      boogers := boogers + [Booger(id, playerX, CanvasHeight - PlayerYOffset - 20.0, 0.0, -BoogerSpeed,
                                   BoogerRadius, ColorBooger, Angle(spin))];
    }

    method SpawnBug(rng: RandomSource)
      requires rng.Valid()
      modifies this`bugs, rng`drawn
      ensures rng.drawn == old(rng.drawn) + 5
      ensures bugs == old(bugs) + [Spawned(rng.roll, old(rng.drawn))]
    {
      var at := rng.drawn;
      var typeRoll := rng.Next();
      var kind := KindOf(typeRoll);
      var p := ProfileOf(kind);
      var yRoll := rng.Next();
      var y := Height(yRoll);
      var dirRoll := rng.Next();
      var direction := if dirRoll > 0.5 then 1.0 else -1.0;
      var x := if direction == 1.0 then -p.radius else CanvasWidth + p.radius;
      var id := rng.Next();
      var phase := rng.Next();
      bugs := bugs + [Bug(id, x, y, p.speed * direction, 0.0, p.radius, p.color, kind, p.points,
                          Angle(phase), p.wobbleSpeed)];
    }

    /** Appends the eight particles of an explosion, four draws each. */
    method CreateExplosion(x: real, y: real, color: string, rng: RandomSource)
      requires rng.Valid()
      modifies this`particles, rng`drawn
      ensures rng.drawn == old(rng.drawn) + 32
      ensures particles == old(particles) + Shards(x, y, color, rng.roll, old(rng.drawn), 8)
    {
      ghost var at := rng.drawn;
      ghost var start := particles;
      var i := 0;
      while i < 8
        invariant 0 <= i <= 8 && rng.Valid()
        invariant rng.drawn == at + 4 * i
        invariant particles == start + Shards(x, y, color, rng.roll, at, i)
      {
        var id := rng.Next();
        var vx := rng.Next();
        var vy := rng.Next();
        var size := rng.Next();
        var p := Particle(id, x, y, Spread(vx), Spread(vy), Size(size), color, 1.0, 1.0);
        assert p == Shard(x, y, color, rng.roll, at + 4 * i);
        ShardsGrow(x, y, color, rng.roll, at, i);
        Regroup(start, Shards(x, y, color, rng.roll, at, i), [p]);
        particles := particles + [p];
        i := i + 1;
      }
    }

    /** The forEach over the bugs, with its splice. */
    method MoveBugs(time: real, sin: real -> real)
      modifies this`bugs
      ensures bugs == Sweep(old(bugs), 0, time, sin)
    {
      var k := 0;
      while k < |bugs|
        invariant Sweep(bugs, k, time, sin) == Sweep(old(bugs), 0, time, sin)
        decreases |bugs| - k
      {
        var b := bugs[k];
        b := b.(x := b.x + b.dx);
        b := b.(y := b.y + Drift(b, time, sin));
        ghost var before := bugs;
        assert b == MoveBug(before[k], time, sin);
        bugs := bugs[k := b];
        if Gone(b) {
          SetThenRemove(before, k, b);
          bugs := bugs[..k] + bugs[k + 1..];
          assert bugs == Remove(before, k);
        }
        k := k + 1;
      }
    }

    /** The reverse search of the bugs for one the booger overlaps. */
    method FindHit(b: Booger) returns (hit: Option<nat>)
      ensures hit == LastHit(b, bugs, |bugs|)
    {
      var j := |bugs| - 1;
      while j >= 0
        invariant -1 <= j < |bugs|
        invariant LastHit(b, bugs, j + 1) == LastHit(b, bugs, |bugs|)
        decreases j
      {
        var bug := bugs[j];
        var dx, dy := b.x - bug.x, b.y - bug.y;
        var s := b.radius + bug.radius;
        if Closer(dx, dy, s) {
          return Some(j);
        }
        j := j - 1;
      }
      return None;
    }

    /** One iteration of the booger loop, on the booger at index i: it
        moves, and either flies off the top, hits the last bug it overlaps
        (reporting the new score) or stays. */
    method StepBooger(i: nat, rng: RandomSource, reports: seq<int>) returns (reported: seq<int>)
      requires rng.Valid() && i < |boogers|
      modifies this`bugs, this`boogers, this`particles, this`score, rng`drawn
      ensures Pass(bugs, boogers, particles, score, rng.drawn, reported)
              == ProcessBooger(Pass(old(bugs), old(boogers), old(particles), old(score), old(rng.drawn), reports),
                               i, rng.roll)
    {
      reported := reports;
      ghost var held := boogers;
      var b := boogers[i];
      b := b.(y := b.y + b.dy);
      boogers := boogers[i := b];
      if b.y < -20.0 {
        SetThenRemove(held, i, b);
        boogers := boogers[..i] + boogers[i + 1..];
        return;
      }
      var hit := FindHit(b);
      if hit.None? {
        return;
      }
      var j := hit.value;
      var bug := bugs[j];
      CreateExplosion(bug.x, bug.y, SplatColor(bug), rng);
      score := score + bug.points;
      reported := reported + [score];
      bugs := bugs[..j] + bugs[j + 1..];
      SetThenRemove(held, i, b);
      boogers := boogers[..i] + boogers[i + 1..];
    }

    /** The booger loop, last booger first. Returns the scores reported. */
    method MoveBoogers(rng: RandomSource) returns (reports: seq<int>)
      requires rng.Valid()
      modifies this`bugs, this`boogers, this`particles, this`score, rng`drawn
      ensures var p := BoogerPass(Pass(old(bugs), old(boogers), old(particles), old(score), old(rng.drawn), []),
                                  |old(boogers)| - 1, rng.roll);
              && bugs == p.bugs && boogers == p.boogers && particles == p.particles
              && score == p.score && rng.drawn == p.at && reports == p.reports
    {
      reports := [];
      ghost var start := Pass(bugs, boogers, particles, score, rng.drawn, []);
      var i := |boogers| - 1;
      while i >= 0
        invariant rng.Valid()
        invariant -1 <= i < |boogers|
        invariant BoogerPass(Pass(bugs, boogers, particles, score, rng.drawn, reports), i, rng.roll)
                  == BoogerPass(start, |start.boogers| - 1, rng.roll)
        decreases i
      {
        reports := StepBooger(i, rng, reports);
        i := i - 1;
      }
    }

    /** The particle loop, last particle first. */
    method FadeParticles()
      modifies this`particles
      ensures particles == FadeAll(old(particles))
    {
      ghost var orig := particles;
      var i := |particles| - 1;
      while i >= 0
        invariant -1 <= i < |orig|
        invariant particles == orig[..i + 1] + FadeAll(orig[i + 1..])
        decreases i
      {
        FadeStep(orig, i, particles);
        var p := particles[i];
        p := p.(x := p.x + p.dx, y := p.y + p.dy, life := p.life - 0.05);
        assert p == Fade(orig[i]);
        if p.life <= 0.0 {
          particles := particles[..i] + particles[i + 1..];
        } else {
          particles := particles[i := p];
        }
        i := i - 1;
      }
      assert orig[..0] == [] && orig[0..] == orig;
    }

    /** One call of the frame callback at timestamp `time`. Outside PLAYING
        it does nothing and asks for no further frame. */
    method Update(state: GameState, time: real, rng: RandomSource, sin: real -> real) returns (report: FrameReport)
      requires Valid() && rng.Valid()
      modifies this, rng`drawn
      ensures Valid()
      ensures state != Playing ==>
                report == FrameReport(None, [], false, false)
                && Snapshot() == old(Snapshot()) && rng.drawn == old(rng.drawn)
      ensures state == Playing ==>
                (Snapshot(), report, rng.drawn) == Frame(old(Snapshot()), time, rng.roll, old(rng.drawn), sin)
    {
      if state != Playing {
        return FrameReport(None, [], false, false);
      }
      var timeReport, over := Clock(time);
      if over {
        return FrameReport(timeReport, [], true, false);
      }
      MaybeSpawn(time, rng);
      var scores := Advance(time, rng, sin);
      report := FrameReport(timeReport, scores, false, true);
    }

    /** The timer: the gap since the last frame is taken off the time left
        unless it is a second or more; the round is over when nothing is
        left. Returns the time reported, if any, and whether it is over. */
    method Clock(time: real) returns (timeReport: Option<real>, over: bool)
      modifies this`lastTime, this`timeLeft
      ensures (Snapshot(), timeReport, over) == Clocked(old(Snapshot()), time)
    {
      var deltaTime := time - lastTime;
      lastTime := time;
      timeReport, over := None, false;
      if deltaTime < 1000.0 {
        timeLeft := timeLeft - deltaTime / 1000.0;
        if timeLeft <= 0.0 {
          timeLeft := 0.0;
          return Some(0.0), true;
        }
        timeReport := Some(timeLeft);
      }
    }

    /** Spawns a bug when more than SpawnRateMs have passed since the last
        spawn. */
    method MaybeSpawn(time: real, rng: RandomSource)
      requires Valid() && rng.Valid()
      modifies this`bugs, this`lastSpawnTime, rng`drawn
      ensures Valid()
      ensures (Snapshot(), rng.drawn) == Spawning(old(Snapshot()), time, rng.roll, old(rng.drawn))
    {
      if time - lastSpawnTime > SpawnRateMs {
        ScoringAppend(bugs, Spawned(rng.roll, rng.drawn));
        SpawnBug(rng);
        lastSpawnTime := time;
      }
    }

    /** The bug sweep, the booger loop and the particle loop of one frame.
        Returns the scores reported. */
    method Advance(time: real, rng: RandomSource, sin: real -> real) returns (scores: seq<int>)
      requires Valid() && rng.Valid()
      modifies this`bugs, this`boogers, this`particles, this`score, rng`drawn
      ensures Valid()
      ensures (Snapshot(), scores, rng.drawn) == Advanced(old(Snapshot()), time, rng.roll, old(rng.drawn), sin)
    {
      ghost var w, at := Snapshot(), rng.drawn;
      MoveBugs(time, sin);
      ghost var start := Pass(bugs, boogers, particles, score, at, []);
      assert start == Pass(Sweep(w.bugs, 0, time, sin), w.boogers, w.particles, w.score, at, []);
      scores := MoveBoogers(rng);
      ghost var p := BoogerPass(start, |w.boogers| - 1, rng.roll);
      assert Pass(bugs, boogers, particles, score, rng.drawn, scores) == p;
      FadeParticles();
      assert particles == FadeAll(p.particles);
      assert Valid() by {
        AdvancedScoring(w, time, rng.roll, at, sin);
      }
    }
  }
}
