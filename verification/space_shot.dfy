/**
  The Space Shot minigame: a ship follows the pointer near the bottom of a
  700 x 420 logical playfield, fires automatically, and meteors fall from the
  top. One animation frame is one `Tick`.

  The pure part (`Session`, `TickSpec` and its stages) says what a frame does;
  class `Game` holds the mutable state and its methods are proved to do exactly
  that. Positions, velocities and times are exact reals; times are in ms.
*/
module SpaceShot {
  import opened Wrappers

  // ---------------------------------------------------------------------------
  // Constants of the playfield and of the game

  const W: real := 700.0
  const H: real := 420.0
  const MinX: real := 20.0
  const MaxX: real := W - 20.0
  const MinY: real := H * 0.4
  const MaxY: real := H - 20.0
  const ShipRadius: real := 16.0
  /** Radius of a bullet in the collision test (it is drawn smaller). */
  const BulletRadius: real := 6.0
  const BulletSpeed: real := -320.0
  /** Distance above the ship at which a bullet appears. */
  const MuzzleOffset: real := 20.0
  const MeteorStartY: real := -20.0
  const MeteorEvery: real := 700.0
  const ShotEvery: real := 240.0
  /** A bullet survives culling while its y is above this bound. */
  const TopCull: real := -30.0
  /** A meteor survives culling while its y is below this bound. */
  const BottomCull: real := H + 30.0
  const PointsPerHit: nat := 10

  // ---------------------------------------------------------------------------
  // Entities

  datatype Ship = Ship(x: real, y: real, r: real)
  datatype Bullet = Bullet(x: real, y: real, vy: real)
  datatype Meteor = Meteor(x: real, y: real, r: real, vy: real)

  /** The on-screen rectangle of the canvas, in display pixels. */
  datatype Rect = Rect(left: real, top: real, width: real, height: real)

  /** The three values of `Math.random()` that one meteor consumes (for x, r and vy). */
  datatype Draw = Draw(ux: real, ur: real, uv: real)

  predicate IsRandom(u: real) { 0.0 <= u < 1.0 }

  predicate ValidDraw(d: Draw) { IsRandom(d.ux) && IsRandom(d.ur) && IsRandom(d.uv) }

  function Min(a: real, b: real): real { if a <= b then a else b }
  function Max(a: real, b: real): real { if a >= b then a else b }
  function MaxNat(a: nat, b: nat): nat { if a >= b then a else b }

  /** `rand(min, max)`: a uniform draw `u` from [0, 1) stretched onto [min, max). */
  function Rand(min: real, max: real, u: real): (r: real)
    requires IsRandom(u)
    ensures min < max ==> min <= r < max
    ensures min == max ==> r == min
  {
    var w := max - min;
    assert w > 0.0 ==> (1.0 - u) * w > 0.0 && u * w >= 0.0;
    assert w - u * w == (1.0 - u) * w;
    u * w + min
  }

  // ---------------------------------------------------------------------------
  // Pointer mapping

  /** `Math.max(lo, Math.min(hi, v))`. */
  function Clamp(v: real, lo: real, hi: real): (r: real)
    ensures lo <= r
    ensures lo <= hi ==> r <= hi
    ensures lo <= v <= hi ==> r == v
    ensures v < lo ==> r == lo
    ensures lo <= hi < v ==> r == hi
  {
    Max(lo, Min(hi, v))
  }

  /** A display coordinate, relative to the canvas origin, scaled to `size` logical units. */
  function ToLogical(client: real, origin: real, extent: real, size: real): (r: real)
    requires extent > 0.0
    ensures size >= 0.0 && origin <= client <= origin + extent ==> 0.0 <= r <= size
  {
    var frac := (client - origin) / extent;
    assert origin <= client <= origin + extent ==> 0.0 <= frac <= 1.0;
    assert size >= 0.0 && 0.0 <= frac <= 1.0 ==> frac * size <= size;
    frac * size
  }

  predicate ShipInField(ship: Ship) {
    ship.r == ShipRadius && MinX <= ship.x <= MaxX && MinY <= ship.y <= MaxY
  }

  /** `onMove`: the ship moves to the pointer, clamped to the lower part of the field. */
  function PointerToShip(ship: Ship, clientX: real, clientY: real, rect: Rect): (r: Ship)
    requires rect.width > 0.0 && rect.height > 0.0
    ensures MinX <= r.x <= MaxX && MinY <= r.y <= MaxY && r.r == ship.r
    ensures ship.r == ShipRadius ==> ShipInField(r)
    ensures var sx := ToLogical(clientX, rect.left, rect.width, W);
            (MinX <= sx <= MaxX ==> r.x == sx) && (sx < MinX ==> r.x == MinX) && (MaxX < sx ==> r.x == MaxX)
    ensures var sy := ToLogical(clientY, rect.top, rect.height, H);
            (MinY <= sy <= MaxY ==> r.y == sy) && (sy < MinY ==> r.y == MinY) && (MaxY < sy ==> r.y == MaxY)
  {
    var sx := ToLogical(clientX, rect.left, rect.width, W);
    var sy := ToLogical(clientY, rect.top, rect.height, H);
    ship.(x := Clamp(sx, MinX, MaxX), y := Clamp(sy, MinY, MaxY))
  }

  // ---------------------------------------------------------------------------
  // Spawning

  /** Shape of every meteor the spawner makes: x in [20, 680], r in [12, 26), vy in [60, 120). */
  predicate MeteorShape(m: Meteor) {
    MinX <= m.x <= MaxX && 12.0 <= m.r < 26.0 && 60.0 <= m.vy < 120.0
  }

  /** The meteor spawned from the draws `d`, just above the top edge. */
  function NewMeteor(d: Draw): (m: Meteor)
    requires ValidDraw(d)
    ensures MeteorShape(m) && m.y == MeteorStartY
    ensures m.x == MinX + d.ux * (MaxX - MinX)
  {
    Meteor(Rand(MinX, MaxX, d.ux), MeteorStartY, Rand(12.0, 26.0, d.ur), Rand(60.0, 120.0, d.uv))
  }

  /** The bullet fired from the ship. */
  function NewBullet(ship: Ship): (b: Bullet)
    ensures b.x == ship.x && b.y == ship.y - MuzzleOffset && b.vy == BulletSpeed
    ensures ShipInField(ship) ==> MinX <= b.x <= MaxX
  {
    Bullet(ship.x, ship.y - MuzzleOffset, BulletSpeed)
  }

  /** A cadence timer fires when strictly more than `every` ms have passed since it last fired. */
  predicate Due(t: real, lastFired: real, every: real) { t - lastFired > every }

  // ---------------------------------------------------------------------------
  // Motion and culling

  function MoveBullet(b: Bullet, dt: real): Bullet { b.(y := b.y + b.vy * dt) }
  function MoveMeteor(m: Meteor, dt: real): Meteor { m.(y := m.y + m.vy * dt) }

  /** Every bullet advanced by `dt` seconds; x and vy are untouched. */
  function MoveBullets(bs: seq<Bullet>, dt: real): (r: seq<Bullet>)
    ensures |r| == |bs|
    ensures forall k :: 0 <= k < |bs| ==>
      r[k].y == bs[k].y + bs[k].vy * dt && r[k].x == bs[k].x && r[k].vy == bs[k].vy
    ensures forall k :: 0 <= k < |bs| ==> r[k] == MoveBullet(bs[k], dt)
  {
    if bs == [] then [] else [MoveBullet(bs[0], dt)] + MoveBullets(bs[1..], dt)
  }

  /** Every meteor advanced by `dt` seconds; x, r and vy are untouched. */
  function MoveMeteors(ms: seq<Meteor>, dt: real): (r: seq<Meteor>)
    ensures |r| == |ms|
    ensures forall k :: 0 <= k < |ms| ==>
      r[k].y == ms[k].y + ms[k].vy * dt && r[k].x == ms[k].x && r[k].r == ms[k].r && r[k].vy == ms[k].vy
    ensures forall k :: 0 <= k < |ms| ==> r[k] == MoveMeteor(ms[k], dt)
  {
    if ms == [] then [] else [MoveMeteor(ms[0], dt)] + MoveMeteors(ms[1..], dt)
  }

  lemma MoveBulletsExt(bs: seq<Bullet>, r: seq<Bullet>, dt: real)
    requires |r| == |bs| && forall k :: 0 <= k < |bs| ==> r[k] == MoveBullet(bs[k], dt)
    ensures r == MoveBullets(bs, dt)
  {
  }

  lemma MoveMeteorsExt(ms: seq<Meteor>, r: seq<Meteor>, dt: real)
    requires |r| == |ms| && forall k :: 0 <= k < |ms| ==> r[k] == MoveMeteor(ms[k], dt)
    ensures r == MoveMeteors(ms, dt)
  {
  }

  function BulletOnScreen(b: Bullet): bool { b.y > TopCull }
  function MeteorOnScreen(m: Meteor): bool { m.y < BottomCull }

  /** `Array.prototype.filter`: the elements that satisfy `keep`, in their original order. */
  function Filter<T>(s: seq<T>, keep: T -> bool): (r: seq<T>)
    ensures |r| <= |s|
    ensures forall x :: x in r ==> x in s && keep(x)
    ensures forall x :: x in s && keep(x) ==> x in r
  {
    if s == [] then [] else (if keep(s[0]) then [s[0]] else []) + Filter(s[1..], keep)
  }

  /** Filtering a concatenation filters each part and keeps them in order. */
  lemma {:induction false} FilterConcat<T>(a: seq<T>, b: seq<T>, keep: T -> bool)
    ensures Filter(a + b, keep) == Filter(a, keep) + Filter(b, keep)
  {
    if a == [] {
      assert a + b == b;
    } else {
      assert (a + b)[0] == a[0];
      assert (a + b)[1..] == a[1..] + b;
      FilterConcat(a[1..], b, keep);
    }
  }

  /** Nothing that satisfies `keep` is dropped: when everything does, the sequence is unchanged. */
  lemma {:induction false} FilterKeepsAll<T>(s: seq<T>, keep: T -> bool)
    requires forall k :: 0 <= k < |s| ==> keep(s[k])
    ensures Filter(s, keep) == s
  {
    if s != [] {
      FilterKeepsAll(s[1..], keep);
    }
  }

  /** Splice out element `i`. */
  function RemoveAt<T>(s: seq<T>, i: nat): (r: seq<T>)
    requires i < |s|
    ensures |r| == |s| - 1
    ensures multiset(r) + multiset{s[i]} == multiset(s)
    ensures forall k :: 0 <= k < i ==> r[k] == s[k]
    ensures forall k :: i <= k < |r| ==> r[k] == s[k + 1]
    ensures forall x :: x in r ==> x in s
  {
    assert s == s[..i] + [s[i]] + s[i + 1..];
    s[..i] + s[i + 1..]
  }

  // ---------------------------------------------------------------------------
  // Collisions

  /** Squared-distance overlap of a meteor and a bullet. */
  predicate BulletHits(m: Meteor, b: Bullet) {
    var dx := m.x - b.x;
    var dy := m.y - b.y;
    dx * dx + dy * dy < (m.r + BulletRadius) * (m.r + BulletRadius)
  }

  /** Squared-distance overlap of a meteor and the ship. */
  predicate StrikesShip(m: Meteor, ship: Ship) {
    var dx := m.x - ship.x;
    var dy := m.y - ship.y;
    dx * dx + dy * dy < (m.r + ship.r) * (m.r + ship.r)
  }

  predicate AnyStrike(ms: seq<Meteor>, ship: Ship) {
    exists k :: 0 <= k < |ms| && StrikesShip(ms[k], ship)
  }

  datatype Hit = Hit(meteor: nat, bullet: nat)

  /** The highest-index bullet that overlaps `m`, if any. */
  function LastBulletHit(m: Meteor, bs: seq<Bullet>): (r: Option<nat>)
    ensures r.None? <==> forall j :: 0 <= j < |bs| ==> !BulletHits(m, bs[j])
    ensures r.Some? ==>
      r.value < |bs| && BulletHits(m, bs[r.value]) &&
      forall j :: r.value < j < |bs| ==> !BulletHits(m, bs[j])
  {
    if bs == [] then None
    else if BulletHits(m, bs[|bs| - 1]) then Some(|bs| - 1)
    else LastBulletHit(m, bs[..|bs| - 1])
  }

  /**
    The pair the collision pass resolves: the highest-index meteor that overlaps
    any bullet, with the highest-index bullet overlapping it.
  */
  function FirstHit(ms: seq<Meteor>, bs: seq<Bullet>): (r: Option<Hit>)
    ensures r.None? <==> forall i, j :: 0 <= i < |ms| && 0 <= j < |bs| ==> !BulletHits(ms[i], bs[j])
    ensures r.Some? ==>
      r.value.meteor < |ms| && r.value.bullet < |bs| &&
      BulletHits(ms[r.value.meteor], bs[r.value.bullet]) &&
      (forall i, j :: r.value.meteor < i < |ms| && 0 <= j < |bs| ==> !BulletHits(ms[i], bs[j])) &&
      (forall j :: r.value.bullet < j < |bs| ==> !BulletHits(ms[r.value.meteor], bs[j]))
  {
    if ms == [] then None
    else match LastBulletHit(ms[|ms| - 1], bs)
      case Some(j) => Some(Hit(|ms| - 1, j))
      case None => FirstHit(ms[..|ms| - 1], bs)
  }

  /**
    The collision scan as the frame runs it: meteors from the last down, and for
    each the bullets from the last down; the first overlap ends both loops.
  */
  method FindHit(ms: seq<Meteor>, bs: seq<Bullet>) returns (hit: Option<Hit>)
    ensures hit == FirstHit(ms, bs)
  {
    hit := None;
    var i := |ms|;
    label outer: while i > 0
      invariant 0 <= i <= |ms| && hit == None
      invariant forall i', j :: i <= i' < |ms| && 0 <= j < |bs| ==> !BulletHits(ms[i'], bs[j])
    {
      i := i - 1;
      var j := |bs|;
      while j > 0
        invariant 0 <= j <= |bs| && hit == None
        invariant forall j' :: j <= j' < |bs| ==> !BulletHits(ms[i], bs[j'])
      {
        j := j - 1;
        if BulletHits(ms[i], bs[j]) {
          hit := Some(Hit(i, j));
          break outer;
        }
      }
    }
    FirstHitUnique(ms, bs, hit);
  }

  /** The properties in `FirstHit`'s contract determine its result. */
  lemma FirstHitUnique(ms: seq<Meteor>, bs: seq<Bullet>, hit: Option<Hit>)
    requires hit.None? ==> forall i, j :: 0 <= i < |ms| && 0 <= j < |bs| ==> !BulletHits(ms[i], bs[j])
    requires hit.Some? ==>
      hit.value.meteor < |ms| && hit.value.bullet < |bs| &&
      BulletHits(ms[hit.value.meteor], bs[hit.value.bullet]) &&
      (forall i, j :: hit.value.meteor < i < |ms| && 0 <= j < |bs| ==> !BulletHits(ms[i], bs[j])) &&
      (forall j :: hit.value.bullet < j < |bs| ==> !BulletHits(ms[hit.value.meteor], bs[j]))
    ensures hit == FirstHit(ms, bs)
  {
  }

  /** The ship-hit scan: meteors from the first up, stopping at the first that touches the ship. */
  method ShipStruck(ms: seq<Meteor>, ship: Ship) returns (struck: bool)
    ensures struck <==> AnyStrike(ms, ship)
  {
    var i := 0;
    while i < |ms|
      invariant 0 <= i <= |ms|
      invariant forall k :: 0 <= k < i ==> !StrikesShip(ms[k], ship)
    {
      if StrikesShip(ms[i], ship) {
        return true;
      }
      i := i + 1;
    }
    return false;
  }

  // ---------------------------------------------------------------------------
  // The session and one frame, as values

  datatype Session = Session(
    ship: Ship,
    bullets: seq<Bullet>,
    meteors: seq<Meteor>,
    lastSpawn: real,
    lastShot: real,
    last: real,
    score: nat,
    high: nat,
    running: bool)

  /** State on mount: ship at (W/2, H-60), nothing in flight, best score as stored. */
  function Initial(storedHigh: nat): Session {
    Session(Ship(W / 2.0, H - 60.0, ShipRadius), [], [], 0.0, 0.0, 0.0, 0, storedHigh, false)
  }

  /** What every reachable session satisfies between frames. */
  predicate Inv(s: Session) {
    WellFormed(s) && OnScreen(s)
  }

  /** The part of the invariant that motion does not disturb. */
  predicate WellFormed(s: Session) {
    && ShipInField(s.ship)
    && (forall b :: b in s.bullets ==> b.vy == BulletSpeed && MinX <= b.x <= MaxX)
    && (forall m :: m in s.meteors ==> MeteorShape(m))
    && s.score % PointsPerHit == 0
    && (!s.running ==> s.score <= s.high)
  }

  /** Every entity lies inside its cull bound. */
  predicate OnScreen(s: Session) {
    && (forall b :: b in s.bullets ==> BulletOnScreen(b))
    && (forall m :: m in s.meteors ==> MeteorOnScreen(m))
  }

  /** `start`: a fresh run that keeps only the ship and the best score. */
  function StartSpec(s: Session): (r: Session)
    ensures r.running && r.score == 0 && r.bullets == [] && r.meteors == []
    ensures r.ship == s.ship && r.high == s.high
    ensures WellFormed(s) ==> Inv(r)
  {
    s.(score := 0, bullets := [], meteors := [], lastSpawn := 0.0, lastShot := 0.0, running := true, last := 0.0)
  }

  /** `endGame`: the run stops and the best score becomes a high-water mark. */
  function EndGameSpec(s: Session): (r: Session)
    ensures !r.running && r.score == s.score
    ensures r.high >= s.high && r.high >= s.score
    ensures WellFormed(s) ==> WellFormed(r)
    ensures Inv(s) ==> Inv(r)
  {
    s.(running := false, high := MaxNat(s.high, s.score))
  }

  /** `onMove`: only the ship moves. */
  function PointerSpec(s: Session, clientX: real, clientY: real, rect: Rect): (r: Session)
    requires rect.width > 0.0 && rect.height > 0.0
    ensures r == s.(ship := r.ship) && r.ship.r == s.ship.r
    ensures Inv(s) ==> Inv(r)
  {
    s.(ship := PointerToShip(s.ship, clientX, clientY, rect))
  }

  /** At most one meteor per frame, appended when its timer is due. */
  function SpawnStep(s: Session, t: real, d: Draw): (r: Session)
    requires ValidDraw(d)
    ensures Due(t, s.lastSpawn, MeteorEvery) ==>
      r == s.(lastSpawn := t, meteors := s.meteors + [NewMeteor(d)])
    ensures !Due(t, s.lastSpawn, MeteorEvery) ==> r == s
  {
    if Due(t, s.lastSpawn, MeteorEvery) then s.(lastSpawn := t, meteors := s.meteors + [NewMeteor(d)]) else s
  }

  /** At most one bullet per frame, appended at the ship when its timer is due. */
  function ShootStep(s: Session, t: real): (r: Session)
    ensures Due(t, s.lastShot, ShotEvery) ==>
      r == s.(lastShot := t, bullets := s.bullets + [NewBullet(s.ship)])
    ensures !Due(t, s.lastShot, ShotEvery) ==> r == s
  {
    if Due(t, s.lastShot, ShotEvery) then s.(lastShot := t, bullets := s.bullets + [NewBullet(s.ship)]) else s
  }

  /** The two `forEach` passes: only the bullets and meteors change, each list keeping its length. */
  function AdvanceStep(s: Session, dt: real): (r: Session)
    ensures r == s.(bullets := r.bullets, meteors := r.meteors)
    ensures |r.bullets| == |s.bullets| && |r.meteors| == |s.meteors|
  {
    s.(bullets := MoveBullets(s.bullets, dt), meteors := MoveMeteors(s.meteors, dt))
  }

  /** The two `filter` calls: only the bullets and meteors change, and everything left is
      inside its cull bound. */
  function CullStep(s: Session): (r: Session)
    ensures r == s.(bullets := r.bullets, meteors := r.meteors)
    ensures |r.bullets| <= |s.bullets| && |r.meteors| <= |s.meteors|
    ensures OnScreen(r)
  {
    s.(bullets := Filter(s.bullets, BulletOnScreen), meteors := Filter(s.meteors, MeteorOnScreen))
  }

  /** The bullet-meteor pass: either nothing changes, or one meteor and one bullet go and
      the score rises by 10; the ship, timers, best score and run flag are kept. */
  function CollideStep(s: Session): (r: Session)
    ensures r == s.(meteors := r.meteors, bullets := r.bullets, score := r.score)
    ensures r == s || (r.score == s.score + PointsPerHit &&
                       |r.meteors| + 1 == |s.meteors| && |r.bullets| + 1 == |s.bullets|)
  {
    match FirstHit(s.meteors, s.bullets)
    case None => s
    case Some(h) =>
      s.(meteors := RemoveAt(s.meteors, h.meteor),
         bullets := RemoveAt(s.bullets, h.bullet),
         score := s.score + PointsPerHit)
  }

  /** The ship-hit check: the run ends exactly when some meteor overlaps the ship. */
  function StrikeStep(s: Session): (r: Session)
    ensures r.running == (s.running && !AnyStrike(s.meteors, s.ship))
    ensures r.score == s.score && r.high >= s.high
    ensures r.ship == s.ship && r.bullets == s.bullets && r.meteors == s.meteors
  {
    if AnyStrike(s.meteors, s.ship) then EndGameSpec(s) else s
  }

  /** Elapsed seconds since the previous frame. */
  function Dt(t: real, last: real): (dt: real)
    ensures dt * 1000.0 == t - last
  {
    (t - last) / 1000.0
  }

  /** Everything a running frame does before the ship-hit check. */
  function Simulate(s: Session, t: real, d: Draw): (r: Session)
    requires ValidDraw(d)
    ensures r.last == t && r.ship == s.ship && r.high == s.high && r.running == s.running
    ensures r.score == s.score || r.score == s.score + PointsPerHit
  {
    var s1 := SpawnStep(s.(last := t), t, d);
    var s2 := ShootStep(s1, t);
    CollideStep(CullStep(AdvanceStep(s2, Dt(t, s.last))))
  }

  /** One animation frame at timestamp `t`; a frame after the run stopped does nothing. */
  function TickSpec(s: Session, t: real, d: Draw): (r: Session)
    requires ValidDraw(d)
    ensures r.ship == s.ship && r.high >= s.high
    ensures !s.running ==> r == s
    ensures s.running ==> r.last == t
  {
    if !s.running then s else StrikeStep(Simulate(s, t, d))
  }

  // ---------------------------------------------------------------------------
  // Properties of a frame

  /** After culling every bullet is below the top bound and every meteor above the bottom
      bound; entities inside the bounds all survive, in their original order. */
  lemma CullBounds(s: Session)
    ensures forall b :: b in CullStep(s).bullets ==> b.y > TopCull
    ensures forall m :: m in CullStep(s).meteors ==> m.y < BottomCull
    ensures forall b :: b in s.bullets && b.y > TopCull ==> b in CullStep(s).bullets
    ensures forall m :: m in s.meteors && m.y < BottomCull ==> m in CullStep(s).meteors
    ensures (forall k :: 0 <= k < |s.bullets| ==> s.bullets[k].y > TopCull) ==> CullStep(s).bullets == s.bullets
    ensures (forall k :: 0 <= k < |s.meteors| ==> s.meteors[k].y < BottomCull) ==> CullStep(s).meteors == s.meteors
  {
    if forall k :: 0 <= k < |s.bullets| ==> s.bullets[k].y > TopCull {
      FilterKeepsAll(s.bullets, BulletOnScreen);
    }
    if forall k :: 0 <= k < |s.meteors| ==> s.meteors[k].y < BottomCull {
      FilterKeepsAll(s.meteors, MeteorOnScreen);
    }
  }

  /** The collision pass resolves at most one pair: with an overlap it removes exactly one
      meteor and one bullet and adds 10 points; without one it changes nothing. */
  lemma CollideResolvesOnePair(s: Session)
    ensures FirstHit(s.meteors, s.bullets).None? ==> CollideStep(s) == s
    ensures FirstHit(s.meteors, s.bullets).Some? ==>
      var h := FirstHit(s.meteors, s.bullets).value;
      var r := CollideStep(s);
      && |r.meteors| == |s.meteors| - 1
      && |r.bullets| == |s.bullets| - 1
      && multiset(r.meteors) + multiset{s.meteors[h.meteor]} == multiset(s.meteors)
      && multiset(r.bullets) + multiset{s.bullets[h.bullet]} == multiset(s.bullets)
      && r.score == s.score + PointsPerHit
      && r.ship == s.ship && r.running == s.running && r.high == s.high
  {
  }

  /** The two timers and the frame clock after a running frame. */
  lemma TickTimers(s: Session, t: real, d: Draw)
    requires ValidDraw(d) && s.running
    ensures TickSpec(s, t, d).last == t
    ensures TickSpec(s, t, d).lastSpawn == if t - s.lastSpawn > MeteorEvery then t else s.lastSpawn
    ensures TickSpec(s, t, d).lastShot == if t - s.lastShot > ShotEvery then t else s.lastShot
  {
  }

  /** A running frame ends the run exactly when, after the collision pass, a meteor
      overlaps the ship; the best score then becomes max(high, score). The score rises
      by 10 or not at all. */
  lemma TickEndsOnStrike(s: Session, t: real, d: Draw)
    requires ValidDraw(d) && s.running
    ensures var m := Simulate(s, t, d);
      && (TickSpec(s, t, d).running <==> !AnyStrike(m.meteors, m.ship))
      && (!TickSpec(s, t, d).running ==> TickSpec(s, t, d).high == MaxNat(s.high, m.score))
      && (TickSpec(s, t, d).score == s.score || TickSpec(s, t, d).score == s.score + PointsPerHit)
  {
  }

  /** A frame in which the run has stopped leaves the session as it was. */
  lemma TickWhenStopped(s: Session, t: real, d: Draw)
    requires ValidDraw(d) && !s.running
    ensures TickSpec(s, t, d) == s
  {
  }

  lemma {:induction false} MovedBulletsStayInColumn(bs: seq<Bullet>, dt: real)
    requires forall b :: b in bs ==> b.vy == BulletSpeed && MinX <= b.x <= MaxX
    ensures forall b :: b in MoveBullets(bs, dt) ==> b.vy == BulletSpeed && MinX <= b.x <= MaxX
  {
  }

  lemma {:induction false} MovedMeteorsKeepShape(ms: seq<Meteor>, dt: real)
    requires forall m :: m in ms ==> MeteorShape(m)
    ensures forall m :: m in MoveMeteors(ms, dt) ==> MeteorShape(m)
  {
    var r := MoveMeteors(ms, dt);
    forall m | m in r ensures MeteorShape(m) {
      var k :| 0 <= k < |r| && r[k] == m;
      assert ms[k] in ms;
    }
  }

  lemma SpawnShootKeepWellFormed(s: Session, t: real, d: Draw)
    requires ValidDraw(d) && Inv(s)
    ensures Inv(ShootStep(SpawnStep(s, t, d), t))
  {
  }

  lemma AdvanceKeepsWellFormed(s: Session, dt: real)
    requires WellFormed(s)
    ensures WellFormed(AdvanceStep(s, dt))
  {
    MovedBulletsStayInColumn(s.bullets, dt);
    MovedMeteorsKeepShape(s.meteors, dt);
  }

  lemma CullRestoresInv(s: Session)
    requires WellFormed(s)
    ensures Inv(CullStep(s))
  {
  }

  lemma CollideKeepsInv(s: Session)
    requires Inv(s) && s.running
    ensures Inv(CollideStep(s)) && CollideStep(s).running
  {
  }

  /** Every frame keeps the session invariant: the ship in its box, well-formed entities
      inside the cull bounds, the score a multiple of 10, and a stopped run's score
      recorded in the best score. */
  lemma TickKeepsInv(s: Session, t: real, d: Draw)
    requires ValidDraw(d) && Inv(s)
    ensures Inv(TickSpec(s, t, d))
  {
    if s.running {
      var s0 := s.(last := t);
      var s2 := ShootStep(SpawnStep(s0, t, d), t);
      SpawnShootKeepWellFormed(s0, t, d);
      var s3 := AdvanceStep(s2, Dt(t, s.last));
      AdvanceKeepsWellFormed(s2, Dt(t, s.last));
      var s4 := CullStep(s3);
      CullRestoresInv(s3);
      var s5 := CollideStep(s4);
      CollideKeepsInv(s4);
      assert s5 == Simulate(s, t, d);
    }
  }

  /** `start` forgets the previous run: two sessions with the same ship and best score
      start identically, with score 0 and nothing in flight. */
  lemma StartForgetsRun(s: Session, s': Session)
    requires s.ship == s'.ship && s.high == s'.high
    ensures StartSpec(s) == StartSpec(s')
    ensures StartSpec(s).score == 0 && StartSpec(s).bullets == [] && StartSpec(s).meteors == []
    ensures StartSpec(s).lastSpawn == 0.0 && StartSpec(s).lastShot == 0.0 && StartSpec(s).running
  {
  }

  /** `endGame` records a high-water mark: the new best is the larger of the old best and
      the score, so it never decreases and is never below the run's score. */
  lemma EndGameHighWater(s: Session)
    ensures EndGameSpec(s).high >= s.high && EndGameSpec(s).high >= s.score
    ensures EndGameSpec(s).high == s.high || EndGameSpec(s).high == s.score
    ensures !EndGameSpec(s).running
  {
  }

  // ---------------------------------------------------------------------------
  // Any sequence of user actions and frames

  datatype Action = Begin | Pointer(clientX: real, clientY: real, rect: Rect) | Frame(t: real, draw: Draw) | Stop

  predicate ActionOk(a: Action) {
    match a
    case Pointer(_, _, rect) => rect.width > 0.0 && rect.height > 0.0
    case Frame(_, d) => ValidDraw(d)
    case _ => true
  }

  /** One action: a press of Start, a pointer move, a frame or the end of a run. */
  function Apply(s: Session, a: Action): (r: Session)
    requires ActionOk(a)
    ensures r.high >= s.high
    ensures a.Begin? ==> r.running && r.score == 0
    ensures a.Stop? ==> !r.running
    ensures a.Pointer? ==> r.bullets == s.bullets && r.meteors == s.meteors && r.score == s.score
  {
    match a
    case Begin => StartSpec(s)
    case Pointer(cx, cy, rect) => PointerSpec(s, cx, cy, rect)
    case Frame(t, d) => TickSpec(s, t, d)
    case Stop => EndGameSpec(s)
  }

  /** The session after a sequence of actions; the best score never goes down. */
  function Replay(s: Session, actions: seq<Action>): (r: Session)
    requires forall k :: 0 <= k < |actions| ==> ActionOk(actions[k])
    ensures r.high >= s.high
    decreases |actions|
  {
    if actions == [] then s else Replay(Apply(s, actions[0]), actions[1..])
  }

  /** Over any sequence of starts, pointer moves, frames and stops the invariant holds and
      the best score never decreases. */
  lemma {:induction false} ReplayKeepsInvAndBest(s: Session, actions: seq<Action>)
    requires Inv(s)
    requires forall k :: 0 <= k < |actions| ==> ActionOk(actions[k])
    ensures Inv(Replay(s, actions))
    ensures Replay(s, actions).high >= s.high
    decreases |actions|
  {
    if actions != [] {
      var a := actions[0];
      if a.Frame? {
        TickKeepsInv(s, a.t, a.draw);
        if s.running { TickEndsOnStrike(s, a.t, a.draw); }
      }
      ReplayKeepsInvAndBest(Apply(s, a), actions[1..]);
    }
  }

  // ---------------------------------------------------------------------------
  // Worked cases

  /** A meteor of radius 20 at (103, 104) and a bullet at (100, 100) collide: both go and
      the score rises from 0 to 10. */
  lemma BulletMeteorScenario(s: Session)
    requires s.meteors == [Meteor(103.0, 104.0, 20.0, 100.0)]
    requires s.bullets == [Bullet(100.0, 100.0, BulletSpeed)]
    requires s.score == 0
    ensures CollideStep(s).meteors == [] && CollideStep(s).bullets == [] && CollideStep(s).score == 10
  {
  }

  /** A meteor of radius 20 at (355, 365) ends a run whose ship is at (350, 360). */
  lemma ShipStrikeScenario(s: Session)
    requires s.ship == Ship(350.0, 360.0, ShipRadius) && s.running
    requires s.meteors == [Meteor(355.0, 365.0, 20.0, 100.0)]
    ensures !StrikeStep(s).running
  {
    assert StrikesShip(s.meteors[0], s.ship);
  }

  // ---------------------------------------------------------------------------
  // The component's mutable state

  class Game {
    var ship: Ship
    var bullets: seq<Bullet>
    var meteors: seq<Meteor>
    var lastSpawn: real
    var lastShot: real
    var last: real
    var score: nat
    var high: nat
    var running: bool

    function State(): Session
      reads this
    {
      Session(ship, bullets, meteors, lastSpawn, lastShot, last, score, high, running)
    }

    ghost predicate Valid()
      reads this
    {
      Inv(State())
    }

    /** Mount with the best score read from storage. */
    constructor (storedHigh: nat)
      ensures State() == Initial(storedHigh) && Valid()
    {
      ship := Ship(W / 2.0, H - 60.0, ShipRadius);
      bullets, meteors := [], [];
      lastSpawn, lastShot, last := 0.0, 0.0, 0.0;
      score, high, running := 0, storedHigh, false;
    }

    /** `onMove`: only the ship moves, and it stays inside its box. */
    method OnMove(clientX: real, clientY: real, rect: Rect)
      requires rect.width > 0.0 && rect.height > 0.0
      requires Valid()
      modifies this`ship
      ensures State() == PointerSpec(old(State()), clientX, clientY, rect)
      ensures Valid()
    {
      var sx := ToLogical(clientX, rect.left, rect.width, W);
      var sy := ToLogical(clientY, rect.top, rect.height, H);
      ship := ship.(x := Max(MinX, Min(MaxX, sx)), y := Max(MinY, Min(MaxY, sy)));
    }

    /** `start`: a fresh run; the ship and the best score carry over. */
    method Start()
      requires Valid()
      modifies this
      ensures State() == StartSpec(old(State()))
      ensures score == 0 && bullets == [] && meteors == [] && lastSpawn == 0.0 && lastShot == 0.0
      ensures running && high == old(high) && ship == old(ship)
      ensures Valid()
    {
      score := 0;
      bullets := [];
      meteors := [];
      lastSpawn := 0.0;
      lastShot := 0.0;
      running := true;
      last := 0.0;
    }

    /** `endGame`: stop the run and keep the best score as a high-water mark. */
    method EndGame()
      modifies this`running, this`high
      ensures State() == EndGameSpec(old(State()))
      ensures !running && high == MaxNat(old(high), score) && high >= old(high)
      ensures old(Valid()) ==> Valid()
    {
      running := false;
      high := if high >= score then high else score;
    }

    /** Spawn a meteor from the draws `d` when the meteor timer is due.
        This is one stage of `loop`, not an event handler: on its own it need not keep
        `Valid()`, and only the whole of `Tick` does. */
    method SpawnMeteor(t: real, d: Draw)
      requires ValidDraw(d)
      modifies this`lastSpawn, this`meteors
      ensures State() == SpawnStep(old(State()), t, d)
    {
      if t - lastSpawn > MeteorEvery {
        lastSpawn := t;
        meteors := meteors + [NewMeteor(d)];
      }
    }

    /** Fire a bullet from the ship when the shot timer is due.
        This is one stage of `loop`, not an event handler: on its own it need not keep
        `Valid()`, and only the whole of `Tick` does. */
    method AutoShoot(t: real)
      modifies this`lastShot, this`bullets
      ensures State() == ShootStep(old(State()), t)
    {
      if t - lastShot > ShotEvery {
        lastShot := t;
        bullets := bullets + [Bullet(ship.x, ship.y - MuzzleOffset, BulletSpeed)];
      }
    }

    /** The two `forEach` passes: every bullet and every meteor moves by vy * dt.
        This is one stage of `loop`, not an event handler: on its own it need not keep
        `Valid()`, and only the whole of `Tick` does. */
    method Advance(dt: real)
      modifies this`bullets, this`meteors
      ensures State() == AdvanceStep(old(State()), dt)
    {
      var k := 0;
      while k < |bullets|
        invariant 0 <= k <= |bullets| == |old(bullets)|
        invariant meteors == old(meteors)
        invariant forall i :: 0 <= i < k ==> bullets[i] == MoveBullet(old(bullets)[i], dt)
        invariant forall i :: k <= i < |bullets| ==> bullets[i] == old(bullets)[i]
      {
        bullets := bullets[k := bullets[k].(y := bullets[k].y + bullets[k].vy * dt)];
        k := k + 1;
      }
      MoveBulletsExt(old(bullets), bullets, dt);
      k := 0;
      while k < |meteors|
        invariant 0 <= k <= |meteors| == |old(meteors)|
        invariant bullets == MoveBullets(old(bullets), dt)
        invariant forall i :: 0 <= i < k ==> meteors[i] == MoveMeteor(old(meteors)[i], dt)
        invariant forall i :: k <= i < |meteors| ==> meteors[i] == old(meteors)[i]
      {
        meteors := meteors[k := meteors[k].(y := meteors[k].y + meteors[k].vy * dt)];
        k := k + 1;
      }
      MoveMeteorsExt(old(meteors), meteors, dt);
    }

    /** The two `filter` calls: drop bullets above the top and meteors below the bottom.
        This is one stage of `loop`, not an event handler: on its own it need not keep
        `Valid()`, and only the whole of `Tick` does. */
    method Cull()
      modifies this`bullets, this`meteors
      ensures State() == CullStep(old(State()))
    {
      bullets := Filter(bullets, BulletOnScreen);
      meteors := Filter(meteors, MeteorOnScreen);
    }

    /** The bullet-meteor pass: resolve the first overlapping pair found, if any.
        This is one stage of `loop`, not an event handler: on its own it need not keep
        `Valid()`, and only the whole of `Tick` does. */
    method Collide()
      modifies this`bullets, this`meteors, this`score
      ensures State() == CollideStep(old(State()))
    {
      var hit := FindHit(meteors, bullets);
      if hit.Some? {
        meteors := RemoveAt(meteors, hit.value.meteor);
        bullets := RemoveAt(bullets, hit.value.bullet);
        score := score + PointsPerHit;
      }
    }

    /** One animation frame at timestamp `t` (ms), with the random draws for a new meteor. */
    method Tick(t: real, d: Draw)
      requires ValidDraw(d) && Valid()
      modifies this
      ensures State() == TickSpec(old(State()), t, d)
      ensures Valid()
    {
      ghost var s0 := State();
      TickKeepsInv(s0, t, d);
      if !running {
        return;
      }
      var dt := (t - last) / 1000.0;
      last := t;
      SpawnMeteor(t, d);
      AutoShoot(t);
      ghost var s2 := State();
      assert s2 == ShootStep(SpawnStep(s0.(last := t), t, d), t);
      assert dt == Dt(t, s0.last);
      Advance(dt);
      ghost var s3 := State();
      assert s3 == AdvanceStep(s2, dt);
      Cull();
      assert State() == CullStep(s3);
      Collide();
      assert State() == Simulate(s0, t, d);
      var struck := ShipStruck(meteors, ship);
      if struck {
        EndGame();
        return;
      }
    }
  }
}
