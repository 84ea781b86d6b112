/**
 * The landing resolver that both jump-and-run scenes share
 * (`checkCollisions`, `physicsStep`, `respawn` and the jump rule are the same
 * text in games/game-6/main.js and in 3d/games/game-6/main.js). The player is
 * a 1 x 2 x 1 box whose position is its centre, so its bottom is `pos.y - 1`.
 */
module Landing {
  import opened Options
  import opened Geometry

  const HALF_HEIGHT: real := 1.0   // PLAYER_SIZE.y / 2
  const HALF_WIDTH: real := 0.5    // PLAYER_SIZE.x / 2 == PLAYER_SIZE.z / 2
  const EPS: real := 0.25          // tolerance of the crossing and near-top tests
  const SLACK: real := 0.05        // containment slack around a footprint
  const JUMP_SPEED: real := 12.0
  const GRAV: real := -30.0
  const MAX_FALL: real := -40.0
  const MAX_SUBSTEPS: int := 10
  const SUBSTEP_TRAVEL: real := 0.3
  const SUBSTEP_TIME: real := 0.012

  /**
   * `player.ground`: the supporting platform (None for the virtual floor,
   * where the source stores `plat: null`) and the top height landed on. The
   * platform is kept by value: the source keeps a reference to the object,
   * which outlives a rebuild of the course.
   */
  datatype Contact = Contact(plat: Option<Platform>, yTop: real)

  /**
   * What one resolution did. `Crashed` is the sticky-ground branch reading
   * `player.ground.plat.mesh` while `plat` is null: the source throws a
   * TypeError there, before changing anything.
   */
  datatype Resolution = Landed(index: nat) | Stuck | Floored | Airborne | Crashed

  /** The swept crossing test of one platform top. */
  predicate Crossed(top: real, prevBottom: real, bottom: real)
  {
    prevBottom - bottom > 0.000001 && prevBottom >= top - EPS && bottom <= top + EPS
  }

  /** The gentle near-top settle test. */
  predicate NearTop(top: real, prevBottom: real, bottom: real, vy: real)
  {
    bottom <= top + EPS && bottom >= top - 0.35 && vy <= 8.0 && prevBottom > top - 0.25
  }

  /** The clamped fraction `t` of the vertical travel at which the top was crossed. */
  function CrossFraction(top: real, prevBottom: real, bottom: real): (t: real)
    requires Crossed(top, prevBottom, bottom)
    ensures 0.0 <= t <= 1.0
  {
    Min(1.0, Max(0.0, (prevBottom - top) / (prevBottom - bottom)))
  }

  /** `prev + (cur - prev) * t` for one coordinate. */
  function Lerp(prev: real, cur: real, t: real): (r: real)
    requires 0.0 <= t <= 1.0
    ensures r == prev + (cur - prev) * t
    ensures Min(prev, cur) <= r <= Max(prev, cur)
  {
    var d, u := cur - prev, 1.0 - t;
    assert d * u == d - d * t;
    if d >= 0.0 then
      assert d * t >= 0.0 && d * u >= 0.0;
      prev + d * t
    else
      var e := -d;
      assert e * t >= 0.0 && e * u >= 0.0;
      prev + d * t
  }

  /**
   * The horizontal point checked against a platform's footprint: the current
   * position for a near-top settle, the interpolated crossing point for a
   * crossing, and the current position otherwise. It always lies between the
   * previous and the current position.
   */
  function Probe(p: Platform, prev: Vec3, pos: Vec3, vy: real): (c: (real, real))
    ensures Min(prev.x, pos.x) <= c.0 <= Max(prev.x, pos.x)
    ensures Min(prev.z, pos.z) <= c.1 <= Max(prev.z, pos.z)
    ensures NearTop(p.y, prev.y - HALF_HEIGHT, pos.y - HALF_HEIGHT, vy) ==> c == (pos.x, pos.z)
  {
    var bottom := pos.y - HALF_HEIGHT;
    var prevBottom := prev.y - HALF_HEIGHT;
    if NearTop(p.y, prevBottom, bottom, vy) then (pos.x, pos.z)
    else if Crossed(p.y, prevBottom, bottom) then
      var t := CrossFraction(p.y, prevBottom, bottom);
      (Lerp(prev.x, pos.x, t), Lerp(prev.z, pos.z, t))
    else (pos.x, pos.z)
  }

  /** The point (cx, cz) lies within the footprint of `p` widened by the player's half size and the slack. */
  predicate Within(cx: real, cz: real, p: Platform)
  {
    Abs(cx - p.x) <= HALF_WIDTH + p.w / 2.0 + SLACK && Abs(cz - p.z) <= HALF_WIDTH + p.d / 2.0 + SLACK
  }

  /** Platform `p` can support the player this sub-step. */
  predicate Qualifies(p: Platform, prev: Vec3, pos: Vec3, vy: real)
  {
    var bottom := pos.y - HALF_HEIGHT;
    var prevBottom := prev.y - HALF_HEIGHT;
    var c := Probe(p, prev, pos, vy);
    (Crossed(p.y, prevBottom, bottom) || NearTop(p.y, prevBottom, bottom, vy)) && Within(c.0, c.1, p)
  }

  /**
   * `plats[k]` is the support the resolver picks: it qualifies, no
   * qualifying platform is higher, and every qualifying platform before it
   * is strictly lower (the first-seen platform wins a tie).
   */
  ghost predicate IsSupport(plats: seq<Platform>, prev: Vec3, pos: Vec3, vy: real, k: nat)
  {
    && k < |plats|
    && Qualifies(plats[k], prev, pos, vy)
    && (forall j :: 0 <= j < |plats| && Qualifies(plats[j], prev, pos, vy) ==> plats[j].y <= plats[k].y)
    && (forall j :: 0 <= j < k && Qualifies(plats[j], prev, pos, vy) ==> plats[j].y < plats[k].y)
  }

  /** The platform loop of `checkCollisions`, keeping the best top seen so far. */
  method FindSupport(plats: seq<Platform>, prev: Vec3, pos: Vec3, vy: real) returns (best: Option<nat>)
    ensures best.None? <==> forall j :: 0 <= j < |plats| ==> !Qualifies(plats[j], prev, pos, vy)
    ensures best.Some? ==> IsSupport(plats, prev, pos, vy, best.value)
  {
    best := None;
    var bestTop := 0.0;  // stands for -Infinity while best is None
    for k := 0 to |plats|
      invariant best.None? <==> forall j :: 0 <= j < k ==> !Qualifies(plats[j], prev, pos, vy)
      invariant best.Some? ==> best.value < k && bestTop == plats[best.value].y
      invariant best.Some? ==> Qualifies(plats[best.value], prev, pos, vy)
      invariant best.Some? ==> forall j :: 0 <= j < k && Qualifies(plats[j], prev, pos, vy) ==> plats[j].y <= bestTop
      invariant best.Some? ==> forall j :: 0 <= j < best.value && Qualifies(plats[j], prev, pos, vy) ==> plats[j].y < bestTop
    {
      if Qualifies(plats[k], prev, pos, vy) && (best.None? || plats[k].y > bestTop) {
        best := Some(k);
        bestTop := plats[k].y;
      }
    }
  }

  /** The sticky-ground branch would read a null platform (the virtual-floor contact). */
  predicate Faults(g: Option<Contact>, vy: real)
  {
    g.Some? && vy <= 2.0 && g.value.plat.None?
  }

  /** The sticky-ground rule keeps the previous contact. */
  predicate StickyHolds(g: Option<Contact>, pos: Vec3, vy: real)
  {
    && g.Some? && vy <= 2.0 && g.value.plat.Some?
    && Within(pos.x, pos.z, g.value.plat.value)
    && pos.y - HALF_HEIGHT <= g.value.yTop + 0.08
    && pos.y - HALF_HEIGHT >= g.value.yTop - 0.25
  }

  /** The virtual infinite floor at height 0 catches the player. */
  predicate FloorCatches(prevY: real, y: real, vy: real)
  {
    prevY - HALF_HEIGHT >= -0.05 && y - HALF_HEIGHT <= 0.05 && vy <= 0.0
  }

  /** A snapshot of the player's kinematic state (`prevY`/`prevPos` are `prev`). */
  datatype Kin = Kin(pos: Vec3, vel: Vec3, prev: Vec3, onGround: bool, ground: Option<Contact>)

  /**
   * One run of `checkCollisions` takes the state b to the state a with
   * outcome res: a landing on the IsSupport choice exactly when some platform
   * qualifies; otherwise the TypeError exactly when the sticky branch reads a
   * virtual-floor contact (nothing changes); otherwise sticky ground exactly
   * when it holds; otherwise the virtual floor exactly when it catches;
   * otherwise airborne with no contact. The horizontal state and `prev`
   * never change.
   */
  ghost predicate Resolves(plats: seq<Platform>, b: Kin, a: Kin, res: Resolution)
  {
    && a.prev == b.prev
    && a.pos.x == b.pos.x && a.pos.z == b.pos.z && a.vel.x == b.vel.x && a.vel.z == b.vel.z
    && (res.Landed? <==> exists j :: 0 <= j < |plats| && Qualifies(plats[j], b.prev, b.pos, b.vel.y))
    && (res.Landed? ==>
         && IsSupport(plats, b.prev, b.pos, b.vel.y, res.index)
         && a.pos.y == plats[res.index].y + HALF_HEIGHT && a.vel.y == 0.0 && a.onGround
         && a.ground == Some(Contact(Some(plats[res.index]), plats[res.index].y)))
    && (res.Crashed? <==> !res.Landed? && Faults(b.ground, b.vel.y))
    && (res.Crashed? ==> a == b)
    && (res.Stuck? <==> !res.Landed? && StickyHolds(b.ground, b.pos, b.vel.y))
    && (res.Stuck? ==> a.pos.y == b.ground.value.yTop + HALF_HEIGHT && a.vel.y == 0.0 && a.onGround && a.ground == b.ground)
    && (res.Floored? <==>
         && !res.Landed? && !Faults(b.ground, b.vel.y) && !StickyHolds(b.ground, b.pos, b.vel.y)
         && FloorCatches(b.prev.y, b.pos.y, b.vel.y))
    && (res.Floored? ==> a.pos.y == HALF_HEIGHT && a.vel.y == 0.0 && a.onGround && a.ground == Some(Contact(None, 0.0)))
    && (res.Airborne? ==> a.pos == b.pos && a.vel == b.vel && !a.onGround && a.ground == None)
  }

  /** Gravity for one sub-step of length h, clamped at the maximum fall speed. */
  function Gravity(vy: real, h: real): (r: real)
    ensures r >= MAX_FALL
    ensures vy + GRAV * h >= MAX_FALL ==> r == vy + GRAV * h
    ensures vy + GRAV * h < MAX_FALL ==> r == MAX_FALL
  {
    var v := vy + GRAV * h;
    if v < MAX_FALL then MAX_FALL else v
  }

  function ByTravel(dt: real, vy: real): int { Ceil(Abs(vy) * dt / SUBSTEP_TRAVEL) }
  function ByTime(dt: real): int { Ceil(dt / SUBSTEP_TIME) }

  /** The number of sub-steps `physicsStep` runs for a frame of length dt. */
  function SubSteps(dt: real, vy: real): (n: int)
    ensures 1 <= n <= MAX_SUBSTEPS
    ensures ByTravel(dt, vy) <= MAX_SUBSTEPS ==> n >= ByTravel(dt, vy)
    ensures ByTime(dt) <= MAX_SUBSTEPS ==> n >= ByTime(dt)
  {
    var m := if ByTravel(dt, vy) >= ByTime(dt) then ByTravel(dt, vy) else ByTime(dt);
    var c := if m <= MAX_SUBSTEPS then m else MAX_SUBSTEPS;
    if c >= 1 then c else 1
  }

  /**
   * Unless the cap of ten sub-steps bites, every sub-step of a positive frame
   * estimate moves the player at most 0.3 vertically and lasts at most 0.012.
   */
  lemma SubStepsSmall(dt: real, vy: real)
    requires dt > 0.0
    ensures ByTravel(dt, vy) <= MAX_SUBSTEPS ==> Abs(vy) * dt / SubSteps(dt, vy) as real <= SUBSTEP_TRAVEL
    ensures ByTime(dt) <= MAX_SUBSTEPS ==> dt / SubSteps(dt, vy) as real <= SUBSTEP_TIME
  {
    var n := SubSteps(dt, vy) as real;
    assert n >= 1.0;
    if ByTravel(dt, vy) <= MAX_SUBSTEPS {
      var e := Abs(vy) * dt;
      assert e / SUBSTEP_TRAVEL <= n;
      assert e <= SUBSTEP_TRAVEL * n;
      assert e / n <= SUBSTEP_TRAVEL;
    }
    if ByTime(dt) <= MAX_SUBSTEPS {
      assert dt / SUBSTEP_TIME <= n;
      assert dt <= SUBSTEP_TIME * n;
      assert dt / n <= SUBSTEP_TIME;
    }
  }

  /** The part of one sub-step before the collision check: gravity, then `prev := pos`, then `pos += vel * h`. */
  function Integrated(b: Kin, h: real): Kin
  {
    var v := b.vel.(y := Gravity(b.vel.y, h));
    b.(vel := v, prev := b.pos, pos := Vec3(b.pos.x + v.x * h, b.pos.y + v.y * h, b.pos.z + v.z * h))
  }

  /** `respawn`: the spawn point at rest, with the contact and grounded flag left as they are. */
  function Respawned(b: Kin): Kin
  {
    b.(pos := Vec3(0.0, 3.0, 0.0), vel := Vec3(0.0, 0.0, 0.0), prev := Vec3(0.0, 3.0, 0.0))
  }

  /**
   * kins and ress record sub-steps of length h: kins[i] is the state before
   * sub-step i, ress[i] its resolver outcome, and kins[i + 1] the state after
   * it. Only the last sub-step may crash.
   */
  ghost predicate Run(plats: seq<Platform>, h: real, kins: seq<Kin>, ress: seq<Resolution>)
  {
    && |kins| == |ress| + 1
    && (forall i :: 0 <= i < |ress| ==> Resolves(plats, Integrated(kins[i], h), kins[i + 1], ress[i]))
    && (forall i :: 0 <= i < |ress| - 1 ==> !ress[i].Crashed?)
  }

  /**
   * One `physicsStep(dt)` from b: a Run of sub-steps of length
   * dt / SubSteps(dt, b.vel.y) starting at b, which ends early only on a crash
   * and otherwise runs all SubSteps sub-steps.
   */
  ghost predicate Simulated(plats: seq<Platform>, dt: real, b: Kin, kins: seq<Kin>, ress: seq<Resolution>)
  {
    var steps := SubSteps(dt, b.vel.y);
    && Run(plats, dt / steps as real, kins, ress)
    && 1 <= |ress| <= steps && kins[0] == b
    && (!ress[|ress| - 1].Crashed? ==> |ress| == steps)
  }

  /** Two platforms that are both the resolver's support are the same one. */
  lemma IsSupportUnique(plats: seq<Platform>, prev: Vec3, pos: Vec3, vy: real, k1: nat, k2: nat)
    requires IsSupport(plats, prev, pos, vy, k1) && IsSupport(plats, prev, pos, vy, k2)
    ensures k1 == k2
  {
  }

  /** `checkCollisions` is deterministic: the outcome and the new state are fixed by the old state. */
  lemma ResolvesUnique(plats: seq<Platform>, b: Kin, a1: Kin, r1: Resolution, a2: Kin, r2: Resolution)
    requires Resolves(plats, b, a1, r1) && Resolves(plats, b, a2, r2)
    ensures a1 == a2 && r1 == r2
  {
    if r1.Landed? {
      IsSupportUnique(plats, b.prev, b.pos, b.vel.y, r1.index, r2.index);
    }
  }

  /** `physicsStep` is deterministic: two recorded runs from the same state are the same run. */
  lemma {:induction false} SimulatedUnique(plats: seq<Platform>, dt: real, b: Kin,
                                           kins1: seq<Kin>, ress1: seq<Resolution>, kins2: seq<Kin>, ress2: seq<Resolution>)
    requires Simulated(plats, dt, b, kins1, ress1) && Simulated(plats, dt, b, kins2, ress2)
    ensures kins1 == kins2 && ress1 == ress2
  {
    var h := dt / SubSteps(dt, b.vel.y) as real;
    var n := if |ress1| <= |ress2| then |ress1| else |ress2|;
    var i := 0;
    while i < n
      invariant 0 <= i <= n
      invariant kins1[..i + 1] == kins2[..i + 1] && ress1[..i] == ress2[..i]
    {
      assert kins1[i] == kins2[i] by { assert kins1[i] == kins1[..i + 1][i]; }
      ResolvesUnique(plats, Integrated(kins1[i], h), kins1[i + 1], ress1[i], kins2[i + 1], ress2[i]);
      assert kins1[..i + 2] == kins1[..i + 1] + [kins1[i + 1]];
      assert kins2[..i + 2] == kins2[..i + 1] + [kins2[i + 1]];
      assert ress1[..i + 1] == ress1[..i] + [ress1[i]];
      assert ress2[..i + 1] == ress2[..i] + [ress2[i]];
      i := i + 1;
    }
    assert kins1 == kins1[..n + 1];
    assert kins2 == kins2[..n + 1];
    assert ress1 == ress1[..n];
    assert ress2 == ress2[..n];
  }

  /** The player's kinematic state, updated in place by the resolver. */
  class Player {
    var pos: Vec3
    var vel: Vec3
    var prev: Vec3   // player.prevY and player.prevPos
    var onGround: bool
    var ground: Option<Contact>

    /** The grounded invariant: grounded exactly when a contact is recorded, and then at rest on it. */
    ghost predicate Rests()
      reads this
    {
      (onGround <==> ground.Some?) && (onGround ==> vel.y == 0.0 && pos.y == ground.value.yTop + HALF_HEIGHT)
    }

    constructor ()
      ensures pos == Vec3(0.0, 3.0, 0.0) && vel == Vec3(0.0, 0.0, 0.0) && prev == pos
      ensures !onGround && ground == None
    {
      pos := Vec3(0.0, 3.0, 0.0);
      vel := Vec3(0.0, 0.0, 0.0);
      prev := pos;
      onGround := false;
      ground := None;
    }

    /** A snapshot of the kinematic state. */
    function State(): Kin
      reads this
    {
      Kin(pos, vel, prev, onGround, ground)
    }

    /** `checkCollisions` without the congratulation check. */
    method CheckCollisions(plats: seq<Platform>) returns (res: Resolution)
      modifies this
      ensures Resolves(plats, old(State()), State(), res)
      ensures !res.Crashed? ==> Rests()
    {
      var best := FindSupport(plats, prev, pos, vel.y);
      if best.Some? {
        var k := best.value;
        var top := plats[k].y;
        pos := pos.(y := top + HALF_HEIGHT);
        vel := vel.(y := 0.0);
        onGround := true;
        ground := Some(Contact(Some(plats[k]), top));
        return Landed(k);
      }
      if ground.Some? && vel.y <= 2.0 {
        if ground.value.plat.None? {
          return Crashed;
        }
        if StickyHolds(ground, pos, vel.y) {
          pos := pos.(y := ground.value.yTop + HALF_HEIGHT);
          vel := vel.(y := 0.0);
          onGround := true;
          return Stuck;
        }
      }
      onGround := false;
      ground := None;
      if FloorCatches(prev.y, pos.y, vel.y) {
        pos := pos.(y := HALF_HEIGHT);
        vel := vel.(y := 0.0);
        onGround := true;
        ground := Some(Contact(None, 0.0));
        return Floored;
      }
      return Airborne;
    }

    /** The part of one `physicsStep` sub-step before the collision check. */
    method Integrate(h: real)
      modifies this
      ensures vel == old(vel).(y := Gravity(old(vel.y), h)) && vel.y >= MAX_FALL
      ensures prev == old(pos)
      ensures pos == Vec3(old(pos.x) + vel.x * h, old(pos.y) + vel.y * h, old(pos.z) + vel.z * h)
      ensures onGround == old(onGround) && ground == old(ground)
      ensures State() == Integrated(old(State()), h)
    {
      vel := vel.(y := Gravity(vel.y, h));
      prev := pos;
      pos := Vec3(pos.x + vel.x * h, pos.y + vel.y * h, pos.z + vel.z * h);
    }

    /** The jump handler (space, up arrow or a click): only effective when grounded. */
    method Jump()
      modifies this
      ensures old(onGround) ==> vel == old(vel).(y := JUMP_SPEED) && !onGround
      ensures !old(onGround) ==> vel == old(vel) && onGround == old(onGround)
      ensures pos == old(pos) && prev == old(prev) && ground == old(ground)
    {
      if onGround {
        vel := vel.(y := JUMP_SPEED);
        onGround := false;
      }
    }

    /** `respawn`: back to the spawn point at rest; the contact and grounded flag are left as they are. */
    method Respawn()
      modifies this
      ensures pos == Vec3(0.0, 3.0, 0.0) && vel == Vec3(0.0, 0.0, 0.0) && prev == pos
      ensures onGround == old(onGround) && ground == old(ground)
      ensures State() == Respawned(old(State()))
    {
      pos := Vec3(0.0, 3.0, 0.0);
      vel := Vec3(0.0, 0.0, 0.0);
      prev := pos;
    }
  }
}
