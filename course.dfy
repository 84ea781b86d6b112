/**
 * The jump-and-run scene of games/game-6/main.js: the course generator
 * (a ground platform and a chain of up to 140 platforms that never overlap),
 * the post-generation snap of one platform onto the floor, the landing
 * resolver with its one-shot "reached the top" signal, the sub-stepped
 * physics frame and the time-attack stopwatch.
 *
 * `Math.random()` is the injected stream `rand` (draw number `drawn` is the
 * next one), `Math.cos`/`Math.sin` are the injected functions `cos`/`sin`,
 * and `performance.now()` and the frame timestamp are parameters.
 */
module Course {
  import opened Options
  import opened Geometry
  import Landing

  const PI: real := 3.141592653589793
  const PLATFORM_THICKNESS: real := 1.0
  const VERT_UP_SCALE: real := 1.8
  const VERT_DOWN_SCALE: real := 0.7
  const MAX_DY: real := 2.2
  const MIN_STEP_DIST: real := 6.9
  const MAX_STEP_DIST: real := 7.5
  const BOUNDS_X: real := 60.0
  const BOUNDS_Z: real := 40.0
  const MIN_EDGE_GAP: real := 0.6
  const MAX_TRIES: int := 48
  const COURSE_LENGTH: nat := 140
  const RADII: seq<real> := [1.0, 1.2, 1.5, 1.8, 2.2]
  const ANGLE_STEPS: int := 16
  const PAL: seq<int> := [0x8b5cf6, 0x10b981, 0xf59e0b, 0x3b82f6, 0xef4444, 0x22c55e, 0x14b8a6, 0xf97316,
      0x64748b, 0x4ade80]
  /** The wide starting ground, marked so that it never blocks a placement. */
  const GROUND: Platform := Platform(0.0, 0.0, 60.0, 60.0, 0.0, 0xbcd7ff, true)
  /** The top-reached test tolerates this much below the highest top. */
  const TOP_TOLERANCE: real := 0.000001
  /** Platforms at or above this height count as "above the floor" for the snap. */
  const ABOVE_FLOOR: real := 0.001

  /** The generator cursor `genState`. */
  datatype GenState = GenState(x: real, y: real, z: real, dir: real, i: nat)

  /** The candidate footprint comes too close to some non-ground platform. */
  predicate Overlaps(plats: seq<Platform>, cx: real, cz: real, w: real, d: real)
  {
    exists k :: 0 <= k < |plats| && !plats[k].isGround && Clash(cx, cz, w, d, plats[k], MIN_EDGE_GAP)
  }

  /** `overlapsCandidate`: the loop over the platform list with an early return. */
  method OverlapsCandidate(plats: seq<Platform>, cx: real, cz: real, w: real, d: real) returns (hit: bool)
    ensures hit <==> Overlaps(plats, cx, cz, w, d)
  {
    var halfX, halfZ := w / 2.0, d / 2.0;
    for k := 0 to |plats|
      invariant forall j :: 0 <= j < k ==> plats[j].isGround || !Clash(cx, cz, w, d, plats[j], MIN_EDGE_GAP)
    {
      var plat := plats[k];
      if plat.isGround {
        continue;
      }
      var gapX := Abs(cx - plat.x) - (halfX + plat.w / 2.0);
      var gapZ := Abs(cz - plat.z) - (halfZ + plat.d / 2.0);
      if gapX < MIN_EDGE_GAP && gapZ < MIN_EDGE_GAP {
        return true;
      }
    }
    return false;
  }

  /** The platform centre lies inside the world bounds. */
  predicate InBounds(p: Platform)
  {
    Abs(p.x) <= BOUNDS_X && Abs(p.z) <= BOUNDS_Z
  }

  /** The size band for the platform made with counter value i: every 7th is a wide rest platform. */
  predicate InBand(i: nat, w: real, d: real)
  {
    if (i + 1) % 7 == 0 then 8.0 <= w < 14.0 && 4.0 <= d < 8.0
    else 2.6 <= w < 6.8 && 1.8 <= d < 5.0
  }

  /** The turn of one attempt: a larger turn when the first draw is below 0.25, a small jitter otherwise. */
  function Turn(r1: real, r2: real): (t: real)
    requires 0.0 <= r2 < 1.0
    ensures r1 < 0.25 ==> -0.6 <= t < 0.6
    ensures r1 >= 0.25 ==> -0.3 <= t < 0.3
  {
    if r1 < 0.25 then r2 * 1.2 - 0.6 else r2 * 0.6 - 0.3
  }

  /** The raw vertical step before scaling: usually in [-0.4, 1.2), with probability 0.15 a small drop. */
  function RawRise(r4: real, r5: real, r6: real): (raw: real)
    requires 0.0 <= r4 < 1.0 && 0.0 <= r6 < 1.0
    ensures r5 >= 0.15 ==> -0.4 <= raw < 1.2
    ensures r5 < 0.15 ==> -0.3 <= raw < -0.1
  {
    if r5 < 0.15 then -0.3 + r6 * 0.2 else -0.4 + r4 * 1.6
  }

  /** Scaling of the raw step: steeper up, shallower down, capped at MAX_DY. */
  function Rise(raw: real): (dy: real)
    requires -0.4 <= raw < 1.2
    ensures -0.28 <= dy <= MAX_DY
    ensures raw >= 0.0 <==> dy >= 0.0
  {
    var dy := if raw >= 0.0 then raw * VERT_UP_SCALE else raw * VERT_DOWN_SCALE;
    if dy > MAX_DY then MAX_DY else dy
  }

  /** The horizontal step length for an attempt, shortened by 15% after a large rise. */
  function StepLength(minDist: real, r3: real, dy: real): (step: real)
    requires 0.0 <= r3 < 1.0 && minDist < MAX_STEP_DIST
    ensures dy <= 1.6 ==> minDist <= step < MAX_STEP_DIST
    ensures dy > 1.6 ==> minDist * 0.85 <= step < MAX_STEP_DIST * 0.85
  {
    var step := minDist + Along(r3, MAX_STEP_DIST - minDist);
    if dy > 1.6 then step * 0.85 else step
  }

  /** A point r of the way along a positive span stays inside it. */
  function Along(r: real, span: real): (o: real)
    requires 0.0 <= r < 1.0 && span > 0.0
    ensures 0.0 <= o < span
  {
    assert span - r * span == (1.0 - r) * span;
    r * span
  }

  /** Width and depth drawn for the platform made with counter value i. */
  function Size(i: nat, rw: real, rd: real): (wd: (real, real))
    requires 0.0 <= rw < 1.0 && 0.0 <= rd < 1.0
    ensures InBand(i, wd.0, wd.1)
  {
    if (i + 1) % 7 == 0 then (8.0 + rw * 6.0, 4.0 + rd * 4.0)
    else (2.6 + rw * 4.2, 1.8 + rd * 3.2)
  }

  /** No two non-ground platforms come closer than the minimum gap (each checked against its predecessors). */
  ghost predicate Separated(plats: seq<Platform>)
  {
    forall i, j :: 1 <= i < j < |plats| ==>
      !Clash(plats[j].x, plats[j].z, plats[j].w, plats[j].d, plats[i], MIN_EDGE_GAP)
  }

  /** The highest top among the non-ground platforms; None stands for -Infinity. */
  method HighestTop(plats: seq<Platform>) returns (h: Option<real>)
    ensures h.None? <==> forall j :: 0 <= j < |plats| ==> plats[j].isGround
    ensures h.Some? ==> exists j :: 0 <= j < |plats| && !plats[j].isGround && plats[j].y == h.value
    ensures h.Some? ==> forall j :: 0 <= j < |plats| && !plats[j].isGround ==> plats[j].y <= h.value
  {
    h := None;
    for k := 0 to |plats|
      invariant h.None? <==> forall j :: 0 <= j < k ==> plats[j].isGround
      invariant h.Some? ==> exists j :: 0 <= j < k && !plats[j].isGround && plats[j].y == h.value
      invariant h.Some? ==> forall j :: 0 <= j < k && !plats[j].isGround ==> plats[j].y <= h.value
    {
      if plats[k].isGround {
        continue;
      }
      if h.None? || plats[k].y > h.value {
        h := Some(plats[k].y);
      }
    }
  }

  /** Landing on `plats[k]` counts as reaching the top. */
  ghost predicate AtTop(plats: seq<Platform>, k: nat)
  {
    k < |plats| && !plats[k].isGround &&
    forall j :: 0 <= j < |plats| && !plats[j].isGround ==> plats[j].y <= plats[k].y + TOP_TOLERANCE
  }

  predicate AboveFloor(p: Platform)
  {
    p.y >= ABOVE_FLOOR
  }

  /**
   * The platform the snap rewrites: among indices 1.. the lowest one above
   * the floor, else the highest one, the first-seen on ties (both sorts of
   * the source are stable).
   */
  ghost predicate IsSnapTarget(plats: seq<Platform>, k: nat)
  {
    && 1 <= k < |plats|
    && if exists j :: 1 <= j < |plats| && AboveFloor(plats[j]) then
         && AboveFloor(plats[k])
         && (forall j :: 1 <= j < |plats| && AboveFloor(plats[j]) ==> plats[k].y <= plats[j].y)
         && (forall j :: 1 <= j < k && AboveFloor(plats[j]) ==> plats[k].y < plats[j].y)
       else
         && (forall j :: 1 <= j < |plats| ==> plats[j].y <= plats[k].y)
         && (forall j :: 1 <= j < k ==> plats[j].y < plats[k].y)
  }

  /** The choice made by the filter and the two sorts of `snapLowestPlatformToFloor`. */
  method SnapTarget(plats: seq<Platform>) returns (k: nat)
    requires |plats| >= 2
    ensures IsSnapTarget(plats, k)
  {
    var above: Option<nat> := None;
    var highest: Option<nat> := None;
    for j := 1 to |plats|
      invariant above.None? <==> forall i :: 1 <= i < j ==> !AboveFloor(plats[i])
      invariant above.Some? ==> 1 <= above.value < j && AboveFloor(plats[above.value])
      invariant above.Some? ==> forall i :: 1 <= i < j && AboveFloor(plats[i]) ==> plats[above.value].y <= plats[i].y
      invariant above.Some? ==>
        forall i :: 1 <= i < above.value && AboveFloor(plats[i]) ==> plats[above.value].y < plats[i].y
      invariant highest.Some? <==> j > 1
      invariant highest.Some? ==> 1 <= highest.value < j
      invariant highest.Some? ==> forall i :: 1 <= i < j ==> plats[i].y <= plats[highest.value].y
      invariant highest.Some? ==> forall i :: 1 <= i < highest.value ==> plats[i].y < plats[highest.value].y
    {
      if AboveFloor(plats[j]) && (above.None? || plats[j].y < plats[above.value].y) {
        above := Some(j);
      }
      if highest.None? || plats[j].y > plats[highest.value].y {
        highest := Some(j);
      }
    }
    k := if above.Some? then above.value else highest.value;
  }

  /**
   * `p` is the platform one successful `addNextPlatform` call appends from
   * cursor g0, and g1 the cursor it leaves: a course platform in bounds,
   * rising by [-0.28, 2.2], in the size band and colour of the counter, with
   * the cursor moved onto it and counted on.
   */
  predicate Placed(p: Platform, g0: GenState, g1: GenState)
  {
    && !p.isGround && InBounds(p)
    && -0.28 <= p.y - g0.y <= MAX_DY
    && InBand(g0.i, p.w, p.d)
    && p.color == PAL[g0.i % |PAL|]
    && g1.x == p.x && g1.y == p.y && g1.z == p.z && g1.i == g0.i + 1
  }

  /** `plats` is `pre` after the snap: unchanged with only the ground, else the snap target rewritten to top 1.0. */
  ghost predicate SnappedFrom(pre: seq<Platform>, plats: seq<Platform>)
  {
    && (|pre| <= 1 ==> plats == pre)
    && (|pre| > 1 ==>
         exists k: nat :: IsSnapTarget(pre, k) && plats == pre[k := pre[k].(y := PLATFORM_THICKNESS)])
  }

  /** The best time after a finish with elapsed time t: the smaller of the two, the new one when there was none. */
  function BestAfter(best: Option<real>, t: real): (r: Option<real>)
    ensures r.Some? && r.value <= t && (best.Some? ==> r.value <= best.value)
    ensures r == Some(t) <==> best.None? || t <= best.value
    ensures r != Some(t) ==> r == best
  {
    if best.None? || t < best.value then Some(t) else best
  }

  class JumpGame {
    const rand: nat -> real
    const cos: real -> real
    const sin: real -> real
    const player: Landing.Player
    var drawn: nat
    var platforms: seq<Platform>
    var gen: GenState
    var congratsShown: bool
    var taRunning: bool
    var taFinished: bool
    var taStartTime: real
    var taElapsedMs: real
    var taBestMs: Option<real>
    var gameStarted: bool
    var last: real
    /** The frame loop has died: a frame threw and no further frame was requested. */
    var halted: bool

    ghost predicate RandomOk()
    {
      forall k: nat :: 0.0 <= rand(k) < 1.0
    }

    /**
     * The course invariant: the ground first, every other platform inside
     * the bounds and clear of all the others, and the cursor counter equal
     * to the number of course platforms.
     */
    ghost predicate Valid()
      reads this
    {
      && RandomOk()
      && |platforms| >= 1 && platforms[0] == GROUND
      && (forall k :: 1 <= k < |platforms| ==> !platforms[k].isGround && InBounds(platforms[k]))
      && Separated(platforms)
      && gen.i == |platforms| - 1
      && Abs(gen.x) <= BOUNDS_X && Abs(gen.z) <= BOUNDS_Z
    }

    /** Page load: build the course; the stopwatch is idle and the best time is the stored one. */
    constructor (rand: nat -> real, cos: real -> real, sin: real -> real, savedBest: Option<real>, now: real)
      requires forall k: nat :: 0.0 <= rand(k) < 1.0
      ensures Valid() && !congratsShown && 1 <= |platforms| <= 1 + COURSE_LENGTH
      ensures Built(platforms, gen)
      ensures !taRunning && !taFinished && taElapsedMs == 0.0 && taBestMs == savedBest
      ensures !gameStarted && !halted && last == now
      ensures fresh(player)
      ensures player.pos == Vec3(0.0, 3.0, 0.0) && player.vel == Vec3(0.0, 0.0, 0.0) && player.prev == player.pos
      ensures !player.onGround && player.ground == None
    {
      this.rand := rand;
      this.cos := cos;
      this.sin := sin;
      player := new Landing.Player();
      drawn := 0;
      platforms := [GROUND];
      gen := GenState(0.0, 1.2, 0.0, 0.0, 0);
      congratsShown := false;
      taRunning, taFinished, taStartTime, taElapsedMs := false, false, 0.0, 0.0;
      taBestMs := savedBest;
      gameStarted, last, halted := false, now, false;
      new;
      ghost var pre, lens, gens := GeneratePlatforms();
    }

    /** One `Math.random()` draw. */
    method Random() returns (r: real)
      requires RandomOk()
      modifies this`drawn
      ensures r == rand(old(drawn)) && drawn == old(drawn) + 1
      ensures 0.0 <= r < 1.0
    {
      r := rand(drawn);
      drawn := drawn + 1;
    }

    /** `initGenState`: the cursor back at (0, 1.2, 0) with a random facing and counter 0. */
    method InitGenState()
      requires RandomOk()
      modifies this`gen, this`drawn
      ensures gen.x == 0.0 && gen.y == 1.2 && gen.z == 0.0 && gen.i == 0
      ensures 0.0 <= gen.dir < 2.0 * PI
    {
      var r := Random();
      gen := GenState(0.0, 1.2, 0.0, r * PI * 2.0, 0);
    }

    /** The rise of one try: two draws, and a third only on the short drop. */
    method DrawRise() returns (dy: real)
      requires RandomOk()
      modifies this`drawn
      ensures -0.28 <= dy <= MAX_DY
    {
      var r4 := Random();
      var r5 := Random();
      var r6 := 0.0;
      if r5 < 0.15 {
        r6 := Random();
      }
      dy := Rise(RawRise(r4, r5, r6));
    }

    /** The footprint of one try: the width draw, then the depth draw. */
    method DrawSize(i: nat) returns (w: real, d: real)
      requires RandomOk()
      modifies this`drawn
      ensures InBand(i, w, d)
    {
      var rw := Random();
      var rd := Random();
      var wd := Size(i, rw, rd);
      w, d := wd.0, wd.1;
    }

    /**
     * One try of the placement loop: the turn, the step, the rise and the
     * size, drawn in the order the source draws them.
     */
    method Candidate(s: GenState, dir0: real) returns (candX: real, candZ: real, candY: real, candW: real,
        candD: real, dir: real)
      requires RandomOk()
      modifies this`drawn
      ensures Abs(candX) <= BOUNDS_X && Abs(candZ) <= BOUNDS_Z
      ensures -0.28 <= candY - s.y <= MAX_DY && InBand(s.i, candW, candD)
    {
      var r1 := Random();
      var r2 := Random();
      dir := dir0 + Turn(r1, r2);
      var r3 := Random();
      var dy := DrawRise();
      var step := StepLength(MIN_STEP_DIST, r3, dy);
      candX := Clamp(-BOUNDS_X, BOUNDS_X, s.x + cos(dir) * step);
      candZ := Clamp(-BOUNDS_Z, BOUNDS_Z, s.z + sin(dir) * step);
      candY := s.y + dy;
      candW, candD := DrawSize(s.i);
    }

    /** The clamped spot the radial search tries at radius RADII[ri] and angle step k around cursor s. */
    function Spot(s: GenState, dir: real, ri: nat, k: nat): (t: (real, real))
      requires ri < |RADII|
      ensures Abs(t.0) <= BOUNDS_X && Abs(t.1) <= BOUNDS_Z
    {
      var baseStep := MIN_STEP_DIST + (MAX_STEP_DIST - MIN_STEP_DIST) * 0.5;
      var ang := dir + (k as real * (PI * 2.0 / ANGLE_STEPS as real));
      (Clamp(-BOUNDS_X, BOUNDS_X, s.x + cos(ang) * baseStep * RADII[ri]),
       Clamp(-BOUNDS_Z, BOUNDS_Z, s.z + sin(ang) * baseStep * RADII[ri]))
    }

    /** The radial spot (ri, k) overlaps some non-ground platform. */
    ghost predicate SpotBlocked(plats: seq<Platform>, s: GenState, dir: real, w: real, d: real, ri: nat, k: nat)
    {
      ri < |RADII| && Overlaps(plats, Spot(s, dir, ri, k).0, Spot(s, dir, ri, k).1, w, d)
    }

    /** Every one of the 5 x 16 radial spots is blocked. */
    ghost predicate AllBlocked(plats: seq<Platform>, s: GenState, dir: real, w: real, d: real)
    {
      forall ri: nat, k: nat :: ri < |RADII| && k < ANGLE_STEPS ==> SpotBlocked(plats, s, dir, w, d, ri, k)
    }

    /** (ri, k) is the first clear spot in search order: radius by radius, and angle by angle within one. */
    ghost predicate FirstClear(plats: seq<Platform>, s: GenState, dir: real, w: real, d: real, ri: nat, k: nat)
    {
      && ri < |RADII| && k < ANGLE_STEPS
      && !SpotBlocked(plats, s, dir, w, d, ri, k)
      && (forall ri': nat, k': nat :: ri' < ri && k' < ANGLE_STEPS ==> SpotBlocked(plats, s, dir, w, d, ri', k'))
      && (forall k': nat :: k' < k ==> SpotBlocked(plats, s, dir, w, d, ri, k'))
    }

    /** From cursor s nothing can be placed: for some heading and in-band size every radial spot is blocked. */
    ghost predicate Blocked(plats: seq<Platform>, s: GenState)
    {
      exists dir: real, w: real, d: real :: InBand(s.i, w, d) && AllBlocked(plats, s, dir, w, d)
    }

    /**
     * One `addNextPlatform` call from (plats0, g0) to (plats1, g1): one
     * platform appended clear of the others, or, with everything blocked,
     * nothing changed.
     */
    ghost predicate Step(plats0: seq<Platform>, g0: GenState, plats1: seq<Platform>, g1: GenState)
    {
      || (&& |plats1| == |plats0| + 1 && plats1[..|plats0|] == plats0
          && Placed(plats1[|plats0|], g0, g1)
          && !Overlaps(plats0, plats1[|plats0|].x, plats1[|plats0|].z, plats1[|plats0|].w, plats1[|plats0|].d))
      || (plats1 == plats0 && g1 == g0 && Blocked(plats0, g0))
    }

    /**
     * `plats` grew from `base` by count calls: before call i the list was
     * plats[..lens[i]] and the cursor gens[i], and each call was a Step.
     */
    ghost predicate Grown(base: seq<Platform>, plats: seq<Platform>, lens: seq<nat>, gens: seq<GenState>, count: nat)
    {
      && |lens| == count + 1 && |gens| == count + 1
      && lens[0] == |base| && lens[count] == |plats|
      && (forall i :: 0 <= i <= count ==> lens[i] <= |plats|)
      && plats[..|base|] == base
      && (forall i :: 0 <= i < count ==>
            lens[i] <= lens[i + 1] && Step(plats[..lens[i]], gens[i], plats[..lens[i + 1]], gens[i + 1]))
    }

    /**
     * A whole `generatePlatforms` build: 140 calls from the ground and the
     * fresh cursor give `pre`, and the snap then turns `pre` into `plats`.
     */
    ghost predicate BuiltCourse(pre: seq<Platform>, plats: seq<Platform>, lens: seq<nat>, gens: seq<GenState>)
    {
      && Grown([GROUND], pre, lens, gens, COURSE_LENGTH)
      && gens[0].x == 0.0 && gens[0].y == 1.2 && gens[0].z == 0.0 && gens[0].i == 0
      && SnappedFrom(pre, plats)
    }

    /** `plats` and cursor `g` are what a whole `generatePlatforms` build leaves: the snapped course and the cursor of the last call. */
    ghost predicate Built(plats: seq<Platform>, g: GenState)
    {
      exists pre, lens, gens :: BuiltCourse(pre, plats, lens, gens) && g == gens[COURSE_LENGTH]
    }

    /** Appending one more Step to a growth history. */
    lemma {:induction false} GrownExtend(base: seq<Platform>, plats: seq<Platform>, lens: seq<nat>,
        gens: seq<GenState>, count: nat, plats': seq<Platform>, g': GenState)
      requires Grown(base, plats, lens, gens, count)
      requires Step(plats, gens[count], plats', g')
      ensures Grown(base, plats', lens + [|plats'|], gens + [g'], count + 1)
    {
      assert plats'[..|plats|] == plats;
      forall n | 0 <= n <= |plats|
        ensures plats'[..n] == plats[..n]
      {
        assert plats'[..n] == plats'[..|plats|][..n];
      }
      var lens', gens' := lens + [|plats'|], gens + [g'];
      assert plats'[..lens'[count + 1]] == plats';
      assert plats[..lens[count]] == plats;
      forall i | 0 <= i < count + 1
        ensures lens'[i] <= lens'[i + 1] && Step(plats'[..lens'[i]], gens'[i], plats'[..lens'[i + 1]], gens'[i + 1])
      {
        if i < count {
          assert plats'[..lens'[i]] == plats[..lens[i]];
          assert plats'[..lens'[i + 1]] == plats[..lens[i + 1]];
        }
      }
    }

    /**
     * The random attempts of `addNextPlatform`: up to 48 candidates, each
     * turned, stepped, raised and sized by fresh draws; the first one clear
     * of every non-ground platform is taken and its heading kept. Without a
     * success all 48 were made, the last one overlaps, and its size and the
     * accumulated heading are what the radial search goes on with.
     */
    method Attempts(s: GenState) returns (placed: bool, candX: real, candZ: real, candY: real, candW: real,
        candD: real, dir: real, ghost tries: nat)
      requires RandomOk() && Abs(s.x) <= BOUNDS_X && Abs(s.z) <= BOUNDS_Z
      modifies this`drawn
      ensures Abs(candX) <= BOUNDS_X && Abs(candZ) <= BOUNDS_Z
      ensures -0.28 <= candY - s.y <= MAX_DY && InBand(s.i, candW, candD)
      ensures 1 <= tries <= MAX_TRIES
      ensures placed ==> !Overlaps(platforms, candX, candZ, candW, candD)
      ensures !placed ==> tries == MAX_TRIES && Overlaps(platforms, candX, candZ, candW, candD)
    {
      placed := false;
      candX, candZ, candY, candW, candD := s.x, s.z, s.y, 3.0, 2.0;
      dir := s.dir;
      var attempt := 0;
      while attempt < MAX_TRIES && !placed
        invariant 0 <= attempt <= MAX_TRIES
        invariant attempt == 0 ==> candX == s.x && candZ == s.z && !placed
        invariant Abs(candX) <= BOUNDS_X && Abs(candZ) <= BOUNDS_Z
        invariant attempt > 0 ==> -0.28 <= candY - s.y <= MAX_DY && InBand(s.i, candW, candD)
        invariant placed ==> !Overlaps(platforms, candX, candZ, candW, candD)
        invariant !placed && attempt > 0 ==> Overlaps(platforms, candX, candZ, candW, candD)
      {
        candX, candZ, candY, candW, candD, dir := Candidate(s, dir);
        var hit := OverlapsCandidate(platforms, candX, candZ, candW, candD);
        if !hit {
          placed := true;
        } else {
          var r9 := Random();
          dir := dir + (r9 * 0.8 - 0.4);
        }
        attempt := attempt + 1;
      }
      tries := attempt;
    }

    /**
     * The fallback of `addNextPlatform`: 5 radii by 16 evenly spaced angles
     * around the cursor, taking the first clamped spot clear of every
     * non-ground platform; no draws are made. Nothing is found exactly when
     * all 80 spots are blocked.
     */
    method RadialSearch(s: GenState, dir: real, w: real, d: real) returns (found: bool, tx: real, tz: real,
        ghost ri: nat, ghost k: nat)
      ensures found ==> Abs(tx) <= BOUNDS_X && Abs(tz) <= BOUNDS_Z && !Overlaps(platforms, tx, tz, w, d)
      ensures found ==> FirstClear(platforms, s, dir, w, d, ri, k) && (tx, tz) == Spot(s, dir, ri, k)
      ensures !found ==> AllBlocked(platforms, s, dir, w, d)
    {
      found, tx, tz, ri, k := false, 0.0, 0.0, 0, 0;
      for r := 0 to |RADII|
        invariant forall r': nat, a: nat :: r' < r && a < ANGLE_STEPS ==> SpotBlocked(platforms, s, dir, w, d, r', a)
      {
        for a := 0 to ANGLE_STEPS
          invariant forall r': nat, a': nat :: r' < r && a' < ANGLE_STEPS ==> SpotBlocked(platforms, s, dir, w, d, r', a')
          invariant forall a': nat :: a' < a ==> SpotBlocked(platforms, s, dir, w, d, r, a')
        {
          var t := Spot(s, dir, r, a);
          var hit := OverlapsCandidate(platforms, t.0, t.1, w, d);
          if !hit {
            found, tx, tz, ri, k := true, t.0, t.1, r, a;
            return;
          }
        }
      }
    }

    /**
     * `addNextPlatform`: the random attempts, then the radial search; a
     * platform is appended only if it clears every non-ground platform.
     * The step is skipped, changing nothing, only when all 48 attempts and
     * all 80 radial spots are blocked. `searched` says whether the radial
     * search ran, `searchDir`, `sw` and `sd` are the heading and size it used.
     */
    method AddNextPlatform() returns (placed: bool, ghost searched: bool, ghost searchDir: real, ghost sw: real,
        ghost sd: real)
      requires Valid()
      modifies this`drawn, this`platforms, this`gen
      ensures Valid()
      ensures Step(old(platforms), old(gen), platforms, gen)
      ensures !placed ==> platforms == old(platforms) && gen == old(gen)
      ensures placed ==> |platforms| == |old(platforms)| + 1 && platforms[..|old(platforms)|] == old(platforms)
      ensures placed ==>
        var p := platforms[|old(platforms)|];
        && !Overlaps(old(platforms), p.x, p.z, p.w, p.d)
        && !p.isGround && InBounds(p)
        && -0.28 <= p.y - old(gen).y <= MAX_DY
        && InBand(old(gen).i, p.w, p.d)
        && p.color == PAL[old(gen).i % |PAL|]
        && gen.x == p.x && gen.y == p.y && gen.z == p.z && gen.i == old(gen).i + 1
      ensures searched ==> InBand(old(gen).i, sw, sd)
      ensures !placed ==> searched && AllBlocked(old(platforms), old(gen), searchDir, sw, sd)
      ensures placed && searched ==>
        var p := platforms[|old(platforms)|];
        && p.w == sw && p.d == sd && gen.dir == old(gen).dir
        && exists ri: nat, k: nat :: FirstClear(old(platforms), old(gen), searchDir, sw, sd, ri, k)
             && (p.x, p.z) == Spot(old(gen), searchDir, ri, k)
    {
      var s := gen;
      var candX, candZ, candY, candW, candD, dir;
      ghost var tries;
      placed, candX, candZ, candY, candW, candD, dir, tries := Attempts(s);
      searched, searchDir, sw, sd := !placed, dir, candW, candD;
      var newDir := if placed then dir else s.dir;
      if !placed {
        ghost var ri, k;
        placed, candX, candZ, ri, k := RadialSearch(s, dir, candW, candD);
        if !placed {
          assert InBand(s.i, sw, sd) && AllBlocked(platforms, s, searchDir, sw, sd);
          return;
        }
      }
      var p := Platform(candX, candZ, candW, candD, candY, PAL[s.i % |PAL|], false);
      ghost var before := platforms;
      platforms := platforms + [p];
      gen := GenState(candX, candY, candZ, newDir, s.i + 1);
      assert platforms[..|before|] == before;
      assert forall i :: 1 <= i < |before| ==> !Clash(p.x, p.z, p.w, p.d, before[i], MIN_EDGE_GAP);
    }

    /**
     * `bulkGenerate(count)`: count calls of AddNextPlatform, each appending
     * one platform or, with everything blocked, skipping (lens and gens
     * record the list length and cursor before each call).
     */
    method BulkGenerate(count: nat) returns (ghost lens: seq<nat>, ghost gens: seq<GenState>)
      requires Valid()
      modifies this`drawn, this`platforms, this`gen
      ensures Valid()
      ensures Grown(old(platforms), platforms, lens, gens, count)
      ensures gens[0] == old(gen) && gens[count] == gen
      ensures |old(platforms)| <= |platforms| <= |old(platforms)| + count
    {
      lens, gens := [|platforms|], [gen];
      assert platforms[..|platforms|] == platforms;
      for i := 0 to count
        invariant Valid()
        invariant Grown(old(platforms), platforms, lens, gens, i)
        invariant gens[0] == old(gen) && gens[i] == gen
        invariant |old(platforms)| <= |platforms| <= |old(platforms)| + i
      {
        ghost var before := platforms;
        var _, _, _, _, _ := AddNextPlatform();
        GrownExtend(old(platforms), before, lens, gens, i, platforms, gen);
        lens, gens := lens + [|platforms|], gens + [gen];
      }
    }

    /**
     * `snapLowestPlatformToFloor`: with only the ground present nothing
     * happens; otherwise exactly the snap target gets top 1.0 (bottom on the
     * floor) and every other platform, and the order, stay as they were.
     */
    method SnapLowestPlatformToFloor() returns (ghost target: Option<nat>)
      requires Valid()
      modifies this`platforms
      ensures Valid()
      ensures |old(platforms)| <= 1 ==> target.None? && platforms == old(platforms)
      ensures |old(platforms)| > 1 ==>
        && target.Some? && IsSnapTarget(old(platforms), target.value)
        && platforms == old(platforms)[target.value := old(platforms)[target.value].(y := PLATFORM_THICKNESS)]
    {
      if |platforms| <= 1 {
        return None;
      }
      var k := SnapTarget(platforms);
      ghost var before := platforms;
      platforms := platforms[k := platforms[k].(y := PLATFORM_THICKNESS)];
      assert forall i :: 0 <= i < |platforms| ==>
        platforms[i].x == before[i].x && platforms[i].z == before[i].z &&
        platforms[i].w == before[i].w && platforms[i].d == before[i].d && platforms[i].isGround == before[i].isGround;
      return Some(k);
    }

    /**
     * `generatePlatforms`: the ground, a fresh cursor, 140 calls of
     * AddNextPlatform giving `pre`, the snap, and the congratulation re-armed.
     */
    method GeneratePlatforms() returns (ghost pre: seq<Platform>, ghost lens: seq<nat>, ghost gens: seq<GenState>)
      requires RandomOk()
      modifies this`drawn, this`platforms, this`gen, this`congratsShown
      ensures Valid() && !congratsShown
      ensures 1 <= |platforms| <= 1 + COURSE_LENGTH && platforms[0] == GROUND
      ensures BuiltCourse(pre, platforms, lens, gens) && gen == gens[COURSE_LENGTH]
    {
      platforms := [GROUND];
      InitGenState();
      lens, gens := BulkGenerate(COURSE_LENGTH);
      pre := platforms;
      ghost var t := SnapLowestPlatformToFloor();
      congratsShown := false;
    }

    /**
     * `checkCollisions`: the shared resolver, then the one-shot signal for
     * landing on the highest non-ground platform.
     */
    method CheckCollisions() returns (res: Landing.Resolution, reached: bool)
      modifies this`congratsShown, player
      ensures Landing.Resolves(platforms, old(player.State()), player.State(), res)
      ensures !res.Crashed? ==> player.Rests()
      ensures res.Landed? ==> res.index < |platforms|
      ensures reached <==> res.Landed? && !old(congratsShown) && AtTop(platforms, res.index)
      ensures congratsShown == (old(congratsShown) || reached)
    {
      res := player.CheckCollisions(platforms);
      reached := false;
      if res.Landed? && !congratsShown && !platforms[res.index].isGround {
        var highest := HighestTop(platforms);
        if highest.None? || platforms[res.index].y >= highest.value - TOP_TOLERANCE {
          congratsShown := true;
          reached := true;
        }
      }
    }

    /**
     * `physicsStep(dt)`: SubSteps(dt, vy) sub-steps of gravity, integration
     * and resolution, recorded in kins and ress as a Landing.Simulated run
     * from the old player state to the new one. A throw ends it early (`ran`
     * sub-steps were run): the player is then on a virtual-floor contact with
     * no platform to land on.
     */
    method PhysicsStep(dt: real) returns (steps: int, crashed: bool, ghost ran: nat,
                                          ghost kins: seq<Landing.Kin>, ghost ress: seq<Landing.Resolution>)
      modifies this`congratsShown, player
      ensures steps == Landing.SubSteps(dt, old(player.vel.y)) && 1 <= steps <= Landing.MAX_SUBSTEPS
      ensures Landing.Simulated(platforms, dt, old(player.State()), kins, ress)
      ensures ran == |ress| && player.State() == kins[ran] && (crashed <==> ress[ran - 1].Crashed?)
      ensures 1 <= ran <= steps && (!crashed ==> ran == steps)
      ensures crashed ==>
        && Landing.Faults(player.ground, player.vel.y)
        && forall j :: 0 <= j < |platforms| ==> !Landing.Qualifies(platforms[j], player.prev, player.pos, player.vel.y)
      ensures !crashed ==> player.Rests()
      ensures old(congratsShown) ==> congratsShown
    {
      steps := Landing.SubSteps(dt, player.vel.y);
      var h := dt / steps as real;
      crashed := false;
      kins, ress := [player.State()], [];
      var i := 0;
      while i < steps && !crashed
        invariant 0 <= i <= steps && |ress| == i
        invariant Landing.Run(platforms, h, kins, ress) && kins[0] == old(player.State()) && kins[i] == player.State()
        invariant crashed <==> i > 0 && ress[i - 1].Crashed?
        invariant i > 0 && !crashed ==> player.Rests()
        invariant crashed ==> i > 0 && Landing.Faults(player.ground, player.vel.y)
        invariant crashed ==>
          forall j :: 0 <= j < |platforms| ==> !Landing.Qualifies(platforms[j], player.prev, player.pos, player.vel.y)
        invariant old(congratsShown) ==> congratsShown
      {
        player.Integrate(h);
        var res, reached := CheckCollisions();
        crashed := res.Crashed?;
        kins, ress := kins + [player.State()], ress + [res];
        i := i + 1;
      }
      ran := i;
    }

    /**
     * One `animate(t)` frame, without the horizontal steering and the camera.
     * Before the start only the clock moves. Otherwise the physics runs as
     * the Landing.Simulated run kins/ress over the clamped frame time. A throw
     * in the physics (`crashed`) ends the frame and the loop for good.
     * Otherwise the player respawns (`fell`) exactly when the physics left it
     * below -20, and the stopwatch display is updated.
     */
    method Frame(t: real, now: real) returns (ghost crashed: bool, ghost fell: bool,
                                              ghost kins: seq<Landing.Kin>, ghost ress: seq<Landing.Resolution>)
      modifies this`last, this`congratsShown, this`halted, this`taElapsedMs, player
      ensures old(halted) ==>
        && !crashed && !fell && halted && last == old(last) && congratsShown == old(congratsShown)
        && taElapsedMs == old(taElapsedMs) && player.State() == old(player.State())
      ensures !old(halted) ==> last == t
      ensures halted == (old(halted) || crashed)
      ensures !gameStarted ==>
        && !crashed && !fell && congratsShown == old(congratsShown) && taElapsedMs == old(taElapsedMs)
        && player.State() == old(player.State())
      ensures !old(halted) && gameStarted ==>
        && Landing.Simulated(platforms, Min((t - old(last)) / 1000.0, 0.05), old(player.State()), kins, ress)
        && (crashed <==> ress[|ress| - 1].Crashed?)
        && (fell <==> !crashed && kins[|ress|].pos.y < -20.0)
        && player.State() == if fell then Landing.Respawned(kins[|ress|]) else kins[|ress|]
      ensures crashed ==>
        && taElapsedMs == old(taElapsedMs)
        && Landing.Faults(player.ground, player.vel.y)
        && forall j :: 0 <= j < |platforms| ==> !Landing.Qualifies(platforms[j], player.prev, player.pos, player.vel.y)
      ensures fell ==> !crashed && player.pos == Vec3(0.0, 3.0, 0.0) && player.vel == Vec3(0.0, 0.0, 0.0)
      ensures !old(halted) && gameStarted && !crashed ==>
        && player.pos.y >= -20.0
        && (!fell ==> player.Rests())
        && (taRunning && !taFinished ==> taElapsedMs == now - taStartTime)
        && (!(taRunning && !taFinished) ==> taElapsedMs == old(taElapsedMs))
      ensures old(congratsShown) ==> congratsShown
    {
      crashed, fell := false, false;
      kins, ress := [player.State()], [];
      if halted {
        return;
      }
      var dt := Min((t - last) / 1000.0, 0.05);
      last := t;
      if !gameStarted {
        return;
      }
      var steps, crash;
      ghost var ran;
      steps, crash, ran, kins, ress := PhysicsStep(dt);
      crashed := crash;
      if crash {
        halted := true;
        return;
      }
      if player.pos.y < -20.0 {
        player.Respawn();
        fell := true;
      }
      UpdateTimeAttackUI(now);
    }

    /** The stopwatch and loop state that only the timer operations, frames and R touch. */
    function Stopwatch(): (bool, bool, real, real, Option<real>, bool, real, bool, bool)
      reads this
    {
      (taRunning, taFinished, taStartTime, taElapsedMs, taBestMs, congratsShown, last, gameStarted, halted)
    }

    /**
     * The second keydown handler: space, Spacebar or ArrowUp jump; N adds
     * the next platform; R rebuilds the course, respawns and restarts the
     * stopwatch; any other key changes nothing here.
     */
    method KeyDown(key: string, now: real)
      requires Valid()
      modifies this, player
      ensures Valid()
      ensures key == " " || key == "Spacebar" || key == "ArrowUp" ==>
        && platforms == old(platforms) && gen == old(gen) && drawn == old(drawn) && Stopwatch() == old(Stopwatch())
        && player.pos == old(player.pos) && player.prev == old(player.prev) && player.ground == old(player.ground)
        && (old(player.onGround) ==> player.vel == old(player.vel).(y := Landing.JUMP_SPEED) && !player.onGround)
        && (!old(player.onGround) ==> player.vel == old(player.vel) && !player.onGround)
      ensures key == "n" || key == "N" ==>
        && Step(old(platforms), old(gen), platforms, gen)
        && Stopwatch() == old(Stopwatch()) && player.State() == old(player.State())
      ensures key == "r" || key == "R" ==>
        && Built(platforms, gen)
        && !congratsShown && taRunning && !taFinished && taElapsedMs == 0.0 && taStartTime == now
        && taBestMs == old(taBestMs)
        && player.pos == Vec3(0.0, 3.0, 0.0) && player.vel == Vec3(0.0, 0.0, 0.0) && player.prev == player.pos
        && player.onGround == old(player.onGround) && player.ground == old(player.ground)
        && halted == old(halted) && gameStarted == old(gameStarted) && last == old(last)
      ensures key !in {" ", "Spacebar", "ArrowUp", "n", "N", "r", "R"} ==>
        && platforms == old(platforms) && gen == old(gen) && drawn == old(drawn)
        && Stopwatch() == old(Stopwatch()) && player.State() == old(player.State())
    {
      if key == " " || key == "Spacebar" || key == "ArrowUp" {
        player.Jump();
      }
      if key == "n" || key == "N" {
        var _, _, _, _, _ := AddNextPlatform();
      }
      if key == "r" || key == "R" {
        Restart(now);
      }
    }

    /** The restart button and the R key: new course, spawn point, running stopwatch. */
    method Restart(now: real)
      requires RandomOk()
      modifies this, player
      ensures Valid() && !congratsShown
      ensures Built(platforms, gen)
      ensures player.pos == Vec3(0.0, 3.0, 0.0) && player.vel == Vec3(0.0, 0.0, 0.0) && player.prev == player.pos
      ensures taRunning && !taFinished && taElapsedMs == 0.0 && taStartTime == now && taBestMs == old(taBestMs)
      ensures halted == old(halted) && gameStarted == old(gameStarted) && last == old(last)
      ensures player.onGround == old(player.onGround) && player.ground == old(player.ground)
    {
      ghost var pre, lens, gens := GeneratePlatforms();
      player.Respawn();
      ResetTimeAttack(true, now);
    }

    /** The start button of the settings overlay. */
    method StartGame(now: real)
      modifies this`gameStarted, this`taRunning, this`taFinished, this`taElapsedMs, this`taStartTime
      ensures gameStarted && taRunning && !taFinished && taElapsedMs == 0.0 && taStartTime == now
    {
      gameStarted := true;
      ResetTimeAttack(true, now);
    }

    /** `resetTimeAttack(startNow)`: clears finished and elapsed; runs from `now` iff startNow. */
    method ResetTimeAttack(startNow: bool, now: real)
      modifies this`taRunning, this`taFinished, this`taElapsedMs, this`taStartTime
      ensures !taFinished && taElapsedMs == 0.0 && taRunning == startNow
      ensures startNow ==> taStartTime == now
      ensures !startNow ==> taStartTime == old(taStartTime)
    {
      taFinished := false;
      taElapsedMs := 0.0;
      if startNow {
        taRunning := true;
        taStartTime := now;
      } else {
        taRunning := false;
      }
    }

    /** `updateTimeAttackUI`: while running and not finished, elapsed is the time since the start. */
    method UpdateTimeAttackUI(now: real)
      modifies this`taElapsedMs
      ensures taRunning && !taFinished ==> taElapsedMs == now - taStartTime
      ensures !(taRunning && !taFinished) ==> taElapsedMs == old(taElapsedMs)
    {
      if !taRunning || taFinished {
        return;
      }
      taElapsedMs := now - taStartTime;
    }

    /**
     * `finishTimeAttack`: null unless running and not finished; otherwise
     * finished, the elapsed time recorded, the best the minimum, and the
     * elapsed time returned in seconds.
     */
    method FinishTimeAttack(now: real) returns (secs: Option<real>)
      modifies this`taFinished, this`taElapsedMs, this`taBestMs
      ensures !old(taRunning) || old(taFinished) ==>
        secs.None? && taFinished == old(taFinished) && taElapsedMs == old(taElapsedMs) && taBestMs == old(taBestMs)
      ensures old(taRunning) && !old(taFinished) ==>
        && taFinished && taElapsedMs == now - taStartTime
        && taBestMs == BestAfter(old(taBestMs), taElapsedMs)
        && secs == Some(taElapsedMs / 1000.0)
    {
      if !taRunning || taFinished {
        return None;
      }
      taFinished := true;
      taElapsedMs := now - taStartTime;
      if taBestMs.None? || taElapsedMs < taBestMs.value {
        taBestMs := Some(taElapsedMs);
      }
      return Some(taElapsedMs / 1000.0);
    }
  }
}
