/**
 * The earlier jump-and-run scene of 3d/games/game-6/main.js. It shares the
 * landing resolver with the later one but generates differently: a shorter
 * minimum step, a smaller edge gap, 16 attempts, the ground platform takes
 * part in the overlap test, and when every attempt fails the last candidate
 * is still placed, nudged 0.6 away from the origin on each axis. There is
 * no snap, no congratulation, no stopwatch and no R key.
 */
module CourseEarly {
  import opened Options
  import opened Geometry
  import Course
  import Landing

  const MIN_STEP_DIST: real := 3.5
  const MAX_STEP_DIST: real := 7.5
  const MIN_EDGE_GAP: real := 0.4
  const MAX_TRIES: int := 16
  const NUDGE: real := 0.6
  const COURSE_LENGTH: nat := 140
  /** The wide starting platform; this variant has no ground mark. */
  const GROUND: Platform := Platform(0.0, 0.0, 60.0, 60.0, 0.0, 0xbcd7ff, false)

  /** The candidate footprint comes too close to some platform, the ground included. */
  predicate Overlaps(plats: seq<Platform>, cx: real, cz: real, w: real, d: real)
  {
    exists k :: 0 <= k < |plats| && Clash(cx, cz, w, d, plats[k], MIN_EDGE_GAP)
  }

  /** `overlapsCandidate` of this variant: every platform takes part. */
  method OverlapsCandidate(plats: seq<Platform>, cx: real, cz: real, w: real, d: real) returns (hit: bool)
    ensures hit <==> Overlaps(plats, cx, cz, w, d)
  {
    var halfX, halfZ := w / 2.0, d / 2.0;
    for k := 0 to |plats|
      invariant forall j :: 0 <= j < k ==> !Clash(cx, cz, w, d, plats[j], MIN_EDGE_GAP)
    {
      var plat := plats[k];
      var gapX := Abs(cx - plat.x) - (halfX + plat.w / 2.0);
      var gapZ := Abs(cz - plat.z) - (halfZ + plat.d / 2.0);
      if gapX < MIN_EDGE_GAP && gapZ < MIN_EDGE_GAP {
        return true;
      }
    }
    return false;
  }

  /**
   * Because the 60 by 60 ground counts, every candidate whose centre is
   * within 30.4 of the origin on both axes is rejected: near the start the
   * attempts can only succeed far out, and mostly the fallback places.
   */
  lemma {:induction false} GroundBlocksCentre(plats: seq<Platform>, cx: real, cz: real, w: real, d: real)
    requires |plats| >= 1 && plats[0] == GROUND
    requires w >= 0.0 && d >= 0.0
    requires Abs(cx) < 30.0 + MIN_EDGE_GAP && Abs(cz) < 30.0 + MIN_EDGE_GAP
    ensures Overlaps(plats, cx, cz, w, d)
  {
    assert Clash(cx, cz, w, d, plats[0], MIN_EDGE_GAP);
  }

  /**
   * The fallback nudge on one axis: `v + sign(v) * 0.6` clamped to the
   * bounds. It never moves toward the origin, moves at most 0.6, keeps the
   * sign, and leaves 0 where it is.
   */
  function Nudge(bound: real, v: real): (r: real)
    requires bound > 0.0 && Abs(v) <= bound
    ensures Abs(r) <= bound
    ensures Abs(v) <= Abs(r) <= Abs(v) + NUDGE
    ensures Sign(r) == Sign(v)
  {
    Clamp(-bound, bound, v + Sign(v) as real * NUDGE)
  }

  /**
   * `p` is the fallback placement: the nudge of some in-bounds candidate
   * that overlaps `plats`.
   */
  ghost predicate NudgedFrom(plats: seq<Platform>, p: Platform)
  {
    exists tx: real, tz: real ::
      Abs(tx) <= Course.BOUNDS_X && Abs(tz) <= Course.BOUNDS_Z && Overlaps(plats, tx, tz, p.w, p.d)
      && p.x == Nudge(Course.BOUNDS_X, tx) && p.z == Nudge(Course.BOUNDS_Z, tz)
  }

  /**
   * One `addNextPlatform` call of this variant from (ps, g) to (ps', g'):
   * exactly one platform appended from the cursor, clear of every platform
   * or the nudge of an overlapping try.
   */
  ghost predicate EarlyStep(ps: seq<Platform>, g: Course.GenState, ps': seq<Platform>, g': Course.GenState)
  {
    && |ps'| == |ps| + 1 && ps'[..|ps|] == ps
    && Course.Placed(ps'[|ps|], g, g')
    && (!Overlaps(ps, ps'[|ps|].x, ps'[|ps|].z, ps'[|ps|].w, ps'[|ps|].d) || NudgedFrom(ps, ps'[|ps|]))
  }

  /** `plats` grew from `base` by count EarlySteps, the cursor before call i being gens[i]. */
  ghost predicate EarlyGrown(base: seq<Platform>, plats: seq<Platform>, gens: seq<Course.GenState>, count: nat)
  {
    && |gens| == count + 1 && |plats| == |base| + count && plats[..|base|] == base
    && (forall i :: 0 <= i < count ==>
          EarlyStep(plats[..|base| + i], gens[i], plats[..|base| + i + 1], gens[i + 1]))
  }

  /** Appending one more EarlyStep to a growth history. */
  lemma {:induction false} EarlyGrownExtend(base: seq<Platform>, plats: seq<Platform>, gens: seq<Course.GenState>,
      count: nat, plats': seq<Platform>, g': Course.GenState)
    requires EarlyGrown(base, plats, gens, count)
    requires EarlyStep(plats, gens[count], plats', g')
    ensures EarlyGrown(base, plats', gens + [g'], count + 1)
  {
    forall n | 0 <= n <= |plats|
      ensures plats'[..n] == plats[..n]
    {
      assert plats'[..n] == plats'[..|plats|][..n];
    }
    var gens' := gens + [g'];
    assert plats'[..|base| + count + 1] == plats';
    assert plats[..|base| + count] == plats;
    forall i | 0 <= i < count + 1
      ensures EarlyStep(plats'[..|base| + i], gens'[i], plats'[..|base| + i + 1], gens'[i + 1])
    {
      if i < count {
        assert plats'[..|base| + i] == plats[..|base| + i];
        assert plats'[..|base| + i + 1] == plats[..|base| + i + 1];
      }
    }
  }

  /**
   * A whole `generatePlatforms` build of this variant: 140 EarlySteps from
   * the ground and the fresh cursor, ending at cursor g.
   */
  ghost predicate EarlyBuilt(plats: seq<Platform>, g: Course.GenState)
  {
    exists gens: seq<Course.GenState> ::
      && EarlyGrown([GROUND], plats, gens, COURSE_LENGTH)
      && gens[0].x == 0.0 && gens[0].y == 1.2 && gens[0].z == 0.0 && gens[0].i == 0
      && g == gens[COURSE_LENGTH]
  }

  class EarlyGame {
    const rand: nat -> real
    const cos: real -> real
    const sin: real -> real
    const player: Landing.Player
    var drawn: nat
    var platforms: seq<Platform>
    var gen: Course.GenState
    var gameStarted: bool
    var last: real
    /** The frame loop has died: a frame threw and no further frame was requested. */
    var halted: bool

    ghost predicate RandomOk()
    {
      forall k: nat :: 0.0 <= rand(k) < 1.0
    }

    /** The course invariant of this variant: the ground first, every platform in bounds, one per counter step. */
    ghost predicate Valid()
      reads this
    {
      && RandomOk()
      && |platforms| >= 1 && platforms[0] == GROUND
      && (forall k :: 1 <= k < |platforms| ==> Course.InBounds(platforms[k]))
      && gen.i == |platforms| - 1
      && Abs(gen.x) <= Course.BOUNDS_X && Abs(gen.z) <= Course.BOUNDS_Z
    }

    /** Page load: build the course of exactly 141 platforms. */
    constructor (rand: nat -> real, cos: real -> real, sin: real -> real, now: real)
      requires forall k: nat :: 0.0 <= rand(k) < 1.0
      ensures Valid() && |platforms| == 1 + COURSE_LENGTH
      ensures EarlyBuilt(platforms, gen)
      ensures !gameStarted && !halted && last == now
      ensures fresh(player)
      ensures player.pos == Vec3(0.0, 3.0, 0.0) && player.vel == Vec3(0.0, 0.0, 0.0) && player.prev == player.pos
      ensures !player.onGround && player.ground == None
    {
      this.rand := rand;
      this.cos := cos;
      this.sin := sin;
      player := new Landing.Player();
      drawn := 0;
      platforms := [GROUND];
      gen := Course.GenState(0.0, 1.2, 0.0, 0.0, 0);
      gameStarted, last, halted := false, now, false;
      new;
      ghost var gens := GeneratePlatforms();
    }

    /** One `Math.random()` draw. */
    method Random() returns (r: real)
      requires RandomOk()
      modifies this`drawn
      ensures r == rand(old(drawn)) && drawn == old(drawn) + 1
      ensures 0.0 <= r < 1.0
    {
      r := rand(drawn);
      drawn := drawn + 1;
    }

    /** `initGenState`: the cursor back at (0, 1.2, 0) with a random facing and counter 0. */
    method InitGenState()
      requires RandomOk()
      modifies this`gen, this`drawn
      ensures gen.x == 0.0 && gen.y == 1.2 && gen.z == 0.0 && gen.i == 0
      ensures 0.0 <= gen.dir < 2.0 * Course.PI
    {
      var r := Random();
      gen := Course.GenState(0.0, 1.2, 0.0, r * Course.PI * 2.0, 0);
    }

    /** The rise of one try: two draws, and a third only on the short drop. */
    method DrawRise() returns (dy: real)
      requires RandomOk()
      modifies this`drawn
      ensures -0.28 <= dy <= Course.MAX_DY
    {
      var r4 := Random();
      var r5 := Random();
      var r6 := 0.0;
      if r5 < 0.15 {
        r6 := Random();
      }
      dy := Course.Rise(Course.RawRise(r4, r5, r6));
    }

    /** The footprint of one try: the width draw, then the depth draw. */
    method DrawSize(i: nat) returns (w: real, d: real)
      requires RandomOk()
      modifies this`drawn
      ensures Course.InBand(i, w, d)
    {
      var rw := Random();
      var rd := Random();
      var wd := Course.Size(i, rw, rd);
      w, d := wd.0, wd.1;
    }

    /**
     * One try of the placement loop: the turn, the step, the rise and the
     * size, drawn in the order the source draws them.
     */
    method Candidate(s: Course.GenState, dir0: real) returns (candX: real, candZ: real, candY: real, candW: real,
        candD: real, dir: real)
      requires RandomOk()
      modifies this`drawn
      ensures Abs(candX) <= Course.BOUNDS_X && Abs(candZ) <= Course.BOUNDS_Z
      ensures -0.28 <= candY - s.y <= Course.MAX_DY && Course.InBand(s.i, candW, candD)
    {
      var r1 := Random();
      var r2 := Random();
      dir := dir0 + Course.Turn(r1, r2);
      var r3 := Random();
      var dy := DrawRise();
      var step := Course.StepLength(MIN_STEP_DIST, r3, dy);
      candX := Clamp(-Course.BOUNDS_X, Course.BOUNDS_X, s.x + cos(dir) * step);
      candZ := Clamp(-Course.BOUNDS_Z, Course.BOUNDS_Z, s.z + sin(dir) * step);
      candY := s.y + dy;
      candW, candD := DrawSize(s.i);
    }

    /**
     * The 16 random attempts; the same draws, in the same order, as the
     * later variant. Without a success all 16 were made and the last
     * candidate overlaps.
     */
    method Attempts(s: Course.GenState) returns (placed: bool, candX: real, candZ: real, candY: real,
        candW: real, candD: real, dir: real, ghost tries: nat)
      requires RandomOk() && Abs(s.x) <= Course.BOUNDS_X && Abs(s.z) <= Course.BOUNDS_Z
      modifies this`drawn
      ensures Abs(candX) <= Course.BOUNDS_X && Abs(candZ) <= Course.BOUNDS_Z
      ensures -0.28 <= candY - s.y <= Course.MAX_DY && Course.InBand(s.i, candW, candD)
      ensures 1 <= tries <= MAX_TRIES
      ensures placed ==> !Overlaps(platforms, candX, candZ, candW, candD)
      ensures !placed ==> tries == MAX_TRIES && Overlaps(platforms, candX, candZ, candW, candD)
    {
      placed := false;
      candX, candZ, candY, candW, candD := s.x, s.z, s.y, 3.0, 2.0;
      dir := s.dir;
      var attempt := 0;
      while attempt < MAX_TRIES && !placed
        invariant 0 <= attempt <= MAX_TRIES
        invariant attempt == 0 ==> !placed
        invariant Abs(candX) <= Course.BOUNDS_X && Abs(candZ) <= Course.BOUNDS_Z
        invariant attempt > 0 ==> -0.28 <= candY - s.y <= Course.MAX_DY && Course.InBand(s.i, candW, candD)
        invariant placed ==> !Overlaps(platforms, candX, candZ, candW, candD)
        invariant !placed && attempt > 0 ==> Overlaps(platforms, candX, candZ, candW, candD)
      {
        candX, candZ, candY, candW, candD, dir := Candidate(s, dir);
        var hit := OverlapsCandidate(platforms, candX, candZ, candW, candD);
        if !hit {
          placed := true;
        } else {
          var r9 := Random();
          dir := dir + (r9 * 0.8 - 0.4);
        }
        attempt := attempt + 1;
      }
      tries := attempt;
    }

    /**
     * `addNextPlatform` of this variant: a platform is always appended. If
     * an attempt succeeded it clears every platform; otherwise all 16
     * attempts failed, and it is the last tried candidate `tried`, which
     * overlaps, nudged outward.
     */
    method AddNextPlatform() returns (placed: bool, tried: (real, real))
      requires Valid()
      modifies this`drawn, this`platforms, this`gen
      ensures Valid()
      ensures EarlyStep(old(platforms), old(gen), platforms, gen)
      ensures |platforms| == |old(platforms)| + 1 && platforms[..|old(platforms)|] == old(platforms)
      ensures Course.Placed(platforms[|old(platforms)|], old(gen), gen)
      ensures
        var p := platforms[|old(platforms)|];
        && Abs(tried.0) <= Course.BOUNDS_X && Abs(tried.1) <= Course.BOUNDS_Z
        && (placed ==> (p.x, p.z) == tried && !Overlaps(old(platforms), p.x, p.z, p.w, p.d))
        && (!placed ==> Overlaps(old(platforms), tried.0, tried.1, p.w, p.d))
        && (!placed ==> p.x == Nudge(Course.BOUNDS_X, tried.0) && p.z == Nudge(Course.BOUNDS_Z, tried.1))
        && (!placed ==> gen.dir == old(gen).dir)
      ensures
        var p := platforms[|old(platforms)|];
        !Overlaps(old(platforms), p.x, p.z, p.w, p.d) || NudgedFrom(old(platforms), p)
    {
      var s := gen;
      var candX, candZ, candY, candW, candD, dir;
      ghost var tries;
      placed, candX, candZ, candY, candW, candD, dir, tries := Attempts(s);
      tried := (candX, candZ);
      var newDir := if placed then dir else s.dir;
      if !placed {
        candX := Nudge(Course.BOUNDS_X, candX);
        candZ := Nudge(Course.BOUNDS_Z, candZ);
      }
      var p := Platform(candX, candZ, candW, candD, candY, Course.PAL[s.i % |Course.PAL|], false);
      ghost var before := platforms;
      platforms := platforms + [p];
      gen := Course.GenState(candX, candY, candZ, newDir, s.i + 1);
      assert platforms[..|before|] == before;
    }

    /**
     * `bulkGenerate(count)`: count calls of AddNextPlatform, each appending
     * exactly one platform (gens records the cursor before each call).
     */
    method BulkGenerate(count: nat) returns (ghost gens: seq<Course.GenState>)
      requires Valid()
      modifies this`drawn, this`platforms, this`gen
      ensures Valid()
      ensures EarlyGrown(old(platforms), platforms, gens, count)
      ensures gens[0] == old(gen) && gens[count] == gen
      ensures |platforms| == |old(platforms)| + count
      ensures platforms[..|old(platforms)|] == old(platforms)
    {
      gens := [gen];
      assert platforms[..|platforms|] == platforms;
      for i := 0 to count
        invariant Valid()
        invariant EarlyGrown(old(platforms), platforms, gens, i)
        invariant gens[0] == old(gen) && gens[i] == gen
      {
        ghost var before := platforms;
        var _, _ := AddNextPlatform();
        EarlyGrownExtend(old(platforms), before, gens, i, platforms, gen);
        gens := gens + [gen];
      }
    }

    /** `generatePlatforms` of this variant: the ground, a fresh cursor and 140 EarlySteps from it. */
    method GeneratePlatforms() returns (ghost gens: seq<Course.GenState>)
      requires RandomOk()
      modifies this`drawn, this`platforms, this`gen
      ensures Valid() && |platforms| == 1 + COURSE_LENGTH
      ensures EarlyGrown([GROUND], platforms, gens, COURSE_LENGTH) && gen == gens[COURSE_LENGTH]
      ensures gens[0].x == 0.0 && gens[0].y == 1.2 && gens[0].z == 0.0 && gens[0].i == 0
      ensures EarlyBuilt(platforms, gen)
    {
      platforms := [GROUND];
      InitGenState();
      gens := BulkGenerate(COURSE_LENGTH);
    }

    /**
     * `physicsStep(dt)` of this variant: the same sub-stepping, recorded in
     * kins and ress as a Landing.Simulated run from the old player state to
     * the new one. A throw ends it early (`ran` sub-steps were run): the
     * player is then on a virtual-floor contact with no platform to land on.
     */
    method PhysicsStep(dt: real) returns (steps: int, crashed: bool, ghost ran: nat,
                                          ghost kins: seq<Landing.Kin>, ghost ress: seq<Landing.Resolution>)
      modifies player
      ensures steps == Landing.SubSteps(dt, old(player.vel.y)) && 1 <= steps <= Landing.MAX_SUBSTEPS
      ensures Landing.Simulated(platforms, dt, old(player.State()), kins, ress)
      ensures ran == |ress| && player.State() == kins[ran] && (crashed <==> ress[ran - 1].Crashed?)
      ensures 1 <= ran <= steps && (!crashed ==> ran == steps)
      ensures crashed ==>
        && Landing.Faults(player.ground, player.vel.y)
        && forall j :: 0 <= j < |platforms| ==> !Landing.Qualifies(platforms[j], player.prev, player.pos, player.vel.y)
      ensures !crashed ==> player.Rests()
    {
      steps := Landing.SubSteps(dt, player.vel.y);
      var h := dt / steps as real;
      crashed := false;
      kins, ress := [player.State()], [];
      var i := 0;
      while i < steps && !crashed
        invariant 0 <= i <= steps && |ress| == i
        invariant Landing.Run(platforms, h, kins, ress) && kins[0] == old(player.State()) && kins[i] == player.State()
        invariant crashed <==> i > 0 && ress[i - 1].Crashed?
        invariant i > 0 && !crashed ==> player.Rests()
        invariant crashed ==> i > 0 && Landing.Faults(player.ground, player.vel.y)
        invariant crashed ==>
          forall j :: 0 <= j < |platforms| ==> !Landing.Qualifies(platforms[j], player.prev, player.pos, player.vel.y)
      {
        player.Integrate(h);
        var res := player.CheckCollisions(platforms);
        crashed := res.Crashed?;
        kins, ress := kins + [player.State()], ress + [res];
        i := i + 1;
      }
      ran := i;
    }

    /**
     * One `animate(t)` frame, without the horizontal steering and the camera.
     * Before the start only the clock moves. Otherwise the physics runs as
     * the Landing.Simulated run kins/ress over the clamped frame time. A throw
     * in the physics (`crashed`) ends the frame and the loop for good.
     * Otherwise the player respawns (`fell`) exactly when the physics left it
     * below -20.
     */
    method Frame(t: real) returns (ghost crashed: bool, ghost fell: bool,
                                   ghost kins: seq<Landing.Kin>, ghost ress: seq<Landing.Resolution>)
      modifies this`last, this`halted, player
      ensures old(halted) ==> !crashed && !fell && halted && last == old(last) && player.State() == old(player.State())
      ensures !old(halted) ==> last == t
      ensures halted == (old(halted) || crashed)
      ensures !gameStarted ==> !crashed && !fell && player.State() == old(player.State())
      ensures !old(halted) && gameStarted ==>
        && Landing.Simulated(platforms, Min((t - old(last)) / 1000.0, 0.05), old(player.State()), kins, ress)
        && (crashed <==> ress[|ress| - 1].Crashed?)
        && (fell <==> !crashed && kins[|ress|].pos.y < -20.0)
        && player.State() == if fell then Landing.Respawned(kins[|ress|]) else kins[|ress|]
      ensures crashed ==>
        && Landing.Faults(player.ground, player.vel.y)
        && forall j :: 0 <= j < |platforms| ==> !Landing.Qualifies(platforms[j], player.prev, player.pos, player.vel.y)
      ensures fell ==> !crashed && player.pos == Vec3(0.0, 3.0, 0.0) && player.vel == Vec3(0.0, 0.0, 0.0)
      ensures !old(halted) && gameStarted && !crashed ==> player.pos.y >= -20.0 && (!fell ==> player.Rests())
    {
      crashed, fell := false, false;
      kins, ress := [player.State()], [];
      if halted {
        return;
      }
      var dt := Min((t - last) / 1000.0, 0.05);
      last := t;
      if !gameStarted {
        return;
      }
      var steps, crash;
      ghost var ran;
      steps, crash, ran, kins, ress := PhysicsStep(dt);
      crashed := crash;
      if crash {
        halted := true;
        return;
      }
      if player.pos.y < -20.0 {
        player.Respawn();
        fell := true;
      }
    }

    /**
     * The second keydown handler: space, Spacebar or ArrowUp jump; N adds
     * the next platform; any other key changes nothing here.
     */
    method KeyDown(key: string)
      requires Valid()
      modifies this`drawn, this`platforms, this`gen, player
      ensures Valid()
      ensures key == " " || key == "Spacebar" || key == "ArrowUp" ==>
        && platforms == old(platforms) && gen == old(gen) && drawn == old(drawn)
        && player.pos == old(player.pos) && player.prev == old(player.prev) && player.ground == old(player.ground)
        && (old(player.onGround) ==> player.vel == old(player.vel).(y := Landing.JUMP_SPEED) && !player.onGround)
        && (!old(player.onGround) ==> player.vel == old(player.vel) && !player.onGround)
      ensures key == "n" || key == "N" ==>
        && EarlyStep(old(platforms), old(gen), platforms, gen)
        && |platforms| == |old(platforms)| + 1 && platforms[..|old(platforms)|] == old(platforms)
        && Course.Placed(platforms[|old(platforms)|], old(gen), gen)
        && (var p := platforms[|old(platforms)|];
            !Overlaps(old(platforms), p.x, p.z, p.w, p.d) || NudgedFrom(old(platforms), p))
        && player.State() == old(player.State())
      ensures key !in {" ", "Spacebar", "ArrowUp", "n", "N"} ==>
        platforms == old(platforms) && gen == old(gen) && drawn == old(drawn) && player.State() == old(player.State())
    {
      if key == " " || key == "Spacebar" || key == "ArrowUp" {
        player.Jump();
      }
      if key == "n" || key == "N" {
        var _, _ := AddNextPlatform();
      }
    }

    /** The restart button: a new course of 141 platforms and the spawn point. */
    method Restart()
      requires RandomOk()
      modifies this`drawn, this`platforms, this`gen, player
      ensures Valid() && |platforms| == 1 + COURSE_LENGTH
      ensures EarlyBuilt(platforms, gen)
      ensures player.pos == Vec3(0.0, 3.0, 0.0) && player.vel == Vec3(0.0, 0.0, 0.0) && player.prev == player.pos
      ensures player.onGround == old(player.onGround) && player.ground == old(player.ground)
    {
      ghost var gens := GeneratePlatforms();
      player.Respawn();
    }

    /** The start button of the settings overlay. */
    method StartGame()
      modifies this`gameStarted
      ensures gameStarted
    {
      gameStarted := true;
    }
  }
}
