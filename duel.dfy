/**
 * The reaction duel of games/game-1: after Space a random delay arms the
 * round, "go" is signalled, and the faster of two keys (A for player 1, L for
 * player 2) wins a point; a key pressed before the signal is a foul that
 * gives the other player the point. Timers are modelled as pending delays
 * whose expiry is an event the page delivers; the clock and `Math.random()`
 * come in as a parameter and a stream.
 */
module Duel {
  import opened Options
  import Text

  datatype Phase = Idle | Armed | Go | Finished
  datatype Player = P1 | P2

  /** The wait before the signal is 2000 ms plus up to 3999 ms more. */
  const ARM_BASE: int := 2000
  const ARM_SPREAD: int := 4000
  /** How long the signal waits for both reactions. */
  const FINALIZE_WAIT: int := 3000

  /** The arm delay for one draw: `2000 + Math.floor(Math.random() * 4000)`. */
  function ArmDelay(r: Fraction): (delay: int)
    ensures ARM_BASE <= delay < ARM_BASE + ARM_SPREAD
  {
    ARM_BASE + (r * ARM_SPREAD as real).Floor
  }

  /** A reaction time: the time since the signal, never negative. */
  function Elapsed(now: real, start: real): (ms: real)
    ensures ms >= 0.0 && ms >= now - start
    ensures now >= start ==> ms == now - start
  {
    if now - start > 0.0 then now - start else 0.0
  }

  /**
   * The points of a round decided by reaction times: both reacted, the
   * strictly faster one; only one reacted, that one; nobody, none.
   */
  function Award(t1: Option<real>, t2: Option<real>): (int, int)
  {
    if t1.Some? && t2.Some? then
      (if t1.value < t2.value then (1, 0) else if t2.value < t1.value then (0, 1) else (0, 0))
    else if t1.Some? then (1, 0)
    else if t2.Some? then (0, 1)
    else (0, 0)
  }

  /** Player 1 scores exactly when it reacted and player 2 did not react sooner or at all. */
  lemma AwardFirst(t1: Option<real>, t2: Option<real>)
    ensures Award(t1, t2).0 == 1 <==> t1.Some? && (t2.None? || t1.value < t2.value)
    ensures Award(t1, t2).0 == 0 <==> !(t1.Some? && (t2.None? || t1.value < t2.value))
  {
  }

  /** A round awards at most one point, and the rule treats the two players alike. */
  lemma {:induction false} AwardFair(t1: Option<real>, t2: Option<real>)
    ensures 0 <= Award(t1, t2).0 && 0 <= Award(t1, t2).1 && Award(t1, t2).0 + Award(t1, t2).1 <= 1
    ensures Award(t2, t1) == (Award(t1, t2).1, Award(t1, t2).0)
    ensures t1.Some? && t2.Some? && t1.value == t2.value ==> Award(t1, t2) == (0, 0)
  {
  }

  /** The scores of a foul: the player who did not jump the signal gets the point. */
  function FoulAward(offender: Player): (delta: (int, int))
    ensures delta.0 + delta.1 == 1
    ensures offender == P1 <==> delta.1 == 1
  {
    if offender == P1 then (0, 1) else (1, 0)
  }

  /** One reading of everything the round's handlers read or change. */
  datatype Round = Round(
    drawn: nat, state: Phase, p1Score: int, p2Score: int,
    p1Time: Option<real>, p2Time: Option<real>, foul: Option<Player>, startTime: real,
    armTimer: Option<int>, finalizeTimer: Option<int>, introVisible: bool, lastDelay: int)

  /** `startRound` from idle or finished: the round forgotten and armed with the next draw's delay. */
  function Arm(rand: nat -> Fraction, b: Round): (a: Round)
    ensures a.state == Armed && a.drawn == b.drawn + 1 && a.armTimer == Some(ArmDelay(rand(b.drawn)))
    ensures a.p1Score == b.p1Score && a.p2Score == b.p2Score && a.introVisible == b.introVisible
  {
    var d := ArmDelay(rand(b.drawn));
    b.(drawn := b.drawn + 1, state := Armed, p1Time := None, p2Time := None, foul := None,
       lastDelay := d, armTimer := Some(d), finalizeTimer := None)
  }

  /** `onFoul(who)`: finished, no timers, and the point to the other player. */
  function Foul(b: Round, who: Player): Round
  {
    b.(foul := Some(who), state := Finished, armTimer := None, finalizeTimer := None,
       p1Score := b.p1Score + FoulAward(who).0, p2Score := b.p2Score + FoulAward(who).1)
  }

  /**
   * `recordReaction(who)` during the signal, at clock reading `now`: a
   * player's first reaction is kept, and the second reaction of the round
   * decides it by Award.
   */
  function React(b: Round, who: Player, now: real): Round
  {
    var ms := Elapsed(now, b.startTime);
    if (who == P1 && b.p1Time.Some?) || (who == P2 && b.p2Time.Some?) then b
    else
      var t1 := if who == P1 then Some(ms) else b.p1Time;
      var t2 := if who == P2 then Some(ms) else b.p2Time;
      if t1.Some? && t2.Some? then
        b.(p1Time := t1, p2Time := t2, state := Finished, armTimer := None, finalizeTimer := None,
           p1Score := b.p1Score + Award(t1, t2).0, p2Score := b.p2Score + Award(t1, t2).1)
      else b.(p1Time := t1, p2Time := t2)
  }

  /** The window keydown handler on the lower-cased key `k`, as a map from the state before to the state after. */
  function WindowKey(rand: nat -> Fraction, k: string, now: real, b: Round): Round
  {
    if k == " " then
      if b.introVisible then b.(introVisible := false)
      else if b.state == Idle || b.state == Finished then Arm(rand, b)
      else b
    else if k == "a" || k == "l" then
      var who := if k == "a" then P1 else P2;
      if b.state == Armed then Foul(b, who)
      else if b.state == Go then React(b, who, now)
      else b
    else b
  }

  /** A reaction changes only the presser's own time, never the foul or the clock reading. */
  lemma ReactOwnTime(b: Round, who: Player, now: real)
    ensures who == P1 ==> React(b, who, now).p2Time == b.p2Time
    ensures who == P2 ==> React(b, who, now).p1Time == b.p1Time
    ensures React(b, who, now).foul == b.foul && React(b, who, now).startTime == b.startTime
    ensures b.p1Time.None? && who == P1 ==> React(b, who, now).p1Time == Some(Elapsed(now, b.startTime))
    ensures b.p2Time.None? && who == P2 ==> React(b, who, now).p2Time == Some(Elapsed(now, b.startTime))
  {
  }

  /**
   * No key press takes a point away, and one press gives at most one point:
   * a foul gives exactly one, and the deciding reaction at most one.
   */
  lemma {:induction false} KeyScores(rand: nat -> Fraction, k: string, now: real, b: Round)
    ensures var a := WindowKey(rand, k, now, b);
      a.p1Score >= b.p1Score && a.p2Score >= b.p2Score && a.p1Score + a.p2Score <= b.p1Score + b.p2Score + 1
    ensures (k == "a" || k == "l") && b.state == Armed ==>
      var a := WindowKey(rand, k, now, b);
      a.p1Score + a.p2Score == b.p1Score + b.p2Score + 1 && (k == "a" <==> a.p2Score == b.p2Score + 1)
  {
    if (k == "a" || k == "l") && b.state == Go {
      var who := if k == "a" then P1 else P2;
      var ms := Elapsed(now, b.startTime);
      var t1 := if who == P1 then Some(ms) else b.p1Time;
      var t2 := if who == P2 then Some(ms) else b.p2Time;
      AwardFair(t1, t2);
    }
  }

  class Game {
    /** The stream of `Math.random()` draws; `drawn` of them are used. */
    const rand: nat -> Fraction
    var drawn: nat

    var state: Phase
    var p1Score: int
    var p2Score: int
    /** The reaction times of this round; None is the source's `null`. */
    var p1Time: Option<real>
    var p2Time: Option<real>
    var foul: Option<Player>
    /** The clock reading when the signal went up. */
    var startTime: real
    /** The pending timer delays that `clearTimers` can cancel; None is no timer. */
    var armTimer: Option<int>
    var finalizeTimer: Option<int>
    var introVisible: bool
    /** The arm delay of the latest round. */
    var lastDelay: int

    /**
     * What the handlers keep true between steps of a round: each timer
     * belongs to its phase and the reaction times are those of the signalled
     * round.
     */
    ghost predicate Inv()
      reads this
    {
      && (armTimer.Some? ==> state == Armed && ARM_BASE <= armTimer.value < ARM_BASE + ARM_SPREAD)
      && (finalizeTimer.Some? ==> state == Go && finalizeTimer.value == FINALIZE_WAIT)
      && (state == Armed ==> armTimer.Some?)
      && (state == Go ==> finalizeTimer.Some? && foul.None?)
      && (state == Idle || state == Armed ==> p1Time.None? && p2Time.None? && foul.None?)
      && (foul.Some? ==> state == Finished)
      && (p1Time.Some? ==> p1Time.value >= 0.0)
      && (p2Time.Some? ==> p2Time.value >= 0.0)
      && p1Score >= 0 && p2Score >= 0
    }

    /** Between handlers, in addition: once both reactions are in, the round is already over. */
    ghost predicate Valid()
      reads this
    {
      Inv() && (state == Go ==> !(p1Time.Some? && p2Time.Some?))
    }

    /** The current state as a value. */
    function Snapshot(): Round
      reads this
    {
      Round(drawn, state, p1Score, p2Score, p1Time, p2Time, foul, startTime, armTimer, finalizeTimer, introVisible,
        lastDelay)
    }

    /** Page load: both scores 0, idle, the intro shown when the page has one. */
    constructor(rand: nat -> Fraction, hasIntro: bool)
      ensures Valid()
      ensures this.rand == rand && drawn == 0
      ensures state == Idle && p1Score == 0 && p2Score == 0
      ensures p1Time.None? && p2Time.None? && foul.None?
      ensures armTimer.None? && finalizeTimer.None?
      ensures introVisible == hasIntro
    {
      this.rand := rand;
      drawn := 0;
      state := Idle;
      p1Score, p2Score := 0, 0;
      p1Time, p2Time, foul := None, None, None;
      startTime := 0.0;
      armTimer, finalizeTimer := None, None;
      introVisible := hasIntro;
      lastDelay := 0;
    }

    /** The next draw of `Math.random()`. */
    method Random() returns (r: Fraction)
      modifies this`drawn
      ensures r == rand(old(drawn)) && drawn == old(drawn) + 1
    {
      r := rand(drawn);
      drawn := drawn + 1;
    }

    /** `clearTimers`: neither timer is pending afterwards. */
    method ClearTimers()
      modifies this`armTimer, this`finalizeTimer
      ensures armTimer.None? && finalizeTimer.None?
    {
      armTimer := None;
      finalizeTimer := None;
    }

    /** `resetRoundUI`: the round's times and foul are forgotten. */
    method ResetRound()
      modifies this`p1Time, this`p2Time, this`foul
      ensures p1Time.None? && p2Time.None? && foul.None?
    {
      p1Time, p2Time, foul := None, None, None;
    }

    /** `startRound`: ignored while a round is armed or signalled; otherwise arms a fresh round. */
    method StartRound()
      requires Valid()
      modifies this`drawn, this`state, this`armTimer, this`finalizeTimer, this`p1Time, this`p2Time, this`foul,
        this`lastDelay
      ensures Valid()
      ensures p1Score == old(p1Score) && p2Score == old(p2Score)
      ensures old(state) == Armed || old(state) == Go ==>
        state == old(state) && armTimer == old(armTimer) && finalizeTimer == old(finalizeTimer) &&
        p1Time == old(p1Time) && p2Time == old(p2Time) && drawn == old(drawn) && foul == old(foul) &&
        lastDelay == old(lastDelay)
      ensures old(state) == Idle || old(state) == Finished ==>
        && state == Armed && p1Time.None? && p2Time.None? && foul.None?
        && drawn == old(drawn) + 1 && lastDelay == ArmDelay(rand(old(drawn)))
        && armTimer == Some(lastDelay) && finalizeTimer.None?
    {
      if state == Armed || state == Go {
        return;
      }
      ClearTimers();
      ResetRound();
      state := Armed;
      var r := Random();
      lastDelay := ArmDelay(r);
      armTimer := Some(lastDelay);
    }

    /** `signalGo`: the clock is read, the round is open for reactions, and the 3000 ms wait starts. */
    method SignalGo(now: real)
      requires Valid() && state == Armed
      modifies this`startTime, this`state, this`finalizeTimer, this`armTimer
      ensures Valid()
      ensures startTime == now && state == Go && finalizeTimer == Some(FINALIZE_WAIT) && armTimer.None?
    {
      startTime := now;
      state := Go;
      // The arm timer has just fired, so it is no longer pending.
      armTimer := None;
      finalizeTimer := Some(FINALIZE_WAIT);
    }

    /** The arm timer expires at `now`: the signal goes up if the timer is still pending. */
    method ArmTimerFires(now: real)
      requires Valid()
      modifies this`startTime, this`state, this`finalizeTimer, this`armTimer
      ensures Valid()
      ensures old(armTimer).Some? ==> state == Go && startTime == now && finalizeTimer == Some(FINALIZE_WAIT)
      ensures old(armTimer).None? ==> state == old(state) && finalizeTimer == old(finalizeTimer) && armTimer.None?
    {
      if armTimer.Some? {
        SignalGo(now);
      }
    }

    /** `onFoul(player)`: the round ends at once and the other player gets the point. */
    method OnFoul(player: Player)
      requires Valid()
      modifies this`foul, this`state, this`armTimer, this`finalizeTimer, this`p1Score, this`p2Score
      ensures Valid()
      ensures foul == Some(player) && state == Finished && armTimer.None? && finalizeTimer.None?
      ensures p1Score == old(p1Score) + FoulAward(player).0 && p2Score == old(p2Score) + FoulAward(player).1
    {
      foul := Some(player);
      state := Finished;
      ClearTimers();
      if player == P1 {
        p2Score := p2Score + 1;
      } else {
        p1Score := p1Score + 1;
      }
    }

    /**
     * `finalizeRound`: once per round. A foul has already been scored; otherwise
     * the reaction times decide by Award, and no reaction scores nothing.
     */
    method FinalizeRound()
      requires Inv()
      modifies this`state, this`armTimer, this`finalizeTimer, this`p1Score, this`p2Score
      ensures Valid()
      ensures old(state) == Finished ==>
        state == Finished && p1Score == old(p1Score) && p2Score == old(p2Score) &&
        armTimer == old(armTimer) && finalizeTimer == old(finalizeTimer)
      ensures old(state) != Finished ==> state == Finished && armTimer.None? && finalizeTimer.None?
      ensures old(state) != Finished && foul.None? ==>
        p1Score == old(p1Score) + Award(p1Time, p2Time).0 && p2Score == old(p2Score) + Award(p1Time, p2Time).1
      ensures old(state) != Finished ==> foul.None?
    {
      if state == Finished {
        return;
      }
      ClearTimers();
      state := Finished;
      if foul.Some? {
        return;
      }
      if p1Time.None? && p2Time.None? {
        return;
      }
      if p1Time.Some? && p2Time.Some? {
        if p1Time.value < p2Time.value {
          p1Score := p1Score + 1;
        } else if p2Time.value < p1Time.value {
          p2Score := p2Score + 1;
        }
      } else if p1Time.Some? {
        p1Score := p1Score + 1;
      } else {
        p2Score := p2Score + 1;
      }
    }

    /** The 3000 ms wait after the signal ends: the round is decided if the timer is still pending. */
    method FinalizeTimerFires()
      requires Valid()
      modifies this`state, this`armTimer, this`finalizeTimer, this`p1Score, this`p2Score
      ensures Valid()
      ensures old(finalizeTimer).Some? ==>
        state == Finished && p1Score == old(p1Score) + Award(p1Time, p2Time).0 &&
        p2Score == old(p2Score) + Award(p1Time, p2Time).1
      ensures old(finalizeTimer).None? ==>
        state == old(state) && p1Score == old(p1Score) && p2Score == old(p2Score)
    {
      if finalizeTimer.Some? {
        FinalizeRound();
      }
    }

    /**
     * `recordReaction(player)` at clock reading `now`: only during the signal,
     * only a player's first reaction counts, and the second reaction of the
     * round decides it at once.
     */
    method RecordReaction(player: Player, now: real)
      requires Valid()
      modifies this`p1Time, this`p2Time, this`state, this`armTimer, this`finalizeTimer, this`p1Score, this`p2Score
      ensures Valid()
      ensures foul == old(foul) && startTime == old(startTime)
      ensures old(state) != Go ==> Snapshot() == old(Snapshot())
      ensures old(state) == Go ==> Snapshot() == React(old(Snapshot()), player, now)
      ensures player == P1 ==> p2Time == old(p2Time)
      ensures player == P2 ==> p1Time == old(p1Time)
      ensures old(state) == Go ==>
        && (player == P1 && old(p1Time).None? ==> p1Time == Some(Elapsed(now, startTime)))
        && (player == P2 && old(p2Time).None? ==> p2Time == Some(Elapsed(now, startTime)))
        && ((player == P1 && old(p1Time).Some?) || (player == P2 && old(p2Time).Some?) ==>
              p1Time == old(p1Time) && p2Time == old(p2Time) && state == Go)
        && (p1Time.Some? && p2Time.Some? ==>
              state == Finished && p1Score == old(p1Score) + Award(p1Time, p2Time).0 &&
              p2Score == old(p2Score) + Award(p1Time, p2Time).1)
        && (!(p1Time.Some? && p2Time.Some?) ==>
              state == Go && p1Score == old(p1Score) && p2Score == old(p2Score) &&
              armTimer == old(armTimer) && finalizeTimer == old(finalizeTimer))
    {
      if state != Go {
        return;
      }
      var ms := Elapsed(now, startTime);
      if player == P1 {
        if p1Time.Some? {
          return;
        }
        p1Time := Some(ms);
      } else {
        if p2Time.Some? {
          return;
        }
        p2Time := Some(ms);
      }
      if p1Time.Some? && p2Time.Some? {
        FinalizeRound();
      }
    }

    /** `hideIntro`: the intro overlay goes away if it is showing. */
    method HideIntro()
      modifies this`introVisible
      ensures !introVisible
    {
      introVisible := false;
    }

    /**
     * The window keydown handler on the lower-cased key: Space hides a
     * visible intro, or else starts a round from idle or finished; A and L
     * are player 1 and player 2, a foul while armed and a reaction otherwise.
     */
    method KeyDown(key: string, now: real)
      requires Valid()
      modifies this`introVisible, this`drawn, this`state, this`armTimer, this`finalizeTimer, this`p1Time,
        this`p2Time, this`foul, this`lastDelay, this`p1Score, this`p2Score, this`startTime
      ensures Valid()
      ensures Snapshot() == WindowKey(rand, Text.Lower(key), now, old(Snapshot()))
      ensures var k := Text.Lower(key);
        && (k == " " && old(introVisible) ==> !introVisible && state == old(state) && drawn == old(drawn))
        && (k == " " && !old(introVisible) && (old(state) == Idle || old(state) == Finished) ==> state == Armed)
        && (k == " " ==> p1Score == old(p1Score) && p2Score == old(p2Score) && !introVisible)
        && (k == " " && (old(state) == Armed || old(state) == Go) ==> state == old(state))
        && ((k == "a" || k == "l") && old(state) == Armed ==>
              state == Finished && foul == Some(if k == "a" then P1 else P2) &&
              p1Score == old(p1Score) + FoulAward(if k == "a" then P1 else P2).0 &&
              p2Score == old(p2Score) + FoulAward(if k == "a" then P1 else P2).1)
        && ((k == "a" || k == "l") && old(state) != Armed && old(state) != Go ==>
              state == old(state) && p1Score == old(p1Score) && p2Score == old(p2Score))
        && (k != " " && k != "a" && k != "l" ==> Snapshot() == old(Snapshot()))
    {
      var k := Text.Lower(key);
      if k == " " {
        if introVisible {
          HideIntro();
          return;
        }
        if state == Idle || state == Finished {
          StartRound();
        }
        return;
      }
      if k == "a" {
        if state == Armed {
          OnFoul(P1);
        } else {
          RecordReaction(P1, now);
        }
      } else if k == "l" {
        if state == Armed {
          OnFoul(P2);
        } else {
          RecordReaction(P2, now);
        }
      }
    }

    /**
     * A key pressed on the focused intro panel: its own handler hides the
     * intro on Space, and the event then reaches the window handler too.
     */
    method PanelKeyDown(key: string, now: real)
      requires Valid()
      modifies this`introVisible, this`drawn, this`state, this`armTimer, this`finalizeTimer, this`p1Time,
        this`p2Time, this`foul, this`lastDelay, this`p1Score, this`p2Score, this`startTime
      ensures Valid()
      ensures key == " " || key == "Spacebar" || key == "Space" ==>
        Snapshot() == WindowKey(rand, Text.Lower(key), now, old(Snapshot()).(introVisible := false))
      ensures !(key == " " || key == "Spacebar" || key == "Space") ==>
        Snapshot() == WindowKey(rand, Text.Lower(key), now, old(Snapshot()))
      ensures key == "Spacebar" || key == "Space" ==> Snapshot() == old(Snapshot()).(introVisible := false)
      ensures key == " " && (old(state) == Idle || old(state) == Finished) ==> !introVisible && state == Armed
    {
      if key == " " || key == "Spacebar" || key == "Space" {
        HideIntro();
      }
      assert Text.Lower(" ") == " ";
      KeyDown(key, now);
    }

    /** The restart button: scores back to 0, no timers, idle, and the round forgotten. */
    method Restart()
      modifies this`p1Score, this`p2Score, this`armTimer, this`finalizeTimer, this`state, this`p1Time, this`p2Time,
        this`foul
      ensures Valid()
      ensures p1Score == 0 && p2Score == 0 && state == Idle
      ensures armTimer.None? && finalizeTimer.None? && p1Time.None? && p2Time.None? && foul.None?
    {
      p1Score, p2Score := 0, 0;
      ClearTimers();
      state := Idle;
      ResetRound();
    }
  }
}
