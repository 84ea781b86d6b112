/**
 * The slot machine of 3d/games/game-4: three strips of 12 symbol images
 * scroll one symbol per step; a reel stops when its step counter runs out
 * (or a stop sets it to 0), shows its drawn final symbol in the centre, and
 * once all three have stopped the visible 3 by 3 window is judged row by
 * row on the images' file names.
 */
module Slot {
  import opened Options
  import Text

  /** The file names of the seven symbols. */
  const NAMES: seq<string> := ["plum.svg", "bar.svg", "orange.svg", "seven.svg", "watermelon.svg", "bell.svg",
    "cherry.svg"]
  /** Their image paths, in the same order. */
  const SYMBOLS: seq<string> := ["assets/plum.svg", "assets/bar.svg", "assets/orange.svg", "assets/seven.svg",
    "assets/watermelon.svg", "assets/bell.svg", "assets/cherry.svg"]
  const REELS: nat := 3
  const STRIP_LEN: nat := 12
  /** `Math.floor(strip.children.length / 2)` for a strip of 12. */
  const CENTER: nat := 6
  const SEVEN: string := "seven.svg"

  /** The index `Math.floor(Math.random() * SYMBOLS.length)` for the seven symbols. */
  function SymbolIndex(r: Fraction): (i: nat)
    ensures i < 7
  {
    (r * 7.0).Floor
  }

  /** A symbol drawn by `SYMBOLS[Math.floor(Math.random() * SYMBOLS.length)]`. */
  function SymbolOf(r: Fraction): string
  {
    SYMBOLS[SymbolIndex(r)]
  }

  /** Every draw lands on one of the symbols, and each symbol has a draw that lands on it. */
  lemma SymbolOfCovers(r: Fraction)
    ensures SymbolOf(r) in SYMBOLS
    ensures forall i :: 0 <= i < |SYMBOLS| ==> SymbolOf(i as real / 7.0) == SYMBOLS[i]
  {
    forall i | 0 <= i < |SYMBOLS|
      ensures SymbolOf(i as real / 7.0) == SYMBOLS[i]
    {
      assert (i as real / 7.0) * 7.0 == i as real;
    }
  }

  /** The step count of reel idx: `20 + idx * 8 + Math.floor(Math.random() * 12)`. */
  function StepCount(idx: nat, r: Fraction): (n: int)
    ensures 20 + 8 * idx <= n <= 31 + 8 * idx
  {
    20 + idx * 8 + (r * 12.0).Floor
  }

  /** Where the first `?` or `#` cuts `base`: its length when neither occurs. */
  function CutAt(base: string): (end: nat)
    ensures end <= |base|
  {
    var q, h := Text.IndexOf(base, '?'), Text.IndexOf(base, '#');
    var e := if q != -1 then q else |base|;
    if h != -1 && h < e then h else e
  }

  /** The cut falls on the first `?` or `#`, with neither before it. */
  lemma CutAtFirst(base: string)
    ensures var end := CutAt(base);
      && '?' !in base[..end] && '#' !in base[..end]
      && (end < |base| ==> base[end] == '?' || base[end] == '#')
      && (end == |base| <==> '?' !in base && '#' !in base)
  {
    Text.IndexOfFirst(base, '?');
    Text.IndexOfFirst(base, '#');
    var q, h := Text.IndexOf(base, '?'), Text.IndexOf(base, '#');
    var e := if q != -1 then q else |base|;
    var e' := CutAt(base);
    if q != -1 { NotInPrefix(base, '?', e', q); } else { NotInPrefix(base, '?', e', |base|); }
    if h != -1 { NotInPrefix(base, '#', e', if h < e then h else e); } else { NotInPrefix(base, '#', e', |base|); }
    if e' == |base| {
      assert base[..e'] == base;
    }
  }

  lemma {:induction false} NotInPrefix(s: string, c: char, i: nat, j: nat)
    requires i <= j <= |s| && (c !in s[..j] || (j == |s| && c !in s))
    ensures c !in s[..i]
  {
    forall k | 0 <= k < i
      ensures s[..i][k] != c
    {
      assert s[..i][k] == s[..j][k] == s[k];
    }
  }

  /**
   * `filename(p)` in `evaluate`: null for an empty path, otherwise the text
   * after the last `/`, cut at the first `?` or `#`, lower-cased.
   */
  function Basename(p: string): (b: Option<string>)
    ensures b.None? <==> p == ""
  {
    if p == "" then None
    else
      var base := Text.AfterLast(p, '/');
      Some(Text.Lower(base[..CutAt(base)]))
  }

  /** A name holds no `/`, `?` or `#` and no upper-case letter. */
  lemma {:induction false} BasenameClean(p: string)
    requires p != ""
    ensures var b := Basename(p).value;
      '/' !in b && '?' !in b && '#' !in b && forall i :: 0 <= i < |b| ==> !('A' <= b[i] <= 'Z')
  {
    var base := Text.AfterLast(p, '/');
    Text.AfterLastSuffix(p, '/');
    CutAtFirst(base);
    var cut := base[..CutAt(base)];
    var b := Basename(p).value;
    assert b == Text.Lower(cut);
    forall i | 0 <= i < |b|
      ensures b[i] != '/' && b[i] != '?' && b[i] != '#' && !('A' <= b[i] <= 'Z')
    {
      assert b[i] == Text.LowerChar(cut[i]);
      assert cut[i] == base[i] && cut[i] in cut;
    }
  }

  /** The text after the last `c` ignores everything up to a `c`. */
  lemma {:induction false} AfterLastPrefix(u: string, w: string, c: char)
    ensures Text.AfterLast(u + [c] + w, c) == Text.AfterLast(w, c)
    decreases |w|
  {
    var s := u + [c] + w;
    if w == [] {
      assert s[|s| - 1] == c;
    } else {
      assert s[..|s| - 1] == u + [c] + w[..|w| - 1];
      assert s[|s| - 1] == w[|w| - 1];
      AfterLastPrefix(u, w[..|w| - 1], c);
    }
  }

  /** A directory in front of a path does not change its name: `img.src` reads back as a full URL. */
  lemma {:induction false} BasenameUnderDir(dir: string, p: string)
    requires p != ""
    ensures Basename(dir + "/" + p) == Basename(p)
  {
    AfterLastPrefix(dir, p, '/');
    assert dir + "/" + p == dir + ['/'] + p;
  }

  /** A plain lower-case file name is its own name. */
  lemma {:induction false} BasenamePlain(name: string)
    requires name != "" && '/' !in name && '?' !in name && '#' !in name
    requires forall i :: 0 <= i < |name| ==> !('A' <= name[i] <= 'Z')
    ensures Basename(name) == Some(name)
  {
    Text.AfterLastSuffix(name, '/');
    CutAtFirst(name);
    assert name[..|name|] == name;
    assert Text.Lower(name) == name;
  }

  /** A file name in lower case without a `/`, `?` or `#`. */
  predicate Plain(n: string)
  {
    n != "" && forall k :: 0 <= k < |n| ==> 'a' <= n[k] <= 'z' || n[k] == '.'
  }

  lemma {:induction false} NamesPlain()
    ensures forall i :: 0 <= i < |NAMES| ==> Plain(NAMES[i])
  {
    assert Plain(NAMES[0]) && Plain(NAMES[1]) && Plain(NAMES[2]) && Plain(NAMES[3]);
    assert Plain(NAMES[4]) && Plain(NAMES[5]) && Plain(NAMES[6]);
  }

  lemma {:induction false} SymbolPaths()
    ensures forall i :: 0 <= i < |SYMBOLS| ==> SYMBOLS[i] == "assets" + "/" + NAMES[i]
  {
    assert SYMBOLS[0] == "assets" + "/" + NAMES[0] && SYMBOLS[1] == "assets" + "/" + NAMES[1];
    assert SYMBOLS[2] == "assets" + "/" + NAMES[2] && SYMBOLS[3] == "assets" + "/" + NAMES[3];
    assert SYMBOLS[4] == "assets" + "/" + NAMES[4] && SYMBOLS[5] == "assets" + "/" + NAMES[5];
    assert SYMBOLS[6] == "assets" + "/" + NAMES[6];
  }

  /** No two symbols share a file name. */
  lemma {:induction false} NamesDistinct()
    ensures forall i, j :: 0 <= i < |NAMES| && 0 <= j < |NAMES| && NAMES[i] == NAMES[j] ==> i == j
  {
    forall i, j | 0 <= i < |NAMES| && 0 <= j < |NAMES| && NAMES[i] == NAMES[j]
      ensures i == j
    {
      assert |NAMES[i]| == |NAMES[j]| && NAMES[i][0] == NAMES[j][0] && NAMES[i][1] == NAMES[j][1];
    }
  }

  /** Each symbol's name is its file name. */
  lemma {:induction false} SymbolNames()
    ensures forall i :: 0 <= i < |SYMBOLS| ==> Basename(SYMBOLS[i]) == Some(NAMES[i])
  {
    NamesPlain();
    SymbolPaths();
    forall i | 0 <= i < |SYMBOLS|
      ensures Basename(SYMBOLS[i]) == Some(NAMES[i])
    {
      var n := NAMES[i];
      assert Plain(n);
      BasenameUnderDir("assets", n);
      BasenamePlain(n);
    }
  }

  /** A name that counts in a row: JavaScript's truthiness of a string that is not null. */
  predicate Named(b: Option<string>)
  {
    b.Some? && b.value != ""
  }

  /** The picture the player sees in column col and visible row row: children 5, 6 and 7 of the strip. */
  function VisibleName(strip: seq<string>, row: nat): Option<string>
  {
    var k := |strip| / 2 - 1 + row;
    if 0 <= k < |strip| then Basename(strip[k]) else None
  }

  /** `visibleBasenames`: names[col][row] for the three strips and rows top, centre and bottom. */
  function Visible(strips: seq<seq<string>>): (names: seq<seq<Option<string>>>)
    requires |strips| == REELS
    ensures |names| == REELS && forall c :: 0 <= c < REELS ==> |names[c]| == 3
  {
    seq(REELS, c requires 0 <= c < REELS => seq(3, row requires 0 <= row < 3 => VisibleName(strips[c], row)))
  }

  /** Row row of the window has one non-empty name across all three columns. */
  predicate RowWins(names: seq<seq<Option<string>>>, row: nat)
    requires |names| == REELS && forall c :: 0 <= c < REELS ==> |names[c]| == 3
    requires row < 3
  {
    Named(names[0][row]) && names[1][row] == names[0][row] && names[2][row] == names[0][row]
  }

  /** What `evaluate` returns: the coins won and whether the win is shown as big. */
  datatype Outcome = Outcome(payout: int, bigWin: bool)

  /** The first winning row from row `from` down, if there is one. */
  function FirstWin(names: seq<seq<Option<string>>>, from: nat): (w: Option<nat>)
    requires |names| == REELS && forall c :: 0 <= c < REELS ==> |names[c]| == 3
    requires from <= 3
    ensures w.Some? ==> from <= w.value < 3 && RowWins(names, w.value)
    ensures w.Some? ==> forall r :: from <= r < w.value ==> !RowWins(names, r)
    ensures w.None? ==> forall r :: from <= r < 3 ==> !RowWins(names, r)
    decreases 3 - from
  {
    if from == 3 then None
    else if RowWins(names, from) then Some(from)
    else FirstWin(names, from + 1)
  }

  /** The payout rule: three sevens in a row pay 200 times the bet, any other three of a kind 30 times. */
  function Judge(names: seq<seq<Option<string>>>, bet: int): Outcome
    requires |names| == REELS && forall c :: 0 <= c < REELS ==> |names[c]| == 3
  {
    match FirstWin(names, 0)
    case None => Outcome(0, false)
    case Some(row) => if names[0][row].value == SEVEN then Outcome(bet * 200, true) else Outcome(bet * 30, true)
  }

  /** The judgement in words: whatever wins, the top-most winning row decides it; no win, no coins. */
  lemma {:induction false} JudgeRule(names: seq<seq<Option<string>>>, bet: int)
    requires |names| == REELS && forall c :: 0 <= c < REELS ==> |names[c]| == 3
    ensures (forall r :: 0 <= r < 3 ==> !RowWins(names, r)) <==> Judge(names, bet) == Outcome(0, false)
    ensures forall r :: 0 <= r < 3 && RowWins(names, r) && (forall q :: 0 <= q < r ==> !RowWins(names, q)) ==>
      Judge(names, bet) == Outcome(if names[0][r].value == SEVEN then 200 * bet else 30 * bet, true)
    ensures bet > 0 ==> (Judge(names, bet).payout > 0 <==> Judge(names, bet).bigWin)
  {
    var w := FirstWin(names, 0);
  }

  /** `evaluate`'s row loop: rows top to bottom, the first with three equal names pays. */
  method Evaluate(names: seq<seq<Option<string>>>, bet: int) returns (o: Outcome)
    requires |names| == REELS && forall c :: 0 <= c < REELS ==> |names[c]| == 3
    ensures o == Judge(names, bet)
  {
    for row := 0 to 3
      invariant FirstWin(names, 0) == FirstWin(names, row)
    {
      var a, b, c := names[0][row], names[1][row], names[2][row];
      if a.Some? && b.Some? && c.Some? && a.value != "" && b.value != "" && c.value != "" && a == b && b == c {
        if a.value == SEVEN {
          return Outcome(bet * 200, true);
        }
        return Outcome(bet * 30, true);
      }
    }
    return Outcome(0, false);
  }

  /** Where a reel is in its step chain; Idle before its first spin. */
  datatype Phase = Idle | Moving | Waiting | Done

  /**
   * A reel's controller and spin: the remaining steps, the drawn final
   * symbol, the result once stopped, and the pending callback: Moving waits
   * for the end of the scroll transition, Waiting for the 20 ms timeout
   * before the next `step()`.
   */
  datatype Reel = Reel(steps: int, final: string, result: Option<string>, phase: Phase)

  predicate Active(r: Reel)
  {
    r.phase == Moving || r.phase == Waiting
  }

  /** Every reel has its result: `results.filter(x => x !== undefined).length === reels.length`. */
  predicate AllStopped(reels: seq<Reel>)
    requires |reels| == REELS
  {
    reels[0].result.Some? && reels[1].result.Some? && reels[2].result.Some?
  }

  /** A reel's strip has 12 children; it has a result exactly when stopped, and then shows the final symbol. */
  predicate ReelOk(r: Reel, strip: seq<string>)
  {
    && |strip| == STRIP_LEN
    && (r.result.Some? <==> r.phase == Done)
    && (r.phase == Done ==> strip[CENTER] == r.final)
  }

  predicate AnyActive(reels: seq<Reel>)
    requires |reels| == REELS
  {
    Active(reels[0]) || Active(reels[1]) || Active(reels[2])
  }

  predicate NoneIdle(reels: seq<Reel>)
    requires |reels| == REELS
  {
    reels[0].phase != Idle && reels[1].phase != Idle && reels[2].phase != Idle
  }

  /**
   * The reels agree with their strips, and a spin is running exactly while
   * some reel is still scrolling, with every reel started.
   */
  predicate Coherent(strips: seq<seq<string>>, reels: seq<Reel>, spinning: bool)
  {
    && |strips| == REELS && |reels| == REELS
    && (forall c :: 0 <= c < REELS ==> ReelOk(reels[c], strips[c]))
    && (spinning <==> AnyActive(reels))
    && (spinning ==> NoneIdle(reels))
  }

  /** Stopping a waiting reel keeps the machine coherent, and the spin runs on until the last reel stops. */
  lemma SettleCoherent(strips: seq<seq<string>>, reels: seq<Reel>, idx: nat)
    requires Coherent(strips, reels, true) && idx < REELS && reels[idx].phase == Waiting
    ensures var r := reels[idx := reels[idx].(result := Some(reels[idx].final), phase := Done)];
      Coherent(strips[idx := strips[idx][CENTER := reels[idx].final]], r, !AllStopped(r))
  {
    var s' := strips[idx := strips[idx][CENTER := reels[idx].final]];
    var r := reels[idx := reels[idx].(result := Some(reels[idx].final), phase := Done)];
    forall c | 0 <= c < REELS
      ensures ReelOk(r[c], s'[c])
    {
      assert ReelOk(reels[c], strips[c]);
    }
  }

  /** Three reels that have all just started moving, none with a result. */
  predicate Launched(rs: seq<Reel>)
  {
    |rs| == REELS && forall c :: 0 <= c < REELS ==> rs[c].phase == Moving && rs[c].result.None?
  }

  /** Freshly launched reels are consistent with any strips and count as a running spin. */
  lemma LaunchedOk(rs: seq<Reel>, strips: seq<seq<string>>)
    requires Launched(rs) && |strips| == REELS
    requires forall c :: 0 <= c < REELS ==> |strips[c]| == STRIP_LEN
    ensures forall c :: 0 <= c < REELS ==> ReelOk(rs[c], strips[c])
    ensures AnyActive(rs) && NoneIdle(rs)
  {
    assert Active(rs[0]);
  }

  class Machine {
    /** The stream of `Math.random()` draws; `drawn` of them are used. */
    const rand: nat -> Fraction
    var drawn: nat
    /** Whether the fallbacks of `stopReelByIndex` report a stop; they depend on the page, not this script. */
    const fallbackStops: bool

    var coins: int
    var bet: int
    var spinning: bool
    /** The image path of each child of each strip, top to bottom. */
    var strips: seq<seq<string>>
    var reels: seq<Reel>
    /** reelControllers[i] !== null: the current controller of reel i is reachable for a stop. */
    var linked: seq<bool>
    var nextStop: int

    /**
     * The machine invariant: three strips of 12, coins and bet never
     * negative, a reel has a result exactly when it has stopped and then
     * shows its final symbol in the centre, and the machine is spinning
     * exactly while some reel still moves.
     */
    ghost predicate Valid()
      reads this`strips, this`reels, this`linked, this`nextStop, this`coins, this`bet, this`spinning
    {
      && Coherent(strips, reels, spinning) && |linked| == REELS
      && 0 <= nextStop <= REELS
      && coins >= 0 && bet >= 0
    }

    /** The strips of `initReels`: reel by reel, 12 drawn symbols each. */
    ghost function InitialStrips(d0: nat): (s: seq<seq<string>>)
      ensures |s| == REELS && forall c :: 0 <= c < REELS ==> |s[c]| == STRIP_LEN
    {
      seq(REELS, c requires 0 <= c < REELS =>
        seq(STRIP_LEN, k requires 0 <= k < STRIP_LEN => SymbolOf(rand(d0 + STRIP_LEN * c + k))))
    }

    /** Page load: 100 coins, bet 1, nothing spinning, and `initReels`. */
    constructor(rand: nat -> Fraction, fallbackStops: bool)
      ensures Valid()
      ensures this.rand == rand && this.fallbackStops == fallbackStops
      ensures coins == 100 && bet == 1 && !spinning && nextStop == 0
      ensures strips == InitialStrips(0) && drawn == REELS * STRIP_LEN
      ensures forall c :: 0 <= c < REELS ==> reels[c].phase == Idle && !linked[c]
    {
      this.rand := rand;
      this.fallbackStops := fallbackStops;
      drawn := 0;
      coins, bet, spinning := 100, 1, false;
      reels := [Reel(0, "", None, Idle), Reel(0, "", None, Idle), Reel(0, "", None, Idle)];
      linked := [false, false, false];
      nextStop := 0;
      strips := [];
      new;
      InitReels();
    }

    /** The next draw of `Math.random()`. */
    method Random() returns (r: Fraction)
      modifies this`drawn
      ensures r == rand(old(drawn)) && drawn == old(drawn) + 1
    {
      r := rand(drawn);
      drawn := drawn + 1;
    }

    /** `initReels`: every strip refilled with 12 drawn symbols, reel by reel. */
    method InitReels()
      requires drawn == 0
      modifies this`strips, this`drawn
      ensures strips == InitialStrips(0) && drawn == REELS * STRIP_LEN
    {
      var all: seq<seq<string>> := [];
      for c := 0 to REELS
        invariant drawn == STRIP_LEN * c && |all| == c
        invariant forall i :: 0 <= i < c ==> all[i] == InitialStrips(0)[i]
      {
        var strip: seq<string> := [];
        for k := 0 to STRIP_LEN
          invariant drawn == STRIP_LEN * c + k && |strip| == k
          invariant forall j :: 0 <= j < k ==> strip[j] == SymbolOf(rand(STRIP_LEN * c + j))
        {
          var r := Random();
          strip := strip + [SymbolOf(r)];
        }
        all := all + [strip];
      }
      strips := all;
    }

    /** The bet button: one more than the bet, but never more than the coins. */
    method BetButton()
      requires Valid()
      modifies this`bet
      ensures Valid()
      ensures bet == if old(coins) < old(bet) + 1 then old(coins) else old(bet) + 1
    {
      bet := if coins < bet + 1 then coins else bet + 1;
    }

    /** Reel c as a spin starts it, with its two draws taken from position d0 + 2c of the stream. */
    ghost function Started(d0: nat, c: nat): Reel
    {
      Reel(StepCount(c, rand(d0 + 2 * c)), SymbolOf(rand(d0 + 2 * c + 1)), None, Moving)
    }

    /** The reel loop of `spin`: per reel the step count, then the final symbol. */
    method DrawReels() returns (rs: seq<Reel>)
      modifies this`drawn
      ensures drawn == old(drawn) + 2 * REELS
      ensures |rs| == REELS && forall c :: 0 <= c < REELS ==> rs[c] == Started(old(drawn), c)
      ensures Launched(rs)
    {
      rs := [];
      for idx := 0 to REELS
        invariant drawn == old(drawn) + 2 * idx && |rs| == idx
        invariant forall c :: 0 <= c < idx ==> rs[c] == Started(old(drawn), c)
      {
        var r := Random();
        var steps := StepCount(idx, r);
        var f := Random();
        // steps is at least 20, so the first `step()` starts the scroll at once.
        rs := rs + [Reel(steps, SymbolOf(f), None, Moving)];
      }
    }

    /**
     * The spin button through the wrapper the page installs on `window.spin`:
     * the stop order and the controllers are reset on every press, then the
     * spin runs unless one is running or the coins do not cover the bet.
     */
    method Spin()
      requires Valid()
      modifies this`nextStop, this`linked, this`coins, this`spinning, this`reels, this`drawn
      ensures Valid()
      ensures nextStop == 0
      ensures old(spinning) || old(coins) < old(bet) ==>
        coins == old(coins) && spinning == old(spinning) && reels == old(reels) && drawn == old(drawn) &&
        linked == [false, false, false]
      ensures !old(spinning) && old(coins) >= old(bet) ==>
        && coins == old(coins) - old(bet) && spinning && drawn == old(drawn) + 2 * REELS
        && linked == [true, true, true] && forall c :: 0 <= c < REELS ==> reels[c] == Started(old(drawn), c)
    {
      nextStop := 0;
      linked := [false, false, false];
      if spinning || coins < bet {
        return;
      }
      Launch();
    }

    /** A spin that goes ahead: it pays the bet and starts all three reels. */
    method Launch()
      requires Valid() && !spinning && coins >= bet
      modifies this`linked, this`coins, this`spinning, this`reels, this`drawn
      ensures Valid()
      ensures coins == old(coins) - bet && spinning && drawn == old(drawn) + 2 * REELS
      ensures linked == [true, true, true] && forall c :: 0 <= c < REELS ==> reels[c] == Started(old(drawn), c)
    {
      coins := coins - bet;
      var started := DrawReels();
      // Each controller is registered as its reel starts; none is looked at before all three are.
      linked := [true, true, true];
      reels := started;
      spinning := true;
      LaunchedOk(reels, strips);
    }

    /** `controller.stop()`: the reel's remaining steps become 0. */
    method StopReel(i: nat) returns (ok: bool)
      requires Valid() && i < REELS
      modifies this`reels
      ensures Valid()
      ensures linked[i] ==> ok && reels == old(reels)[i := old(reels[i]).(steps := 0)]
      ensures !linked[i] ==> ok == fallbackStops && reels == old(reels)
    {
      if linked[i] {
        reels := reels[i := reels[i].(steps := 0)];
        return true;
      }
      return fallbackStops;
    }

    /** The Space key: stops the reels left to right, at most three, moving on only after a stop. */
    method StopKey(code: string, keyCode: int)
      requires Valid()
      modifies this`reels, this`nextStop
      ensures Valid()
      ensures nextStop == old(nextStop) || nextStop == old(nextStop) + 1
      ensures (code != "Space" && keyCode != 32) || old(nextStop) >= REELS ==>
        nextStop == old(nextStop) && reels == old(reels)
      ensures (code == "Space" || keyCode == 32) && old(nextStop) < REELS && linked[old(nextStop)] ==>
        nextStop == old(nextStop) + 1 && reels == old(reels)[old(nextStop) := old(reels[nextStop]).(steps := 0)]
      ensures (code == "Space" || keyCode == 32) && old(nextStop) < REELS && !linked[old(nextStop)] ==>
        reels == old(reels) && nextStop == old(nextStop) + (if fallbackStops then 1 else 0)
    {
      if code == "Space" || keyCode == 32 {
        if nextStop >= REELS {
          return;
        }
        var ok := StopReel(nextStop);
        if ok {
          nextStop := nextStop + 1;
        }
      }
    }

    /**
     * `step()` of reel idx: with steps left the scroll starts; otherwise
     * the final symbol goes to the centre child, the result is recorded, and
     * the last reel to stop ends the spin and pays what the window shows.
     */
    method Step(idx: nat)
      requires Valid() && idx < REELS && reels[idx].phase == Waiting
      modifies this`strips, this`reels, this`spinning, this`coins
      ensures Valid()
      ensures old(reels[idx].steps) > 0 ==>
        reels == old(reels)[idx := old(reels[idx]).(phase := Moving)] && strips == old(strips) &&
        coins == old(coins) && spinning == old(spinning)
      ensures old(reels[idx].steps) <= 0 ==>
        && strips == old(strips)[idx := old(strips[idx])[CENTER := old(reels[idx].final)]]
        && reels == old(reels)[idx := old(reels[idx]).(result := Some(old(reels[idx].final)), phase := Done)]
        && (AllStopped(reels) ==> !spinning && coins == old(coins) + Judge(Visible(strips), bet).payout)
        && (!AllStopped(reels) ==> spinning && coins == old(coins))
    {
      var reel := reels[idx];
      if reel.steps > 0 {
        reels := reels[idx := reel.(phase := Moving)];
        return;
      }
      Finish(idx);
    }

    /** The branch for a reel whose steps ran out: it stops, and the last reel to stop settles the spin. */
    method Finish(idx: nat)
      requires Valid() && idx < REELS && reels[idx].phase == Waiting
      modifies this`strips, this`reels, this`spinning, this`coins
      ensures Valid()
      ensures strips == old(strips)[idx := old(strips[idx])[CENTER := old(reels[idx].final)]]
      ensures reels == old(reels)[idx := old(reels[idx]).(result := Some(old(reels[idx].final)), phase := Done)]
      ensures AllStopped(reels) ==> !spinning && coins == old(coins) + Judge(Visible(strips), bet).payout
      ensures !AllStopped(reels) ==> spinning && coins == old(coins)
    {
      assert Active(reels[idx]);
      SettleCoherent(strips, reels, idx);
      Settle(idx);
      if AllStopped(reels) {
        Payout();
      }
    }

    /** A reel whose steps ran out shows its final symbol in the centre and records it as its result. */
    method Settle(idx: nat)
      requires Valid() && idx < REELS && reels[idx].phase == Waiting
      modifies this`strips, this`reels
      ensures strips == old(strips)[idx := old(strips[idx])[CENTER := old(reels[idx].final)]]
      ensures reels == old(reels)[idx := old(reels[idx]).(result := Some(old(reels[idx].final)), phase := Done)]
    {
      var reel := reels[idx];
      var strip := strips[idx][CENTER := reel.final];
      strips := strips[idx := strip];
      reels := reels[idx := reel.(result := Some(reel.final), phase := Done)];
    }

    /** Once the last reel has stopped: the spin ends and the judged payout, if any, is added to the coins. */
    method Payout()
      requires |strips| == REELS && coins >= 0 && bet >= 0
      modifies this`spinning, this`coins
      ensures !spinning && coins == old(coins) + Judge(Visible(strips), bet).payout && coins >= 0
    {
      spinning := false;
      JudgeRule(Visible(strips), bet);
      var o := Evaluate(Visible(strips), bet);
      if o.payout > 0 {
        coins := coins + o.payout;
      }
    }

    /**
     * The end of reel idx's scroll transition: the first child moves to the
     * end and gets a freshly drawn symbol, one step is counted off, and the
     * next `step()` is scheduled.
     */
    method TransitionEnd(idx: nat)
      requires Valid() && idx < REELS && reels[idx].phase == Moving
      modifies this`strips, this`reels, this`drawn
      ensures Valid()
      ensures |strips[idx]| == STRIP_LEN && strips[idx][..STRIP_LEN - 1] == old(strips[idx])[1..]
      ensures strips[idx][STRIP_LEN - 1] == SymbolOf(rand(old(drawn))) && drawn == old(drawn) + 1
      ensures forall c :: 0 <= c < REELS && c != idx ==> strips[c] == old(strips[c])
      ensures reels == old(reels)[idx := old(reels[idx]).(steps := old(reels[idx].steps) - 1, phase := Waiting)]
    {
      var strip := strips[idx];
      var rotated := strip[1..] + [strip[0]];
      var reel := reels[idx];
      reels := reels[idx := reel.(steps := reel.steps - 1, phase := Waiting)];
      var r := Random();
      strips := strips[idx := rotated[STRIP_LEN - 1 := SymbolOf(r)]];
    }

    /** The page delivers reel idx's pending callback, if it has one. */
    method Tick(idx: nat)
      requires Valid() && idx < REELS
      modifies this`strips, this`reels, this`spinning, this`coins, this`drawn
      ensures Valid()
      ensures !Active(old(reels[idx])) ==>
        reels == old(reels) && strips == old(strips) && coins == old(coins) && spinning == old(spinning) &&
        drawn == old(drawn)
      ensures old(reels[idx].phase) == Waiting && old(reels[idx].steps) > 0 ==>
        reels == old(reels)[idx := old(reels[idx]).(phase := Moving)] && strips == old(strips) &&
        coins == old(coins) && spinning == old(spinning) && drawn == old(drawn)
      ensures old(reels[idx].phase) == Waiting && old(reels[idx].steps) <= 0 ==>
        && strips == old(strips)[idx := old(strips[idx])[CENTER := old(reels[idx].final)]]
        && reels == old(reels)[idx := old(reels[idx]).(result := Some(old(reels[idx].final)), phase := Done)]
        && drawn == old(drawn)
        && (AllStopped(reels) ==> !spinning && coins == old(coins) + Judge(Visible(strips), bet).payout)
        && (!AllStopped(reels) ==> spinning && coins == old(coins))
      ensures old(reels[idx].phase) == Moving ==>
        && strips[idx][..STRIP_LEN - 1] == old(strips[idx])[1..]
        && strips[idx][STRIP_LEN - 1] == SymbolOf(rand(old(drawn))) && drawn == old(drawn) + 1
        && (forall c :: 0 <= c < REELS && c != idx ==> strips[c] == old(strips[c]))
        && reels == old(reels)[idx := old(reels[idx]).(steps := old(reels[idx].steps) - 1, phase := Waiting)]
        && coins == old(coins) && spinning == old(spinning)
      ensures coins != old(coins) ==> old(spinning) && !spinning && AllStopped(reels)
    {
      match reels[idx].phase {
        case Waiting => Step(idx);
        case Moving => TransitionEnd(idx);
        case Idle =>
        case Done =>
      }
    }
  }

  /** Once every reel has stopped, the centre row of the window is the three final symbols' names. */
  lemma {:induction false} CentreRowIsFinals(strips: seq<seq<string>>, reels: seq<Reel>)
    requires |strips| == REELS && (forall c :: 0 <= c < REELS ==> |strips[c]| == STRIP_LEN)
    requires |reels| == REELS
    requires forall c :: 0 <= c < REELS && reels[c].phase == Done ==> strips[c][CENTER] == reels[c].final
    requires forall c :: 0 <= c < REELS ==> reels[c].phase == Done
    ensures forall c :: 0 <= c < REELS ==> Visible(strips)[c][1] == Basename(reels[c].final)
  {
    forall c | 0 <= c < REELS
      ensures Visible(strips)[c][1] == Basename(reels[c].final)
    {
      assert Visible(strips)[c][1] == VisibleName(strips[c], 1);
    }
  }

  /** Strips that all show p in the centre have p's name across the centre row. */
  lemma CentreNames(strips: seq<seq<string>>, p: string)
    requires |strips| == REELS && (forall c :: 0 <= c < REELS ==> |strips[c]| == STRIP_LEN)
    requires forall c :: 0 <= c < REELS ==> strips[c][CENTER] == p
    ensures forall c :: 0 <= c < REELS ==> Visible(strips)[c][1] == Basename(p)
  {
    forall c | 0 <= c < REELS
      ensures Visible(strips)[c][1] == Basename(p)
    {
      assert Visible(strips)[c][1] == VisibleName(strips[c], 1);
    }
  }

  /** The seven's image path has the name `seven.svg`. */
  lemma SevenName()
    ensures Basename(SYMBOLS[3]) == Some(SEVEN)
  {
    SymbolNames();
    assert Basename(SYMBOLS[3]) == Some(NAMES[3]);
  }

  /** Three equal final symbols win in the centre row at least; sevens pay 200 times the bet. */
  lemma {:induction false} CentreSevensPay(strips: seq<seq<string>>, bet: int)
    requires |strips| == REELS && (forall c :: 0 <= c < REELS ==> |strips[c]| == STRIP_LEN)
    requires forall c :: 0 <= c < REELS ==> strips[c][CENTER] == SYMBOLS[3]
    requires !RowWins(Visible(strips), 0)
    ensures Judge(Visible(strips), bet) == Outcome(200 * bet, true)
  {
    SevenName();
    var names := Visible(strips);
    CentreNames(strips, SYMBOLS[3]);
    assert RowWins(names, 1);
    JudgeRule(names, bet);
  }
}
