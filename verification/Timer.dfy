/** The real-time timer (Timer.cpp) where no timerfd is available: sleep until the next tick, then count
    the ticks that have gone by. Time points and the interval count nanoseconds; the clock readings are
    parameters. `ticks` inside sleep is a 64-bit unsigned number and the two counters are 64-bit signed
    ones; their wrap-around is written out. */
module Timer {
  import Arith

  const WORD: int := 0x1_0000_0000_0000_0000

  /** A number reduced to 64 bits and read as a signed one. */
  function Signed(x: int): (r: int)
    ensures -WORD / 2 <= r < WORD / 2
  {
    if x % WORD < WORD / 2 then x % WORD else x % WORD - WORD
  }

  lemma SignedAdd(x: int, y: int)
    ensures Signed(Signed(x) + y) == Signed(x + y)
    ensures Signed(x + y % WORD) == Signed(x + y)
    ensures Signed(x) % WORD == x % WORD
  {
    var m := x % WORD;
    Arith.ModAdd(x, y, WORD);
    Arith.ModAdd(y, x, WORD);
    Arith.ModPlusMultiple(m + y, -1, WORD);
    Arith.ModPlusMultiple(m, -1, WORD);
    assert m % WORD == m;
  }

  lemma SignedExact(x: int)
    requires -WORD / 2 <= x < WORD / 2
    ensures Signed(x) == x
  {
    if x >= 0 { Arith.DivModUnique(x, WORD, 0, x); } else { Arith.DivModUnique(x, WORD, -1, x + WORD); }
  }

  /** The tick of number `m` of a schedule that began at `origin`, the first one having number 1. */
  function Tick(origin: int, interval: int, m: int): int { origin + m * interval }

  lemma TicksIncrease(origin: int, interval: int, i: int, j: int)
    requires interval > 0 && i < j
    ensures Tick(origin, interval, i) < Tick(origin, interval, j)
  {
    Arith.MulPositive(j - i, interval);
    assert (j - i) * interval == j * interval - i * interval;
  }

  /** `m` ticks have gone by, and just as many as `now` demands if any went by since there were `before`. */
  predicate Passed(origin: int, interval: int, before: nat, now: int, m: nat) {
    && m >= before && Tick(origin, interval, m + 1) >= now
    && (m > before ==> Tick(origin, interval, m) < now)
  }

  datatype Outcome = Slept | Overrun(count: int)

  datatype Phase = Stopped | Running

  class Timer {
    const interval: int
    const failOnOverrun: bool
    var state: Phase
    var nextTick: int
    var ticks: int
    var overruns: int

    // For the proof: when the schedule began, and how many sleeps and ticks there have been since.
    ghost var origin: int
    ghost var sleeps: nat
    ghost var passed: nat

    ghost predicate Valid()
      reads this
    {
      && interval > 0
      && nextTick == Tick(origin, interval, passed + 1)
      && ticks == Signed(passed) && overruns == Signed(passed - sleeps)
    }

    constructor (interval: int, failOnOverrun: bool)
      requires interval > 0
      ensures Valid() && state == Stopped && passed == 0 && sleeps == 0
      ensures this.interval == interval && this.failOnOverrun == failOnOverrun
    {
      this.interval, this.failOnOverrun := interval, failOnOverrun;
      state, nextTick, ticks, overruns := Stopped, 0, 0, 0;
      origin, sleeps, passed := -interval, 0, 0;
    }

    /** The first tick is one interval after the start: the set time `startAt`, if it is after the epoch,
        carried over from the wall clock `rt` to the steady clock, or else now. */
    method Start(startAt: int, rt: int, steady: int)
      requires Valid() && state == Stopped
      modifies this
      ensures Valid() && state == Running && passed == 0 && sleeps == 0 && ticks == 0 && overruns == 0
      ensures origin == if startAt > 0 then startAt - rt + steady else steady
    {
      ticks, overruns := 0, 0;
      var start := if startAt > 0 then startAt - rt + steady else steady;
      nextTick := start + interval;
      state := Running;
      origin, sleeps, passed := start, 0, 0;
    }

    method Stop()
      requires Valid() && state == Running
      modifies this
      ensures Valid() && state == Stopped && passed == old(passed) && sleeps == old(sleeps) && origin == old(origin)
    {
      state := Stopped;
    }

    /** `now` is the clock after waiting. The next tick ends up at the first tick of the schedule that is
        not before `now`. An overrun is reported, if at all, when the ticks counted are not exactly one. */
    method Sleep(now: int) returns (r: Outcome)
      requires Valid()
      modifies this`nextTick, this`ticks, this`overruns, this`sleeps, this`passed
      ensures Valid() && sleeps == old(sleeps) + 1
      ensures Passed(origin, interval, old(passed), now, passed) && nextTick >= now
      ensures var counted := (passed - old(passed)) % WORD;
              r == if failOnOverrun && counted != 1 then Overrun((counted - 1) % WORD) else Slept
    {
      hide Signed;
      var counted := 0;
      while nextTick < now
        invariant passed >= old(passed) && nextTick == Tick(origin, interval, passed + 1)
        invariant passed > old(passed) ==> Tick(origin, interval, passed) < now
        invariant counted == (passed - old(passed)) % WORD
        invariant ticks == old(ticks) && overruns == old(overruns) && sleeps == old(sleeps)
        decreases now - nextTick
      {
        Arith.ModAdd(passed - old(passed), 1, WORD);
        assert Tick(origin, interval, passed + 1) + interval == Tick(origin, interval, passed + 2);
        nextTick := nextTick + interval;
        counted := (counted + 1) % WORD;
        passed := passed + 1;
      }
      var late := (counted - 1) % WORD;
      CountersAdd(old(passed), passed, sleeps);
      overruns := Signed(overruns + late);
      ticks := Signed(ticks + counted);
      sleeps := sleeps + 1;
      LateWhenNotOne(counted);
      return if late > 0 && failOnOverrun then Overrun(late) else Slept;
    }
  }

  lemma LateWhenNotOne(counted: int)
    requires 0 <= counted < WORD
    ensures (counted - 1) % WORD > 0 <==> counted != 1
  {
    if counted == 0 { Arith.DivModUnique(-1, WORD, -1, WORD - 1); } else { Arith.DivModUnique(counted - 1, WORD, 0, counted - 1); }
  }

  lemma CountersAdd(before: nat, after: nat, sleeps: nat)
    requires before <= after
    ensures var counted := (after - before) % WORD;
            && Signed(Signed(before) + counted) == Signed(after)
            && Signed(Signed(before - sleeps) + (counted - 1) % WORD) == Signed(after - sleeps - 1)
  {
    hide Signed;
    var d := after - before;
    SignedAdd(before, d % WORD);
    SignedAdd(before, d);
    SignedAdd(before - sleeps, (d % WORD - 1) % WORD);
    SignedAdd(before - sleeps, d % WORD - 1);
    SignedAdd(before - sleeps - 1, d);
    assert before - sleeps + (d % WORD - 1) == before - sleeps - 1 + d % WORD;
  }

  // ---------------------------------------------------------------- what the counters mean

  /** Ticks are sleeps plus overruns: modulo 2^64 always, including after a sleep that counted no tick,
      where the unsigned `ticks - 1` wraps; as signed numbers as long as neither count reaches 2^63. */
  lemma TicksAreSleepsAndOverruns(passed: nat, sleeps: nat)
    ensures Signed(sleeps + Signed(passed - sleeps)) == Signed(passed)
    ensures passed < WORD / 2 && sleeps <= WORD / 2 ==> Signed(passed) == sleeps + Signed(passed - sleeps)
  {
    SignedAdd(passed - sleeps, sleeps);
    if passed < WORD / 2 && sleeps <= WORD / 2 {
      SignedExact(passed);
      SignedExact(passed - sleeps);
    }
  }

  /** How long after the tick it waited for a sleep ended; that tick is number `before + 1`. */
  function Late(origin: int, interval: int, before: nat, now: int): int { now - Tick(origin, interval, before + 1) }

  /** A sleep that ended late, by `l` nanoseconds, counts one tick and one for each whole interval of `l - 1`. */
  lemma TicksOfLateness(origin: int, interval: int, before: nat, now: int, m: nat)
    requires interval > 0 && Passed(origin, interval, before, now, m)
    ensures var l := Late(origin, interval, before, now);
            if l > 0 then m == before + 1 + (l - 1) / interval else m == before
  {
    var l := Late(origin, interval, before, now);
    if m > before {
      var d := m - before - 1;
      assert d * interval == m * interval - (before + 1) * interval;
      assert (d + 1) * interval == (m + 1) * interval - (before + 1) * interval;
      if d > 0 { Arith.MulPositive(d, interval); }
      Arith.DivModUnique(l - 1, interval, d, l - 1 - d * interval);
    }
  }

  /** Overruns are to be reported for two or more ticks and for nothing else. That is so exactly if the
      sleep ended after the tick it waited for, and not late by a positive multiple of 2^64 intervals: at
      the very tick nothing is counted and yet it is reported, and 2^64 + 1 ticks are counted as one. */
  lemma ReportedWhenLateExactly(origin: int, interval: int, before: nat, now: int, m: nat)
    requires interval > 0 && Passed(origin, interval, before, now, m)
    ensures var l := Late(origin, interval, before, now);
            ((m - before) % WORD != 1 <==> m - before >= 2) <==>
            l > 0 && ((l - 1) / interval == 0 || ((l - 1) / interval) % WORD != 0)
  {
    hide Late, Passed;
    TicksOfLateness(origin, interval, before, now, m);
  }

  /** A sleep that ends at the very tick it waited for: no tick is counted, and 2^64 - 1 overruns are reported. */
  method OverrunOnTheDot() returns (r: Outcome)
    ensures r == Overrun(WORD - 1)
  {
    var t := new Timer(10, true);
    t.Start(0, 0, 0);
    r := t.Sleep(10);
    TicksOfLateness(0, 10, 0, 10, t.passed);
  }

  // ---------------------------------------------------------------- many sleeps

  function Latest(nows: seq<int>): int
    requires nows != []
  {
    var x := nows[|nows| - 1];
    if |nows| == 1 then x else var y := Latest(nows[..|nows| - 1]); if x > y then x else y
  }

  lemma PassedUnique(origin: int, interval: int, before: nat, now: int, m: nat, m': nat)
    requires interval > 0 && Passed(origin, interval, before, now, m) && Passed(origin, interval, before, now, m')
    ensures m == m'
  {
    if m < m' && m + 1 < m' { TicksIncrease(origin, interval, m + 1, m'); }
    if m' < m && m' + 1 < m { TicksIncrease(origin, interval, m' + 1, m); }
  }

  lemma PassedLatest(origin: int, interval: int, before: nat, now: int, m: nat, now': int, m': nat)
    requires interval > 0 && Passed(origin, interval, before, now, m) && Passed(origin, interval, m, now', m')
    ensures Passed(origin, interval, before, if now' > now then now' else now, m')
  {
    if m < m' {
      TicksIncrease(origin, interval, m + 1, m' + 1);
      if m + 1 < m' { TicksIncrease(origin, interval, m + 1, m'); }
    }
  }

  /** Any number of sleeps: how many ticks have gone by depends only on the latest clock reading, not
      on how many sleeps there were or how late each was, so the schedule does not drift. */
  method SleepAll(t: Timer, nows: seq<int>)
    requires t.Valid() && nows != []
    modifies t`nextTick, t`ticks, t`overruns, t`sleeps, t`passed
    ensures t.Valid() && t.sleeps == old(t.sleeps) + |nows|
    ensures Passed(t.origin, t.interval, old(t.passed), Latest(nows), t.passed) && t.nextTick >= Latest(nows)
  {
    var i := 0;
    while i < |nows|
      invariant 0 <= i <= |nows| && t.Valid() && t.sleeps == old(t.sleeps) + i
      invariant i == 0 ==> t.passed == old(t.passed)
      invariant i > 0 ==> Passed(t.origin, t.interval, old(t.passed), Latest(nows[..i]), t.passed)
    {
      ghost var was := t.passed;
      var r := t.Sleep(nows[i]);
      assert nows[..i + 1][..i] == nows[..i];
      if i > 0 { PassedLatest(t.origin, t.interval, old(t.passed), Latest(nows[..i]), was, nows[i], t.passed); }
      i := i + 1;
    }
    assert nows[..i] == nows;
  }
}
