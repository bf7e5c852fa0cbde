/** The time stamp of a block: the number of samples the ring has gone through, in microseconds. */
module Clock {
  import opened Runs
  import R = Ring

  const TWO_64 := 0x1_0000_0000_0000_0000

  /** wr_total/4 * 10000 / 441 in 64-bit unsigned arithmetic, of a byte count that itself fits. */
  function SampleClock(total: nat): nat { total / 4 * 10000 % TWO_64 / 441 }

  /** What a caller could check: the product fits. */
  predicate Fits(total: nat) { total / 4 * 10000 < 0x1_0000_0000_0000_0000 }

  /** At 44100 samples a second, n samples last n * 10000 / 441 microseconds.  The clock is that
      time rounded down. */
  ghost predicate Accurate(clock: int, samples: int) {
    441 * clock <= 10000 * samples < 441 * (clock + 1)
  }

  /** So many samples last as long as that, give or take less than a microsecond. */
  ghost predicate AlmostExact(elapsed: int, samples: int) {
    0 <= elapsed && -441 < 441 * elapsed - 10000 * samples < 441
  }

  /** The clock is right to the microsecond exactly as long as the product fits 64 bits. */
  lemma AccurateWhileItFits(total: nat)
    ensures Accurate(SampleClock(total), total / 4) <==> Fits(total)
  {
    var product := total / 4 * 10000;
    var kept := product % TWO_64;
    assert 441 * (kept / 441) <= kept < 441 * (kept / 441 + 1);
    if !Fits(total) {
      assert kept <= product - TWO_64;
    }
  }

  /** After 1,844,674,407,370,956 samples, some 1300 years, the clock reads 19 microseconds. */
  lemma ClockWraps()
    ensures !Fits(4 * 1_844_674_407_370_956) && SampleClock(4 * 1_844_674_407_370_956) == 19
  {
  }

  lemma Monotone(a: nat, b: nat)
    requires a <= b && Fits(b)
    ensures Fits(a) && SampleClock(a) <= SampleClock(b)
  {
  }

  lemma {:induction false} TotalGrows(r: R.Ring, steps: seq<R.Step>)
    requires Exec(R.Next, r, steps).Some? && r.total == r.services * r.size
    ensures var q := Exec(R.Next, r, steps).value;
            q.size == r.size && q.total == q.services * q.size && q.total >= r.total && q.services >= r.services
  {
    if steps != [] {
      var init := steps[..|steps| - 1];
      TotalGrows(r, init);
      R.TotalStep(Exec(R.Next, r, init).value, steps[|steps| - 1]);
    }
  }

  /** Over every run of the ring: the clock never goes back, and between any two points of a run
      it advances by the time that the halves played (or recorded) in between last, give or take
      one microsecond, however long the run: rounding does not accumulate. */
  lemma NoDrift(size: nat, before: seq<R.Step>, after: seq<R.Step>)
    requires size % 4 == 0 && Exec(R.Next, R.Init(size), before).Some?
    requires Exec(R.Next, Exec(R.Next, R.Init(size), before).value, after).Some?
    requires Fits(Exec(R.Next, Exec(R.Next, R.Init(size), before).value, after).value.total)
    ensures var r := Exec(R.Next, R.Init(size), before).value;
            var q := Exec(R.Next, r, after).value;
            && Accurate(SampleClock(q.total), q.services * (size / 4))
            && AlmostExact(SampleClock(q.total) - SampleClock(r.total), (q.services - r.services) * (size / 4))
  {
    hide Accurate, AlmostExact, SampleClock, Fits, Exec, R.Next;
    var r := Exec(R.Next, R.Init(size), before).value;
    var q := Exec(R.Next, r, after).value;
    TotalGrows(R.Init(size), before);
    TotalGrows(r, after);
    Drift(r.total, q.total, r.services, q.services, size);
  }

  /** The same for two totals of whole halves. */
  lemma Drift(a: nat, b: nat, k: nat, l: nat, size: nat)
    requires a == k * size && b == l * size && a <= b && Fits(b) && size % 4 == 0
    ensures Accurate(SampleClock(b), l * (size / 4))
    ensures AlmostExact(SampleClock(b) - SampleClock(a), (l - k) * (size / 4))
  {
    Monotone(a, b);
    Quarter(k, size);
    Quarter(l, size);
    Elapsed(a, b);
    Difference(k, l, size / 4);
  }

  lemma Elapsed(a: nat, b: nat)
    requires a <= b && Fits(b)
    ensures var elapsed := SampleClock(b) - SampleClock(a);
            Accurate(SampleClock(b), b / 4) && -441 < 441 * elapsed - 10000 * (b / 4 - a / 4) < 441
  {
    Monotone(a, b);
    AccurateWhileItFits(a);
    AccurateWhileItFits(b);
  }

  lemma Difference(a: nat, b: nat, n: nat)
    ensures (b - a) * n == b * n - a * n
  {
  }

  lemma Quarter(k: nat, size: nat)
    requires size % 4 == 0
    ensures k * size / 4 == k * (size / 4)
  {
    assert size == 4 * (size / 4);
    assert k * size == 4 * (k * (size / 4));
  }
}
