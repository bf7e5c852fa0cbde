/**
 The codec's sample counter against the DMA's position in the ring: the driver has no other way
 to know which half the DMA is in than to count the counter's interrupts.
 */
module SampleCounter {
  import opened Runs
  import opened Ring

  const SAMPLE := 4                  // bytes: 16-bit stereo
  const WORD := 0x1_0000_0000

  /** sample_count: wr_size/4 - 1 as a size_t, then stored in a uint16. */
  function Loaded(size: nat): nat { (size / SAMPLE + WORD - 1) % WORD % 0x1_0000 }

  datatype Counting = Counting(
    size: nat,                       // bytes in a half
    half: Half, pos: nat,            // what the DMA moves next
    count: nat,                      // the sample counter
    pending: bool,                   // it has been exceeded, and the interrupt not been served
    cur: Half,                       // wr_cur or rd_cur
    moved: nat,                      // history: samples moved,
    services: nat, lost: nat         // interrupts served, and interrupts that never will be
  )

  /** The DMA starts in the first half, the driver in the second. */
  function Start(size: nat): Counting { Counting(size, One, 0, Loaded(size), false, Two, 0, 0, 0) }

  datatype Step =
    | Sample
    | Service
    | Clear      // the flag is cleared by a handler that has not served it

  predicate Enabled(c: Counting, s: Step) {
    match s
    case Sample => true
    case Service => c.pending
    case Clear => true
  }

  function Apply(c: Counting, s: Step): Counting
    requires Enabled(c, s)
  {
    match s
    case Sample =>
      var pos := c.pos + SAMPLE;
      c.(half := if pos >= c.size then Other(c.half) else c.half,
         pos := if pos >= c.size then pos - c.size else pos,
         // the interrupt fires when the loaded count is exceeded, not when it is reached; the flag
         // does not count
         count := if c.count == 0 then Loaded(c.size) else c.count - 1,
         pending := c.pending || c.count == 0,
         lost := c.lost + (if c.pending && c.count == 0 then 1 else 0),
         moved := c.moved + 1)
    case Service => c.(pending := false, cur := Other(c.cur), services := c.services + 1)
    case Clear => c.(pending := false, lost := c.lost + if c.pending then 1 else 0)
  }

  function Next(c: Counting, s: Step): Option<Counting> { if Enabled(c, s) then Some(Apply(c, s)) else None }

  /** The sizes for which the counter and the ring agree. */
  predicate Countable(size: nat) { size % SAMPLE == 0 && SAMPLE <= size <= 0x4_0000 }

  /** The interrupt comes once per half exactly for those sizes. */
  lemma PeriodIsHalf(size: nat)
    requires size < 0x1_0000_0000
    ensures 4 * (Loaded(size) + 1) == size <==> size % 4 == 0 && 4 <= size <= 0x4_0000
  {
    var q := size / SAMPLE;
    if q >= 1 {
      assert (q + WORD - 1) % WORD == q - 1;
    }
  }

  /** How often the counter has been exceeded. */
  function Fired(c: Counting): nat { c.services + c.lost + if c.pending then 1 else 0 }

  ghost predicate Placed(c: Counting) {
    && Countable(c.size)
    && c.count <= Loaded(c.size)
    && c.pos == SAMPLE * (Loaded(c.size) - c.count)
    && c.half == (if Fired(c) % 2 == 0 then One else Two)
    && c.cur == (if c.services % 2 == 0 then Two else One)
  }

  ghost predicate Inv(c: Counting) { Placed(c) && SAMPLE * c.moved == Fired(c) * c.size + c.pos }

  lemma PlacedStep(c: Counting, s: Step)
    requires Placed(c) && Enabled(c, s)
    ensures var d := Apply(c, s);
            && Placed(d) && d.size == c.size
            && (!s.Sample? ==> Fired(d) == Fired(c) && d.pos == c.pos && d.moved == c.moved)
            && (s.Sample? ==> d.moved == c.moved + 1
                              && if c.count == 0 then Fired(d) == Fired(c) + 1 && d.pos == 0 && c.pos + SAMPLE == c.size
                                 else Fired(d) == Fired(c) && d.pos == c.pos + SAMPLE)
  {
    PeriodIsHalf(c.size);
  }

  lemma InvStep(c: Counting, s: Step)
    requires Inv(c) && Enabled(c, s)
    ensures Inv(Apply(c, s))
  {
    PlacedStep(c, s);
    NextPeriod(Fired(c), c.size);
  }

  lemma NextPeriod(k: nat, size: nat)
    ensures (k + 1) * size == k * size + size
  {
  }

  lemma {:induction false} InvRun(size: nat, steps: seq<Step>, c: Counting)
    requires Countable(size) && Exec(Next, Start(size), steps) == Some(c)
    ensures Inv(c) && c.size == size
  {
    PeriodIsHalf(size);
    if steps != [] {
      var init := steps[..|steps| - 1];
      var b := Exec(Next, Start(size), init).value;
      InvRun(size, init, b);
      InvStep(b, steps[|steps| - 1]);
    }
  }

  /** In every run, whatever becomes of the interrupts: the k-th comes after exactly k * size bytes, and
      the driver's half is the one the DMA is in if and only if the number of interrupts that are
      waiting or have been lost is odd.  So as long as none is lost the driver's half is the DMA's just
      while one waits; and one that is lost puts the two out of step until another is lost. */
  lemma DriverAvoidsDma(size: nat, steps: seq<Step>, c: Counting)
    requires size % 4 == 0 && 4 <= size <= 0x4_0000 && Exec(Next, Start(size), steps) == Some(c)
    ensures var fired := c.services + c.lost + if c.pending then 1 else 0;
            fired * size <= 4 * c.moved < (fired + 1) * size
    ensures c.cur == c.half <==> (c.lost + if c.pending then 1 else 0) % 2 == 1
  {
    InvRun(size, steps, c);
    PeriodIsHalf(size);
    NextPeriod(Fired(c), size);
    Parity(c.services, c.lost + if c.pending then 1 else 0);
  }

  lemma Parity(a: nat, b: nat)
    ensures (a + b) % 2 == a % 2 <==> b % 2 == 0
  {
  }

  /** Two sizes for which the counter and the ring disagree: a half that is not whole samples, and one
      of 65537 samples, which is one too many for 16 bits.  Both interrupt after 4 bytes. */
  lemma Uncountable()
    ensures 4 * (Loaded(6) + 1) == 4 && 4 * (Loaded(0x4_0004) + 1) == 4
  {
  }
}
