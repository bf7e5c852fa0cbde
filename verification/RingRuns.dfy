/** Every run of the playback and of the record system is a run of the ring, so that what Ring and Progress say of
    the ring's runs holds of theirs. */
module RingRuns {
  import opened Runs
  import R = Ring
  import P = Playback
  import Rec = Record
  import Pr = Progress

  // Playback

  /** What a step of the playback system does to the ring. */
  function OfPlay(s: P.Step): seq<R.Step> {
    match s
    case Begin(t, d) => [R.Begin(t, |P.ToWrite(d)|)]
    case Reserve(t) => [R.Reserve(t)]
    case Copy(t) => [R.Copy(t)]
    case End(t) => [R.End(t)]
    case Quiet(r) => [r]
    case Swap => [R.HSwap]
    case Leave => [R.HLeave]
    case _ => []
  }

  function OfPlayRun(steps: seq<P.Step>): seq<R.Step> {
    if steps == [] then [] else OfPlayRun(steps[..|steps| - 1]) + OfPlay(steps[|steps| - 1])
  }

  lemma One(r: R.Ring, s: R.Step)
    requires R.Enabled(r, s)
    ensures Exec(R.Next, r, [s]) == Some(R.Apply(r, s))
  {
    ExecSnoc(R.Next, r, [], r, s);
    assert [] + [s] == [s];
  }

  lemma PlayStep(p: P.Play, s: P.Step)
    requires P.Enabled(p, s)
    ensures Exec(R.Next, p.ring, OfPlay(s)) == Some(P.Apply(p, s).ring)
  {
    hide R.Apply;
    match s
    case Begin(t, d) => One(p.ring, R.Begin(t, |P.ToWrite(d)|));
    case Reserve(t) => One(p.ring, R.Reserve(t));
    case Copy(t) => One(p.ring, R.Copy(t));
    case End(t) => One(p.ring, R.End(t));
    case Quiet(r) => One(p.ring, r);
    case _ => HandlerPlayStep(p, s);
  }

  lemma HandlerPlayStep(p: P.Play, s: P.Step)
    requires P.Enabled(p, s) && (s.Pad? || s.Swap? || s.Fill? || s.Leave? || s.Fetch?)
    ensures Exec(R.Next, p.ring, OfPlay(s)) == Some(P.Apply(p, s).ring)
  {
    hide R.Apply;
    match s
    case Pad => P.PadFrame(p);
    case Swap => One(p.ring, R.HSwap);
    case Fill => P.FillFrame(p);
    case Leave => One(p.ring, R.HLeave);
    case Fetch => P.FetchFrame(p);
  }

  lemma {:induction false} PlayRun(p: P.Play, steps: seq<P.Step>)
    requires Exec(P.Next, p, steps).Some?
    ensures Exec(R.Next, p.ring, OfPlayRun(steps)) == Some(Exec(P.Next, p, steps).value.ring)
  {
    if steps != [] {
      var init, s := steps[..|steps| - 1], steps[|steps| - 1];
      PlayRun(p, init);
      var q := Exec(P.Next, p, init).value;
      PlayStep(q, s);
      ExecAppend(R.Next, p.ring, OfPlayRun(init), q.ring, OfPlay(s));
    }
  }

  lemma {:induction false} ThreadPlayRun(steps: seq<P.Step>)
    requires forall s | s in steps :: P.OfThread(s)
    ensures |OfPlayRun(steps)| == |steps| && forall r | r in OfPlayRun(steps) :: Pr.Inner(r)
  {
    if steps != [] {
      ThreadPlayRun(steps[..|steps| - 1]);
      assert P.OfThread(steps[|steps| - 1]);
    }
  }

  lemma {:induction false} NoCallPlayRun(steps: seq<P.Step>)
    requires forall s | s in steps :: P.NoCall(s)
    ensures Pr.NoneBegin(OfPlayRun(steps))
  {
    if steps != [] {
      NoCallPlayRun(steps[..|steps| - 1]);
      assert P.NoCall(steps[|steps| - 1]);
    }
  }

  // Record

  function OfRec(s: Rec.Step): seq<R.Step> {
    match s
    case Begin(t, n) => [R.Begin(t, Rec.ToRead(n))]
    case Reserve(t) => [R.Reserve(t)]
    case Copy(t) => [R.Copy(t)]
    case End(t) => [R.End(t)]
    case Quiet(r) => [r]
    case Swap => [R.HSwap]
    case Leave => [R.HLeave]
    case Capture(b) => []
  }

  function OfRecRun(steps: seq<Rec.Step>): seq<R.Step> {
    if steps == [] then [] else OfRecRun(steps[..|steps| - 1]) + OfRec(steps[|steps| - 1])
  }

  lemma RecStep(p: Rec.Rec, s: Rec.Step)
    requires Rec.Enabled(p, s)
    ensures Exec(R.Next, p.ring, OfRec(s)) == Some(Rec.Apply(p, s).ring)
  {
    hide R.Apply;
    match s
    case Begin(t, n) => One(p.ring, R.Begin(t, Rec.ToRead(n)));
    case Reserve(t) => One(p.ring, R.Reserve(t));
    case Copy(t) => One(p.ring, R.Copy(t));
    case End(t) => One(p.ring, R.End(t));
    case Quiet(r) => One(p.ring, r);
    case Swap => One(p.ring, R.HSwap);
    case Leave => One(p.ring, R.HLeave);
    case Capture(b) => Rec.CaptureFrame(p, b);
  }

  lemma {:induction false} RecRun(p: Rec.Rec, steps: seq<Rec.Step>)
    requires Exec(Rec.Next, p, steps).Some?
    ensures Exec(R.Next, p.ring, OfRecRun(steps)) == Some(Exec(Rec.Next, p, steps).value.ring)
  {
    if steps != [] {
      var init, s := steps[..|steps| - 1], steps[|steps| - 1];
      RecRun(p, init);
      var q := Exec(Rec.Next, p, init).value;
      RecStep(q, s);
      ExecAppend(R.Next, p.ring, OfRecRun(init), q.ring, OfRec(s));
    }
  }

  lemma {:induction false} ThreadRecRun(steps: seq<Rec.Step>)
    requires forall s | s in steps :: Rec.OfThread(s)
    ensures |OfRecRun(steps)| == |steps| && forall r | r in OfRecRun(steps) :: Pr.Inner(r)
  {
    if steps != [] {
      ThreadRecRun(steps[..|steps| - 1]);
      assert Rec.OfThread(steps[|steps| - 1]);
    }
  }

  lemma {:induction false} NoCallRecRun(steps: seq<Rec.Step>)
    requires forall s | s in steps :: Rec.NoCall(s)
    ensures Pr.NoneBegin(OfRecRun(steps))
  {
    if steps != [] {
      NoCallRecRun(steps[..|steps| - 1]);
      assert Rec.NoCall(steps[|steps| - 1]);
    }
  }
}
