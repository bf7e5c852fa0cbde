/**
 iw_handler against the codec's interrupt flags.  The handler reads the flags once, serves what
 it has seen, and then clears everything with one write; the card can raise a flag at any time.
 Clearing all flags at once is what writing CSR1R is assumed to do.
 */
module Interrupts {
  import opened Runs

  datatype Source = Playback | Record

  datatype Handler = Away | Serving(seen: set<Source>)

  datatype Lines = Lines(
    flags: set<Source>,         // CSR3I[4] and CSR3I[5]; CSR1R[0] says whether there is any
    handler: Handler,           // what the handler has seen and not served yet
    // History
    raised: multiset<Source>, served: multiset<Source>,
    late: multiset<Source>      // raised on top of a flag, or while the handler is at work
  )

  const QUIET := Lines({}, Away, multiset{}, multiset{}, multiset{})

  datatype Step =
    | Raise(s: Source)          // the card exceeds a sample count
    | Look                      // the handler is called and reads CSR1R and CSR3I
    | Serve(s: Source)          // it calls the playback or the record handler
    | Clear                     // iw_clear_codec_interrupts

  predicate Enabled(l: Lines, s: Step) {
    match s
    case Raise(_) => true
    case Look => l.handler.Away? && l.flags != {}
    // playback comes first
    case Serve(x) => l.handler.Serving? && x in l.handler.seen && (x.Record? ==> Playback !in l.handler.seen)
    case Clear => l.handler == Serving({})
  }

  function Apply(l: Lines, s: Step): Lines
    requires Enabled(l, s)
  {
    match s
    case Raise(x) =>
      l.(flags := l.flags + {x}, raised := l.raised + multiset{x},
         late := l.late + if x in l.flags || l.handler.Serving? then multiset{x} else multiset{})
    case Look => l.(handler := Serving(l.flags))
    case Serve(x) => l.(handler := Serving(l.handler.seen - {x}), served := l.served + multiset{x})
    case Clear => l.(handler := Away, flags := {})
  }

  function Next(l: Lines, s: Step): Option<Lines> { if Enabled(l, s) then Some(Apply(l, s)) else None }

  /** Interrupts that will still be served: flagged, or seen by the handler. */
  function Due(l: Lines): set<Source> { if l.handler.Serving? then l.handler.seen else l.flags }

  ghost predicate Inv(l: Lines) {
    forall x: Source :: l.raised[x] == l.served[x] + l.late[x] + (if x in Due(l) then 1 else 0)
  }

  lemma InvStep(l: Lines, s: Step)
    requires Inv(l) && Enabled(l, s)
    ensures Inv(Apply(l, s))
  {
    var q := Apply(l, s);
    forall x: Source ensures q.raised[x] == q.served[x] + q.late[x] + (if x in Due(q) then 1 else 0) {
      assert l.raised[x] == l.served[x] + l.late[x] + (if x in Due(l) then 1 else 0);
    }
  }

  /** In every run each interrupt is served once, is still due, or is lost; and it is lost exactly
      if it came on top of its own flag or before the handler had cleared the ones before it. */
  lemma {:induction false} ServedOrLate(steps: seq<Step>)
    requires Exec(Next, QUIET, steps).Some?
    ensures var l := Exec(Next, QUIET, steps).value;
            forall x: Source :: l.raised[x] == l.served[x] + l.late[x] + (if x in Due(l) then 1 else 0)
  {
    if steps != [] {
      var init := steps[..|steps| - 1];
      ServedOrLate(init);
      InvStep(Exec(Next, QUIET, init).value, steps[|steps| - 1]);
    }
  }

  /** One such loss: a record interrupt that comes while a playback interrupt is being served. */
  lemma RecordLostBehindPlayback() returns (steps: seq<Step>)
    ensures Exec(Next, QUIET, steps).Some?
    ensures var l := Exec(Next, QUIET, steps).value;
            l.raised[Record] == 1 && l.served[Record] == 0 && l.handler.Away? && l.flags == {}
  {
    steps := [Raise(Playback), Look, Raise(Record), Serve(Playback)];
    var l1 := Apply(QUIET, Raise(Playback));
    var l2 := Apply(l1, Look);
    var l3 := Apply(l2, Raise(Record));
    var l4 := Apply(l3, Serve(Playback));
    Chain4(Next, QUIET, Raise(Playback), l1, Look, l2, Raise(Record), l3, Serve(Playback), l4);
    assert l4.handler.seen == {};
    ExecSnoc(Next, QUIET, steps, l4, Clear);
    steps := steps + [Clear];
  }
}
