/** What the arbiter believes and what it has said, against everything it has heard. */
module ArbiterLaws {
  import opened Wrappers
  import opened Signals
  import opened PriorityChain
  import BusArbiter

  type Arb = BusArbiter.Arb

  const AtStart: Arb := BusArbiter.Arb(false, false, false, false)

  /** The arbiter after the messages, and what it has written by then. */
  function Heard(ms: seq<Msg>): Arb {
    if ms == [] then AtStart else BusArbiter.Receive(Heard(ms[..|ms| - 1]), ms[|ms| - 1]).arb
  }

  function Said(ms: seq<Msg>): seq<Msg> {
    if ms == [] then []
    else
      var before := ms[..|ms| - 1];
      Said(before) + BusArbiter.Written(BusArbiter.Receive(Heard(before), ms[|ms| - 1]).out)
  }

  /** Whether the last message about a signal asserted it. */
  function Latest(ms: seq<Msg>, sig: Signal): bool {
    if ms == [] then false
    else if ms[|ms| - 1].sig == sig then ms[|ms| - 1].asserted
    else Latest(ms[..|ms| - 1], sig)
  }

  lemma LatestOf(ms: seq<Msg>, m: Msg, sig: Signal)
    ensures Latest(ms + [m], sig) == if m.sig == sig then m.asserted else Latest(ms, sig)
  {
    assert (ms + [m])[..|ms|] == ms;
  }

  lemma Reacts(a: Arb, m: Msg)
    ensures var r := BusArbiter.Receive(a, m);
            && r.arb.sack == (if m.sig == SACK then m.asserted else a.sack)
            && r.arb.bbsy == (if m.sig == BBSY then m.asserted else a.bbsy)
            && r.arb.outstandingBg ==
                 (if r.out.Some? && r.out.value.sig == BG then r.out.value.asserted else a.outstandingBg)
            && r.arb.outstandingNpg ==
                 if r.out.Some? && r.out.value.sig == NPG then r.out.value.asserted else a.outstandingNpg
  {
  }

  /** The arbiter believes the last thing it heard of SACK and of BBSY, and a grant is outstanding
      exactly if the last thing it said of it was to assert it. */
  lemma {:induction false} BelievesTheLatest(ms: seq<Msg>)
    ensures Heard(ms).sack == Latest(ms, SACK) && Heard(ms).bbsy == Latest(ms, BBSY)
    ensures Heard(ms).outstandingBg == Latest(Said(ms), BG) && Heard(ms).outstandingNpg == Latest(Said(ms), NPG)
  {
    if ms != [] {
      var before, m := ms[..|ms| - 1], ms[|ms| - 1];
      hide BusArbiter.Receive;
      BelievesTheLatest(before);
      Reacts(Heard(before), m);
      var out := BusArbiter.Receive(Heard(before), m).out;
      if out.Some? {
        LatestOf(Said(before), out.value, BG);
        LatestOf(Said(before), out.value, NPG);
      } else {
        assert Said(before) + [] == Said(before);
      }
    }
  }

  /** What it says next, from what was heard and said: a request is granted exactly if SACK was
      last heard negated; a SACK that was last heard negated ends one outstanding grant, a bus
      grant before a non-processor grant; nothing else is answered. */
  lemma SaysNext(ms: seq<Msg>, m: Msg)
    ensures var sack, bg, npg := Latest(ms, SACK), Latest(Said(ms), BG), Latest(Said(ms), NPG);
            Said(ms + [m]) == Said(ms) +
              if m.sig == BR && !sack then [Msg(ARBITER, BG, true)]
              else if m.sig == NPR && !sack then [Msg(ARBITER, NPG, true)]
              else if m.sig == SACK && m.asserted && !sack && bg then [Msg(ARBITER, BG, false)]
              else if m.sig == SACK && m.asserted && !sack && npg then [Msg(ARBITER, NPG, false)]
              else []
  {
    BelievesTheLatest(ms);
    assert (ms + [m])[..|ms|] == ms;
  }

  // In runs of the chain

  /** The messages the arbiter reads in a run. */
  ghost function ReadIn(s: Sys, es: seq<Event>, t: Sys): seq<Msg>
    requires IsRun(s, es, t)
    decreases |es|
  {
    if es == [] then []
    else (if es[0] == ArbRead then [s.arbQ[0]] else []) + ReadIn(Step(s, es[0]), es[1..], t)
  }

  lemma ArbAfter(s: Sys, e: Event)
    requires Enabled(s, e)
    ensures Step(s, e).arb == if e == ArbRead then BusArbiter.Receive(s.arb, s.arbQ[0]).arb else s.arb
  {
  }

  lemma HeardMore(ms: seq<Msg>, m: Msg)
    ensures Heard(ms + [m]) == BusArbiter.Receive(Heard(ms), m).arb
  {
    assert (ms + [m])[..|ms|] == ms;
  }

  lemma {:induction false} ReadsHeard(s: Sys, es: seq<Event>, t: Sys, ms: seq<Msg>)
    requires IsRun(s, es, t) && s.arb == Heard(ms)
    ensures t.arb == Heard(ms + ReadIn(s, es, t))
    decreases |es|
  {
    hide Step, Heard;
    if es == [] {
      assert ms + [] == ms;
    } else {
      var u := Step(s, es[0]);
      var m := if es[0] == ArbRead then [s.arbQ[0]] else [];
      ArbAfter(s, es[0]);
      if es[0] == ArbRead {
        HeardMore(ms, s.arbQ[0]);
      } else {
        assert ms + m == ms;
      }
      ReadsHeard(u, es[1..], t, ms + m);
      assert ms + m + ReadIn(u, es[1..], t) == ms + (m + ReadIn(u, es[1..], t));
    }
  }

  /** In every run the arbiter is what the messages it has read make of it. */
  lemma ArbiterIsHeard(n: nat, es: seq<Event>, t: Sys)
    requires IsRun(Init(n), es, t)
    ensures t.arb == Heard(ReadIn(Init(n), es, t))
    ensures t.arb.bbsy == Latest(ReadIn(Init(n), es, t), BBSY)
  {
    ReadsHeard(Init(n), es, t, []);
    var ms := ReadIn(Init(n), es, t);
    assert [] + ms == ms;
    BelievesTheLatest(ms);
  }
}
