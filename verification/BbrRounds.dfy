/** Packet-timed rounds do not overlap. */
module BbrRounds {
  import opened Bbr
  import opened BbrRuns
  import opened BbrProbeRtt

  /** Event i of the run is an ACK that begins a round. */
  ghost predicate BeginsRound(s0: State, run: seq<Event>, i: nat) {
    && i < |run| && run[i].Acked?
    && RoundBegins(Exec(s0, run[..i]).path, run[i].rs)
  }

  lemma MainMark(s: State, e: Env, rs: Sample)
    ensures var t := Main(s, e, rs);
            && (t.path.nextRtt == s.path.nextRtt || t.path.nextRtt == e.delivered)
            && (RoundBegins(s.path, rs) ==> t.path.nextRtt == e.delivered)
  {
    hide BeforeMinRtt, UpdateMinRtt, Paced, SetCwnd;
    var u := BeforeMinRtt(s, e, rs);
    BeforeMinRttFacts(s, e, rs);
    MinRttMark(u, e, rs);
    var v := UpdateMinRtt(u, e, rs);
    PacedEpisode(v, e);
    var w := Paced(v, e);
    CwndEpisode(w, e, rs, rs.ackedSacked, Bandwidth(w), w.gain.cwnd);
  }

  lemma MinRttMark(u: State, e: Env, rs: Sample)
    ensures var t := UpdateMinRtt(u, e, rs);
            t.path.nextRtt == u.path.nextRtt || t.path.nextRtt == e.delivered
  {
    hide U32, FilterExpired, TakeRtt, SaveCwnd, ProbeTicks, ResetMode;
    TakeRttKeepsRound(u.path, e, rs);
  }

  lemma OtherMark(s: State, ev: Event)
    requires !ev.Acked?
    ensures Step(s, ev).path.nextRtt == s.path.nextRtt
  {
    hide U32, U64, PacingRate, MeasureInterval, Consistent;
  }

  /** The mark for the next round never falls behind the deliveries at the last one. */
  lemma {:induction false} MarkStays(s0: State, run: seq<Event>, i: nat)
    requires EnvOk(run) && BeginsRound(s0, run, i)
    ensures Exec(s0, run).path.nextRtt >= run[i].e.delivered
    decreases |run|
  {
    hide Main, Step;
    var n := |run| - 1;
    var before, ev := run[..n], run[n];
    assert Exec(s0, run) == Step(Exec(s0, before), ev);
    assert run[..i] == before[..i];
    if i < n {
      MarkStays(s0, before, i);
    }
    if ev.Acked? {
      StepIsMain(Exec(s0, before), ev);
      MainMark(Exec(s0, before), ev.e, ev.rs);
    } else {
      OtherMark(Exec(s0, before), ev);
    }
  }

  /** In every run, an ACK that begins a round acknowledges a packet sent after everything that had been
      delivered when any earlier round began: rounds follow each other and never overlap. */
  lemma RoundsDoNotOverlap(s0: State, run: seq<Event>, i: nat, j: nat)
    requires EnvOk(run) && i < j && BeginsRound(s0, run, i) && BeginsRound(s0, run, j)
    ensures run[j].rs.priorDelivered >= run[i].e.delivered
  {
    var before := run[..j];
    assert before[..i] == run[..i];
    MarkStays(s0, before, i);
  }
}
