/** The minimum round-trip time: what one call does to it and what it is after a run. */
module BbrMinRtt {
  import opened Bbr
  import opened BbrRuns
  import opened BbrProbeRtt

  /** The last steps of a call leave the model of the path alone, but for the mark of the next round. */
  lemma ActKeepsPath(v: State, e: Env, rs: Sample)
    ensures var w := Paced(v, e);
            var t := SetCwnd(w, e, rs, rs.ackedSacked, Bandwidth(w), w.gain.cwnd);
            && t.path == v.path.(nextRtt := t.path.nextRtt) && t.gain == v.gain && t.lt == v.lt && t.probe == v.probe
            && w.path == v.path && w.gain == v.gain && w.lt == v.lt && w.probe == v.probe
  {
    hide SetTsoGoal, SetPacingRate, RecoverOrRestore, GrownCwnd, Target;
  }

  lemma BeforeKeepsMinRtt(s: State, e: Env, rs: Sample)
    ensures var u := BeforeMinRtt(s, e, rs).path;
            u.minRtt == s.path.minRtt && u.minRttStamp == s.path.minRttStamp
  {
    hide U32, FilterBw, IsNextCyclePhase, Target, LtSampling, AdvanceCycle, ResetProbeBw;
  }

  lemma UpdateRule(u: State, e: Env, rs: Sample)
    ensures var p, t := u.path, UpdateMinRtt(u, e, rs);
            var taken := rs.rttUs >= 0 && (rs.rttUs <= p.minRtt || e.now > p.minRttStamp + 10 * e.hz);
            && t.path.minRtt == (if taken then U32(rs.rttUs) else p.minRtt)
            && t.path.minRttStamp == if taken || (Probing(u) && !Probing(t)) then e.now else p.minRttStamp
  {
    hide U32, SaveCwnd, ProbeTicks, ResetMode;
    ModeAfterReset(u.gain, e);
  }

  /** A sample is taken when it is no larger than the minimum or when the minimum is more than 10 seconds
      old; the stamp moves exactly then and when PROBE_RTT is left. */
  lemma MinRttRule(s: State, e: Env, rs: Sample)
    ensures var p, t := s.path, Main(s, e, rs);
            var taken := rs.rttUs >= 0 && (rs.rttUs <= p.minRtt || e.now > p.minRttStamp + 10 * e.hz);
            && t.path.minRtt == (if taken then U32(rs.rttUs) else p.minRtt)
            && t.path.minRttStamp == if taken || (Probing(s) && !Probing(t)) then e.now else p.minRttStamp
  {
    hide BeforeMinRtt, UpdateMinRtt, Paced, SetCwnd, U32;
    var u := BeforeMinRtt(s, e, rs);
    BeforeMinRttFacts(s, e, rs);
    BeforeKeepsMinRtt(s, e, rs);
    UpdateRule(u, e, rs);
    ActKeepsPath(UpdateMinRtt(u, e, rs), e, rs);
  }

  lemma OtherKeepsMinRtt(s: State, ev: Event)
    requires !ev.Acked?
    ensures Step(s, ev).path.minRtt == s.path.minRtt && Step(s, ev).path.minRttStamp == s.path.minRttStamp
  {
    hide U32, U64, PacingRate, LtSampling;
  }

  /** The minimum in use when event k comes is not more than 10 seconds old. */
  ghost predicate Young(s: State, run: seq<Event>, k: nat)
    requires k < |run| && run[k].Acked?
  {
    run[k].e.now <= Exec(s, run[..k]).path.minRttStamp + 10 * run[k].e.hz
  }

  ghost predicate NoneExpired(s: State, run: seq<Event>) {
    forall k | 0 <= k < |run| && run[k].Acked? :: Young(s, run, k)
  }

  /** Event k brings a round-trip time. */
  predicate HasRtt(run: seq<Event>, k: nat) {
    k < |run| && run[k].Acked? && run[k].rs.rttUs >= 0
  }

  /** m is the least of `first` and the round-trip times of the run. */
  ghost predicate IsLeast(m: nat, first: nat, run: seq<Event>) {
    && m <= first && (forall k: nat | HasRtt(run, k) :: m <= run[k].rs.rttUs)
    && (m == first || exists k: nat :: HasRtt(run, k) && run[k].rs.rttUs == m)
  }

  lemma LeastOn(m: nat, first: nat, run: seq<Event>, next: nat)
    requires run != [] && IsLeast(m, first, run[..|run| - 1])
    requires var n := |run| - 1;
             next == if HasRtt(run, n) && run[n].rs.rttUs <= m then run[n].rs.rttUs else m
    ensures IsLeast(next, first, run)
  {
    var n := |run| - 1;
    forall k: nat | HasRtt(run, k) ensures next <= run[k].rs.rttUs {
      if k < n {
        assert HasRtt(run[..n], k);
      }
    }
    if next != first && next == m {
      var k: nat :| HasRtt(run[..n], k) && run[..n][k].rs.rttUs == m;
      assert HasRtt(run, k) && run[k].rs.rttUs == m;
    }
  }

  lemma NoneExpiredBefore(s: State, run: seq<Event>)
    requires run != [] && NoneExpired(s, run)
    ensures NoneExpired(s, run[..|run| - 1])
  {
    hide Exec;
    var before := run[..|run| - 1];
    forall k | 0 <= k < |before| && before[k].Acked? ensures Young(s, before, k) {
      assert Young(s, run, k) && before[..k] == run[..k];
    }
  }

  /** While the minimum does not expire it is the least of the initial one and all round-trip times since. */
  lemma {:induction false} MinRttIsLeast(s: State, run: seq<Event>)
    requires s.path.minRtt < TWO32 && NoneExpired(s, run)
    ensures IsLeast(Exec(s, run).path.minRtt, s.path.minRtt, run)
  {
    hide Step, Main;
    if run == [] {
      assert IsLeast(s.path.minRtt, s.path.minRtt, run);
    } else {
      var n := |run| - 1;
      var before, ev := run[..n], run[n];
      NoneExpiredBefore(s, run);
      MinRttIsLeast(s, before);
      var u := Exec(s, before);
      assert Exec(s, run) == Step(u, ev);
      if ev.Acked? {
        assert Young(s, run, n);
        StepIsMain(u, ev);
        MinRttRule(u, ev.e, ev.rs);
        assert ev.rs.rttUs >= 0 && ev.rs.rttUs <= u.path.minRtt ==> U32(ev.rs.rttUs) == ev.rs.rttUs;
      } else {
        OtherKeepsMinRtt(u, ev);
      }
      hide Exec, IsLeast;
      LeastOn(u.path.minRtt, s.path.minRtt, run, Exec(s, run).path.minRtt);
    }
  }

  /** Only an ACK that finds the minimum more than 10 seconds old makes it larger, and then it is that ACK's
      round-trip time. */
  lemma MinRttRises(s: State, ev: Event)
    requires s.path.minRtt < TWO32 && Step(s, ev).path.minRtt > s.path.minRtt
    ensures ev.Acked? && ev.e.now > s.path.minRttStamp + 10 * ev.e.hz
    ensures ev.rs.rttUs > s.path.minRtt && Step(s, ev).path.minRtt == U32(ev.rs.rttUs)
  {
    hide Step, Main;
    if ev.Acked? {
      StepIsMain(s, ev);
      MinRttRule(s, ev.e, ev.rs);
    } else {
      OtherKeepsMinRtt(s, ev);
    }
  }
}
