/** What one ACK may do to the congestion window and the pacing rate. */
module BbrWindow {
  import opened Bbr
  import opened BbrRuns
  import opened BbrProbeRtt
  import opened BbrFullPipe

  /** The window respects the clamp; in PROBE_RTT it is at most 4; otherwise, unless packets are
      conserved, at least 4 where the clamp allows, and at most the target once the pipe is full. */
  lemma WindowBounds(s: State, e: Env, rs: Sample)
    requires rs.ackedSacked > 0
    ensures var w, t := Modelled(s, e, rs), Main(s, e, rs);
            && t.win.cwnd <= e.cwndClamp
            && (Probing(t) ==> t.win.cwnd <= CWND_MIN_TARGET)
            && (!Probing(t) && !t.win.conserving ==>
                  && t.win.cwnd >= Min(CWND_MIN_TARGET, e.cwndClamp)
                  && (FullBwReached(t.gain) ==>
                        t.win.cwnd <= Max(CWND_MIN_TARGET, Target(w, Bandwidth(w), w.gain.cwnd))))
  {
    hide UpdateModel, Paced, Target, U32, DeductLosses;
  }

  /** What is left of the window in use once the losses are deducted. */
  function Left(cwnd: nat, losses: nat): nat {
    if losses == 0 then cwnd else Max(1, cwnd - Min(cwnd, losses))
  }

  /** The largest of: the window less the losses, what was in flight before the ACK, and the saved window if
      it is being restored. */
  function Reference(w: Win, e: Env, rs: Sample, acked: nat): nat {
    Max(Max(Left(w.cwnd, rs.losses), e.inFlight + acked), if Restoring(w, e) then w.priorCwnd else 0)
  }

  lemma RecoveredBelow(w: Win, nextRtt: nat, e: Env, rs: Sample, acked: nat)
    requires w.cwnd < TWO32 && rs.losses < 0x8000_0000
    ensures RecoverOrRestore(w, nextRtt, e, rs, acked).cwnd <= Reference(w, e, rs, acked)
  {
    Deducted(w.cwnd, rs.losses);
    SumShrinks(e.inFlight + acked);
    hide U32, DeductLosses, Left;
  }

  /** An ACK for P packets leaves the window at most P above that. */
  lemma AckAddsAtMost(w: State, e: Env, rs: Sample, acked: nat, bw: nat, gain: nat)
    requires acked > 0 && w.win.cwnd < TWO32 && rs.losses < 0x8000_0000
    ensures SetCwnd(w, e, rs, acked, bw, gain).win.cwnd <=
              Max(CWND_MIN_TARGET, Reference(w.win, e, rs, acked) + acked)
  {
    RecoveredBelow(w.win, w.path.nextRtt, e, rs, acked);
    SumShrinks(RecoverOrRestore(w.win, w.path.nextRtt, e, rs, acked).cwnd + acked);
    hide U32, Target, RecoverOrRestore, Reference;
  }

  /** So an ACK for P packets releases at most 2P beyond what then is in flight, if the window was in full
      use and nothing is restored. */
  lemma AckReleasesAtMostTwice(w: State, e: Env, rs: Sample, acked: nat, bw: nat, gain: nat)
    requires acked > 0 && w.win.cwnd < TWO32 && rs.losses < 0x8000_0000
    requires !Restoring(w.win, e) && w.win.cwnd <= e.inFlight + acked + rs.losses
    ensures SetCwnd(w, e, rs, acked, bw, gain).win.cwnd <= Max(CWND_MIN_TARGET, e.inFlight + 2 * acked)
  {
    AckAddsAtMost(w, e, rs, acked, bw, gain);
    hide SetCwnd, Restoring;
  }

  lemma Deducted(cwnd: nat, losses: nat)
    requires cwnd < TWO32 && losses < 0x8000_0000
    ensures DeductLosses(cwnd, losses) <= Left(cwnd, losses)
  {
  }

  lemma SumShrinks(x: nat)
    ensures U32(x) <= x
  {
  }

  lemma StaysUnconserved(s: State, e: Env, rs: Sample)
    requires !s.win.conserving
    ensures !Modelled(s, e, rs).win.conserving
  {
    hide FilterBw, LtSampling, UpdateCycle, CheckFullBw, CheckDrain, UpdateMinRtt, Paced;
    BeforeKeepsWindow(s, e, rs);
    var u := BeforeMinRtt(s, e, rs);
    MinRttSaves(u, e, rs);
    PacedEpisode(UpdateMinRtt(u, e, rs), e);
  }

  lemma BeforeKeepsWindow(s: State, e: Env, rs: Sample)
    ensures BeforeMinRtt(s, e, rs).win.conserving ==> s.win.conserving
  {
    hide FilterBw, LtSampling, IsNextCyclePhase, AdvanceCycle, Target, ResetProbeBw, U32;
  }

  /** A call that acks nothing and is limited by the application leaves the window and the full-pipe count alone. */
  lemma QuietCall(s: State, e: Env, rs: Sample)
    requires rs.isAppLimited && rs.ackedSacked == 0
    ensures Main(s, e, rs) == Modelled(s, e, rs)
    ensures Main(s, e, rs).gain.fullBwCnt == s.gain.fullBwCnt
  {
    hide Main, Modelled;
    ModelledSaves(s, e, rs);
    MainCounts(s, e, rs);
  }

  /** There is an episode that loses the largest window a connection can have: it gives back 4. */
  lemma EpisodeLosesWindow() returns (s0: State, run: seq<Event>)
    ensures |run| == 2 && run[1].Acked? && run[1].e.cwndClamp == s0.win.cwnd == TWO32 - 1
    ensures EnvOk(run) && Episode(s0, run, 0, 1) && NoOverwrite(s0, run, 1)
    ensures Exec(s0, run).win.cwnd == CWND_MIN_TARGET
  {
    var e := Env(1, 1000, 0, 0, 0, 0, Open, TWO32 - 1, 1500, 1000000, 0, 0, 0, 1, 2);
    var rs := Sample(1, 1, 10, 1, 0, true, 0, 1);
    s0 := Init(e, 1000, TWO32 - 1, 0, 0);
    var a, b := Acked(e.(now := 10002), rs), Acked(e.(now := 10203), rs.(ackedSacked := 1));
    run := [a, b];
    TwoAcks(s0, a, b);
    SecondAckWraps(s0, a.e, rs, b.e, b.rs);
    hide *;
    StepIsMain(s0, a);
    StepIsMain(Step(s0, a), b);
    PrefixStep(s0, run, 0);
    PrefixStep(s0, run, 1);
    StartOfRun(s0, run);
  }

  lemma StartOfRun(s0: State, run: seq<Event>)
    ensures Exec(s0, run[..0]) == s0 && run[..|run|] == run
  {
  }

  lemma SecondAckWraps(s: State, e: Env, rs: Sample, f: Env, rt: Sample)
    requires !Probing(s) && !FullBwReached(s.gain) && !s.win.conserving && s.win.prevCa == f.caState == Open
    requires s.win.cwnd == f.cwndClamp == TWO32 - 1 && s.win.priorCwnd == 0
    requires rs.isAppLimited && rs.ackedSacked == 0 && Probing(Main(s, e, rs))
    requires rt.isAppLimited && rt.ackedSacked == 1 && rt.losses == 0 && f.delivered < TCP_INIT_CWND
    requires !Probing(Main(Main(s, e, rs), f, rt))
    ensures Main(Main(s, e, rs), f, rt).win.cwnd == CWND_MIN_TARGET
  {
    hide Main, Modelled, SetCwnd, Target;
    var t := Main(s, e, rs);
    QuietCall(s, e, rs);
    ModelledSaves(s, e, rs);
    StaysUnconserved(s, e, rs);
    MainCounts(t, f, rt);
    ModelledSaves(t, f, rt);
    StaysUnconserved(t, f, rt);
    WrapLosesWindow(Modelled(t, f, rt), f, rt);
  }
}
