/** The congestion window that one ACK makes of the old one. */
module BbrCwnd {
  import opened Bbr
  import opened BbrProbeRtt
  import opened BbrWindow

  lemma DeductedExactly(cwnd: nat, losses: nat)
    requires losses == 0 || (cwnd < 0x8000_0000 && losses < 0x8000_0000)
    ensures DeductLosses(cwnd, losses) == Left(cwnd, losses)
  {
  }

  lemma ExactSum(x: nat)
    requires x < TWO32
    ensures U32(x) == x
  {
  }

  /** The target a call leaves behind: of the long-term rate while it is in use, of the estimate otherwise. */
  function TargetAfter(t: State): nat {
    TargetCwnd(t.path.minRtt, t.win.tsoGoal, if t.lt.useBw then t.lt.bw else t.path.maxBw, t.gain.cwnd)
  }

  /** It is the one the call itself works with. */
  lemma TargetUsed(s: State, e: Env, rs: Sample)
    ensures var w := Modelled(s, e, rs);
            Target(w, Bandwidth(w), w.gain.cwnd) == TargetAfter(Main(s, e, rs))
  {
    hide Modelled, Main, TargetCwnd, RecoverOrRestore, GrownCwnd;
    ModelledSaves(s, e, rs);
    CwndKeepsTarget(Modelled(s, e, rs), e, rs);
  }

  lemma CwndKeepsTarget(w: State, e: Env, rs: Sample)
    ensures var t := SetCwnd(w, e, rs, rs.ackedSacked, Bandwidth(w), w.gain.cwnd);
            && t.path.minRtt == w.path.minRtt && t.path.maxBw == w.path.maxBw && t.gain == w.gain && t.lt == w.lt
            && t.win.tsoGoal == w.win.tsoGoal
  {
    hide U32, DeductLosses, GrownCwnd, Target;
  }

  /** None of the words of the call wraps. */
  predicate Narrow(s: State, e: Env, rs: Sample) {
    && (rs.losses == 0 || (s.win.cwnd < 0x8000_0000 && rs.losses < 0x8000_0000))
    && s.win.cwnd + rs.ackedSacked < TWO32 && e.inFlight + 2 * rs.ackedSacked < TWO32
  }

  predicate Starting(s: State, e: Env) {
    e.caState == Recovery && s.win.prevCa != Recovery
  }

  /** Packets are conserved from the ACK that starts recovery to the next round, or to the end of recovery. */
  lemma ConservationRule(s: State, e: Env, rs: Sample)
    requires rs.ackedSacked > 0
    ensures var t := Main(s, e, rs);
            && t.win.prevCa == e.caState && !t.win.restoreCwnd
            && (t.win.conserving <==>
                  || Starting(s, e)
                  || (s.win.conserving && !(ValidSample(rs) && rs.priorDelivered >= s.path.nextRtt)
                      && !(InRecovery(s.win.prevCa) && !InRecovery(e.caState))))
            && (Starting(s, e) ==> t.path.nextRtt == e.delivered)
  {
    hide Modelled, Main, U32, DeductLosses, GrownCwnd, Target;
    ModelledSaves(s, e, rs);
    ConservedBefore(s, e, rs);
  }

  lemma ConservedBefore(s: State, e: Env, rs: Sample)
    ensures Modelled(s, e, rs).win.conserving ==
              (s.win.conserving && !(ValidSample(rs) && rs.priorDelivered >= s.path.nextRtt))
  {
    hide UpdateMinRtt, Paced, FilterBw, LtSampling, IsNextCyclePhase, AdvanceCycle, Target, ResetProbeBw, U32;
    var u := BeforeMinRtt(s, e, rs);
    MinRttSaves(u, e, rs);
    PacedEpisode(UpdateMinRtt(u, e, rs), e);
  }

  /** While nothing is restored and no packets are conserved, the window grows by what is acked: with a full
      pipe up to the target, before that without limit while it is below the target or hardly anything has
      been delivered. */
  lemma GrowthRule(s: State, e: Env, rs: Sample)
    requires rs.ackedSacked > 0 && Narrow(s, e, rs) && !Restoring(s.win, e)
    requires !Probing(s) && !Probing(Main(s, e, rs)) && !Main(s, e, rs).win.conserving
    ensures var t, left := Main(s, e, rs), Left(s.win.cwnd, rs.losses);
            var target := TargetAfter(t);
            t.win.cwnd == Min(e.cwndClamp, Max(CWND_MIN_TARGET,
                              if FullBwReached(t.gain) then Min(left + rs.ackedSacked, target)
                              else if left < target || e.delivered < TCP_INIT_CWND then left + rs.ackedSacked
                              else left))
  {
    hide Modelled, Main, U32, DeductLosses, Left, Target, TargetAfter;
    ModelledSaves(s, e, rs);
    DeductedExactly(s.win.cwnd, rs.losses);
    LeftBelow(s.win.cwnd, rs.losses);
    TargetUsed(s, e, rs);
    ExactSum(Left(s.win.cwnd, rs.losses) + rs.ackedSacked);
  }

  lemma LeftBelow(cwnd: nat, losses: nat)
    ensures Left(cwnd, losses) <= Max(cwnd, 1) && (losses == 0 ==> Left(cwnd, losses) == cwnd)
  {
  }

  /** The ordinary ACK: no losses, no recovery, no conservation. Such a call never shrinks the window below
      the target or the clamp, and grows it by exactly what is acked where it may grow. */
  lemma OrdinaryAck(s: State, e: Env, rs: Sample)
    requires rs.ackedSacked > 0 && rs.losses == 0 && Narrow(s, e, rs)
    requires !InRecovery(s.win.prevCa) && !InRecovery(e.caState) && !s.win.conserving && !s.win.restoreCwnd
    requires !Probing(s) && !Probing(Main(s, e, rs))
    ensures var t, cwnd := Main(s, e, rs), s.win.cwnd;
            var target := TargetAfter(t);
            if FullBwReached(t.gain) then
              t.win.cwnd >= Min(e.cwndClamp, Min(cwnd + rs.ackedSacked, target))
            else if cwnd < target || e.delivered < TCP_INIT_CWND then
              var target := TargetAfter(t);
            t.win.cwnd == Min(e.cwndClamp, Max(CWND_MIN_TARGET, cwnd + rs.ackedSacked))
            else t.win.cwnd >= Min(e.cwndClamp, cwnd)
  {
    hide Main, TargetAfter, Narrow;
    ConservationRule(s, e, rs);
    GrowthRule(s, e, rs);
  }

  /** The first ACK of recovery cuts the window to what was in flight before it. */
  lemma RecoveryStarts(s: State, e: Env, rs: Sample)
    requires rs.ackedSacked > 0 && Starting(s, e) && Narrow(s, e, rs) && !s.win.restoreCwnd
    requires !Probing(s) && !Probing(Main(s, e, rs))
    ensures Main(s, e, rs).win.cwnd == Min(e.cwndClamp, e.inFlight + rs.ackedSacked)
  {
    hide Modelled, Main, U32, DeductLosses, Target;
    ModelledSaves(s, e, rs);
    ExactSum(e.inFlight + rs.ackedSacked);
  }

  /** While packets are conserved the window is the larger of that and the old one less the losses. */
  lemma ConservedRound(s: State, e: Env, rs: Sample)
    requires rs.ackedSacked > 0 && !Starting(s, e) && Narrow(s, e, rs) && !Restoring(s.win, e)
    requires !Probing(s) && !Probing(Main(s, e, rs)) && Main(s, e, rs).win.conserving
    ensures Main(s, e, rs).win.cwnd ==
              Min(e.cwndClamp, Max(Left(s.win.cwnd, rs.losses), e.inFlight + rs.ackedSacked))
  {
    hide Modelled, Main, U32, DeductLosses, Left, Target;
    ModelledSaves(s, e, rs);
    DeductedExactly(s.win.cwnd, rs.losses);
    ExactSum(e.inFlight + rs.ackedSacked);
  }

  /** In PROBE_RTT the window is 4, as far as the clamp allows, unless packets are conserved. */
  lemma ProbingWindow(s: State, e: Env, rs: Sample)
    requires rs.ackedSacked > 0 && Probing(Main(s, e, rs)) && !Main(s, e, rs).win.conserving
    ensures Main(s, e, rs).win.cwnd == Min(CWND_MIN_TARGET, e.cwndClamp)
  {
    hide Modelled, Main, RecoverOrRestore, U32, Target;
    ModelledSaves(s, e, rs);
  }

  /** A call that acks nothing leaves the window and the state of recovery alone. */
  lemma NothingAcked(s: State, e: Env, rs: Sample)
    requires rs.ackedSacked == 0
    ensures Main(s, e, rs).win.cwnd == s.win.cwnd && Main(s, e, rs).win.prevCa == s.win.prevCa
  {
    hide Modelled, Main;
    ModelledSaves(s, e, rs);
  }
}
