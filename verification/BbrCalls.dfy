/** What one call does to the model of the path and to the mode, in terms of the state before it and what
    the call is given. */
module BbrCalls {
  import opened Bbr
  import opened BbrRuns
  import opened BbrProbeRtt
  import opened BbrMinRtt

  // ----- Rounds and the bandwidth estimate -----

  /** A round begins when a packet sent after the last one began has been acked. */
  ghost predicate NewRound(s: State, rs: Sample) {
    rs.delivered >= 0 && rs.intervalUs > 0 && rs.priorDelivered >= s.path.nextRtt
  }

  /** The mark for the next round moves when a round begins, when recovery starts and when the clock of
      PROBE_RTT starts; rounds are counted in 32 bits. */
  lemma RoundRule(s: State, e: Env, rs: Sample)
    ensures var t := Main(s, e, rs);
            && t.path.roundStart == NewRound(s, rs)
            && t.path.rttCnt == (if NewRound(s, rs) then U32(s.path.rttCnt + 1) else s.path.rttCnt)
            && t.path.nextRtt ==
                 if || NewRound(s, rs)
                    || (rs.ackedSacked > 0 && e.caState == Recovery && s.win.prevCa != Recovery)
                    || (Probing(t) && !(Probing(s) && s.probe.doneStamp != 0) && e.inFlight <= 4)
                 then e.delivered else s.path.nextRtt
  {
    hide BeforeMinRtt, UpdateMinRtt, Paced, SetCwnd, U32;
    var u := BeforeMinRtt(s, e, rs);
    BeforeMinRttFacts(s, e, rs);
    BeforeCounts(s, e, rs);
    MinRttKeepsEstimate(u, e, rs);
    MinRttMarks(u, e, rs);
    var v := UpdateMinRtt(u, e, rs);
    MinRttSaves(u, e, rs);
    PacedEpisode(v, e);
    ActKeepsPath(v, e, rs);
    CwndMarks(Paced(v, e), e, rs);
  }

  lemma BeforeCounts(s: State, e: Env, rs: Sample)
    ensures BeforeMinRtt(s, e, rs).path.rttCnt == if NewRound(s, rs) then U32(s.path.rttCnt + 1) else s.path.rttCnt
  {
    hide U32, FilterBw, IsNextCyclePhase, Target, LtSampling, AdvanceCycle, ResetProbeBw;
  }

  lemma MinRttMarks(u: State, e: Env, rs: Sample)
    ensures var t := UpdateMinRtt(u, e, rs);
            && t.path.rttCnt == u.path.rttCnt
            && t.path.nextRtt ==
                 if Probing(t) && !(Probing(u) && u.probe.doneStamp != 0) && e.inFlight <= 4
                 then e.delivered else u.path.nextRtt
  {
    hide U32, FilterExpired, SaveCwnd, ProbeTicks, ResetMode;
    ModeAfterReset(u.gain, e);
  }

  lemma CwndMarks(w: State, e: Env, rs: Sample)
    ensures SetCwnd(w, e, rs, rs.ackedSacked, Bandwidth(w), w.gain.cwnd).path.nextRtt ==
              if rs.ackedSacked > 0 && e.caState == Recovery && w.win.prevCa != Recovery
              then e.delivered else w.path.nextRtt
  {
    hide U32, DeductLosses, GrownCwnd, Target;
  }

  lemma MinRttKeepsEstimate(u: State, e: Env, rs: Sample)
    ensures var t := UpdateMinRtt(u, e, rs);
            t.path.maxBw == u.path.maxBw && t.path.roundStart == u.path.roundStart && t.lt == u.lt
  {
    hide U32, FilterExpired, SaveCwnd, ProbeTicks, ResetMode;
  }

  lemma BeforeEstimate(s: State, e: Env, rs: Sample)
    ensures BeforeMinRtt(s, e, rs).path.maxBw == UpdateBw(s, e, rs).path.maxBw
  {
    hide UpdateBw, IsNextCyclePhase, Target, AdvanceCycle, ResetProbeBw, U32;
  }

  /** The delivery rate of a sample. */
  function SampleRate(rs: Sample): nat
    requires rs.delivered >= 0 && rs.intervalUs > 0
  {
    U64(rs.delivered * BW_UNIT) / rs.intervalUs
  }

  /** A valid sample enters the filter unless the application limited it below the estimate; otherwise the
      estimate stays. */
  lemma FilterRule(s: State, e: Env, rs: Sample)
    ensures Main(s, e, rs).path.maxBw ==
              if rs.delivered >= 0 && rs.intervalUs > 0 && (rs.isAppLimited ==> SampleRate(rs) >= s.path.maxBw)
              then e.filterBw else s.path.maxBw
  {
    hide BeforeMinRtt, UpdateMinRtt, Paced, SetCwnd;
    var u := BeforeMinRtt(s, e, rs);
    BeforeEstimate(s, e, rs);
    BandwidthTaken(s, e, rs);
    MinRttKeepsEstimate(u, e, rs);
    ActKeepsPath(UpdateMinRtt(u, e, rs), e, rs);
  }

  lemma BandwidthTaken(s: State, e: Env, rs: Sample)
    ensures UpdateBw(s, e, rs).path.maxBw ==
              if rs.delivered >= 0 && rs.intervalUs > 0 && (rs.isAppLimited ==> SampleRate(rs) >= s.path.maxBw)
              then e.filterBw else s.path.maxBw
  {
    hide LtSampling, U32, U64;
  }

  // ----- The gain cycle -----

  function TargetNow(s: State, t: State, gain: nat): nat {
    TargetCwnd(s.path.minRtt, s.win.tsoGoal, t.path.maxBw, gain)
  }

  /** The phase with gain 5/4 ends when the minimum round-trip time is over and either packets were lost or
      that much was in flight; the one with gain 3/4 ends then or when no more is in flight than the path
      holds; the others end then. */
  ghost predicate PhaseOver(s: State, t: State, e: Env, rs: Sample) {
    var long := e.deliveredStamp > s.gain.stamp + s.path.minRtt;
    if s.gain.idx == 0 then
      long && (rs.losses > 0 || rs.priorInFlight >= TargetNow(s, t, BBR_UNIT * 5 / 4))
    else if s.gain.idx == 1 then
      long || rs.priorInFlight <= TargetNow(s, t, BBR_UNIT)
    else long
  }

  /** In PROBE_BW, with no policed rate in use before and after, the cycle moves on exactly when its phase is
      over. */
  lemma PhaseRule(s: State, e: Env, rs: Sample)
    requires Good(s) && s.gain.mode == ProbeBw && !s.lt.useBw && !Main(s, e, rs).lt.useBw
    requires !Probing(Main(s, e, rs))
    ensures var t := Main(s, e, rs);
            && t.gain.mode == ProbeBw
            && t.gain.idx == (if PhaseOver(s, t, e, rs) then (s.gain.idx + 1) % CYCLE_LEN else s.gain.idx)
            && t.gain.stamp == if PhaseOver(s, t, e, rs) then e.deliveredStamp else s.gain.stamp
  {
    hide UpdateBw, IsNextCyclePhase, UpdateMinRtt, Paced, SetCwnd, Target, AdvanceCycle, PhaseOver;
    var a := UpdateBw(s, e, rs);
    var b := UpdateCycle(a, e, rs);
    var d := CheckDrain(CheckFullBw(b, rs), e);
    MinRttKeepsEstimate(d, e, rs);
    ActKeepsPath(UpdateMinRtt(d, e, rs), e, rs);
    SamplingOutside(s, e, rs);
    AdvanceFacts(a.gain, e);
    StillProbing(d, e, rs);
    assert Main(s, e, rs).path.maxBw == a.path.maxBw;
    PhaseTest(s, a, Main(s, e, rs), e, rs);
  }

  lemma SamplingOutside(s: State, e: Env, rs: Sample)
    requires Good(s) && !s.lt.useBw && !UpdateBw(s, e, rs).lt.useBw
    ensures var a := UpdateBw(s, e, rs);
            a.gain == s.gain && a.path.minRtt == s.path.minRtt && a.win.tsoGoal == s.win.tsoGoal
  {
    hide U32, U64, MeasureInterval, Consistent, FilterBw;
  }

  lemma StillProbing(d: State, e: Env, rs: Sample)
    requires d.gain.mode == ProbeBw
    ensures var t := UpdateMinRtt(d, e, rs); !Probing(t) ==> t.gain == d.gain
  {
    hide U32, FilterExpired, TakeRtt, SaveCwnd, ProbeTicks, ResetMode;
  }

  lemma AdvanceFacts(g: Gain, e: Env)
    ensures var h := AdvanceCycle(g, e);
            && h.idx == (g.idx + 1) % CYCLE_LEN && h.stamp == e.deliveredStamp && h.mode == g.mode
            && h.fullBwCnt == g.fullBwCnt
  {
  }

  lemma PhaseTest(s: State, a: State, t: State, e: Env, rs: Sample)
    requires s.gain.mode == ProbeBw && Gains(s.gain, false) && a.gain == s.gain
    requires a.path.minRtt == s.path.minRtt && a.win.tsoGoal == s.win.tsoGoal && t.path.maxBw == a.path.maxBw
    ensures IsNextCyclePhase(a, e, rs) <==> PhaseOver(s, t, e, rs)
  {
    hide TargetCwnd;
  }

  // ----- Filling and draining the pipe -----

  /** Before PROBE_BW the mode follows from the count of rounds without growth and from what is in flight:
      STARTUP until the third, then DRAIN until no more is in flight than the path holds. */
  lemma DrainRule(s: State, e: Env, rs: Sample)
    requires Good(s) && (s.gain.mode == Startup || s.gain.mode == Drain) && !Probing(Main(s, e, rs))
    ensures var t := Main(s, e, rs);
            t.gain.mode == if t.gain.fullBwCnt < 3 then Startup
                           else if e.inFlight <= TargetNow(s, t, BBR_UNIT) then ProbeBw else Drain
  {
    hide UpdateBw, UpdateMinRtt, Paced, SetCwnd, TargetCwnd, ResetProbeBw;
    var a := UpdateBw(s, e, rs);
    var d := CheckDrain(CheckFullBw(UpdateCycle(a, e, rs), rs), e);
    LtSamplingKeeps(s.gain, s.lt, RoundBegins(s.path, rs), e, rs);
    BandwidthKeeps(s, e, rs);
    MinRttKeepsEstimate(d, e, rs);
    ActKeepsPath(UpdateMinRtt(d, e, rs), e, rs);
    ResetModes(e);
    OutsideProbing(d, e, rs);
  }

  lemma BandwidthKeeps(s: State, e: Env, rs: Sample)
    requires Good(s)
    ensures var a := UpdateBw(s, e, rs);
            && a.gain.mode == s.gain.mode && a.gain.fullBwCnt == s.gain.fullBwCnt
            && a.path.minRtt == s.path.minRtt && a.win.tsoGoal == s.win.tsoGoal
  {
    hide LtSampling, U32, FilterBw;
    LtSamplingKeeps(s.gain, s.lt, RoundBegins(s.path, rs), e, rs);
  }

  lemma OutsideProbing(d: State, e: Env, rs: Sample)
    requires !Probing(d)
    ensures var t := UpdateMinRtt(d, e, rs); !Probing(t) ==> t.gain == d.gain
  {
    hide U32, FilterExpired, TakeRtt, SaveCwnd, ProbeTicks, ResetMode;
  }

  lemma ResetModes(e: Env)
    ensures forall g: Gain ::
              ResetProbeBw(g, e).mode == ProbeBw && ResetProbeBw(g, e).fullBwCnt == g.fullBwCnt
  {
  }

  // ----- Restarting from idle, and what PROBE_RTT tells the core -----

  /** A transmit start marks a restart exactly when the application has been limiting; an ACK clears the mark. */
  lemma IdleRule(s: State, ev: Event)
    ensures Step(s, ev).probe.idleRestart <==>
              match ev
              case Acked(_, _) => false
              case TxStarted(_) => s.probe.idleRestart || s.win.appLimited != 0
              case _ => s.probe.idleRestart
  {
    if ev.Acked? {
      StepIsMain(s, ev);
      hide BeforeMinRtt, UpdateMinRtt, Paced, SetCwnd;
      var u := BeforeMinRtt(s, ev.e, ev.rs);
      MinRttClears(u, ev.e, ev.rs);
      ActKeepsPath(UpdateMinRtt(u, ev.e, ev.rs), ev.e, ev.rs);
    } else {
      hide LtSampling, SetPacingRate;
    }
  }

  lemma MinRttClears(u: State, e: Env, rs: Sample)
    ensures !UpdateMinRtt(u, e, rs).probe.idleRestart
  {
    hide U32, FilterExpired, TakeRtt, SaveCwnd, ProbeTicks, ResetMode;
  }

  /** From the call that enters PROBE_RTT to the one that leaves it the connection counts as limited by the
      application, up to what is delivered and in flight. */
  lemma LimitRule(s: State, e: Env, rs: Sample)
    ensures var t := Main(s, e, rs);
            if Probing(s) || Probing(t) then
              t.win.appLimited == Max(1, U32(e.delivered + e.inFlight))
            else t.win.appLimited == s.win.appLimited
  {
    hide BeforeMinRtt, UpdateMinRtt, Paced, SetCwnd, U32;
    var u := BeforeMinRtt(s, e, rs);
    BeforeMinRttFacts(s, e, rs);
    MinRttLimits(u, e, rs);
    var v := UpdateMinRtt(u, e, rs);
    ActKeepsPath(v, e, rs);
    PacedLimit(v, e);
    CwndLimit(Paced(v, e), e, rs);
  }

  lemma MinRttLimits(u: State, e: Env, rs: Sample)
    ensures var t := UpdateMinRtt(u, e, rs);
            t.win.appLimited ==
              if Probing(u) || Probing(t) then Max(1, U32(e.delivered + e.inFlight)) else u.win.appLimited
  {
    hide U32, FilterExpired, TakeRtt, ProbeTicks, ResetMode;
  }

  lemma PacedLimit(v: State, e: Env)
    ensures Paced(v, e).win.appLimited == v.win.appLimited
  {
    hide PacingRate, U32, U64;
  }

  lemma CwndLimit(w: State, e: Env, rs: Sample)
    ensures SetCwnd(w, e, rs, rs.ackedSacked, Bandwidth(w), w.gain.cwnd).win.appLimited == w.win.appLimited
  {
    hide U32, DeductLosses, GrownCwnd, Target;
  }

  // ----- The long-term rate in use -----

  lemma SamplerStands(s: State, e: Env, rs: Sample)
    ensures Main(s, e, rs).lt == UpdateBw(s, e, rs).lt
  {
    hide UpdateBw, IsNextCyclePhase, UpdateMinRtt, Paced, SetCwnd, Target, AdvanceCycle, ResetProbeBw, U32;
    var u := BeforeMinRtt(s, e, rs);
    MinRttKeepsEstimate(u, e, rs);
    ActKeepsPath(UpdateMinRtt(u, e, rs), e, rs);
  }

  /** A long-term rate in use stands for 48 rounds of PROBE_BW and is then dropped; rounds in other modes do
      not count. */
  lemma PolicedRounds(s: State, e: Env, rs: Sample)
    requires s.lt.useBw
    ensures var t := Main(s, e, rs).lt;
            if s.gain.mode == ProbeBw && ValidSample(rs) && rs.priorDelivered >= s.path.nextRtt then
              if s.lt.rttCnt + 1 < 48 then t == s.lt.(rttCnt := s.lt.rttCnt + 1)
              else !t.useBw && !t.sampling && t.bw == 0 && t.rttCnt == 0
            else t == s.lt
  {
    hide Main, U32, FilterBw, ResetProbeBw;
    SamplerStands(s, e, rs);
  }

  /** While it is in use the gains stand still, outside PROBE_RTT. */
  lemma PolicedStandsStill(s: State, e: Env, rs: Sample)
    requires Good(s) && s.gain.mode == ProbeBw && s.lt.useBw && Main(s, e, rs).lt.useBw && !Probing(Main(s, e, rs))
    ensures Main(s, e, rs).gain == s.gain
  {
    hide UpdateBw, IsNextCyclePhase, UpdateMinRtt, Paced, SetCwnd, Target, AdvanceCycle;
    var d := BeforeMinRtt(s, e, rs);
    SamplerStands(s, e, rs);
    SamplingUsed(s, e, rs);
    MinRttKeepsEstimate(d, e, rs);
    ActKeepsPath(UpdateMinRtt(d, e, rs), e, rs);
    StillProbing(d, e, rs);
  }

  lemma SamplingUsed(s: State, e: Env, rs: Sample)
    requires s.lt.useBw && UpdateBw(s, e, rs).lt.useBw
    ensures UpdateBw(s, e, rs).gain == s.gain
  {
    hide U32, FilterBw, ResetProbeBw;
  }

  /** An RTO makes the estimate of a full pipe start over, but not its count, and counts as the end of a
      round; other states change nothing. */
  lemma RtoRule(s: State, e: Env, ca: CaState)
    ensures var t := Step(s, StateSet(e, ca));
            if ca == Loss then
              && t.gain.fullBw == 0 && t.gain.fullBwCnt == s.gain.fullBwCnt && t.win == s.win.(prevCa := Loss)
              && t.path == s.path.(roundStart := true) && t.probe == s.probe
            else t == s
  {
    hide U32, MeasureInterval, Consistent;
  }
}
