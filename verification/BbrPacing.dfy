/** The pacing rate and the size of bursts. */
module BbrPacing {
  import opened Bbr
  import opened BbrArith
  import opened BbrRuns
  import opened BbrProbeRtt

  /** r is this bandwidth times this gain in bytes per second, rounded down or one less, under the limit. */
  ghost predicate RateOf(e: Env, bw: nat, gain: nat, r: nat) {
    var exact := bw * e.mtu * gain * USEC_PER_SEC;
    && r <= e.maxPacingRate && r * TWO32 <= exact
    && (r == e.maxPacingRate || exact < (r + 2) * TWO32)
  }

  lemma PacingRateOf(e: Env, bw: nat, gain: nat)
    requires RateFits(e.mtu, bw, gain)
    ensures RateOf(e, bw, gain, PacingRate(e, bw, gain))
  {
    RateAccuracy(e.mtu, bw, gain);
    hide RateBytesPerSec, RateFits;
    var r := RateBytesPerSec(e.mtu, bw, gain);
    MulMonotone(PacingRate(e, bw, gain), TWO32, r, TWO32);
  }

  /** The bandwidth BBR works with after a call. */
  function BandwidthAfter(t: State): nat {
    if t.lt.useBw then t.lt.bw else t.path.maxBw
  }

  /** What the pacing rate is compared with: the old one, or that of the first round-trip time when this call
      is the first to see one. */
  function RateBefore(w: Win, e: Env): nat {
    if !w.seenRtt && e.srtt != 0 then InitPacingRate(w, e).pacingRate else w.pacingRate
  }

  /** With a full pipe the pacing rate is that of the bandwidth and the gain; before, it only rises to it. */
  lemma PacingRule(s: State, e: Env, rs: Sample)
    ensures var t := Main(s, e, rs);
            var rate := PacingRate(e, BandwidthAfter(t), t.gain.pacing);
            && t.win.pacingRate == (if FullBwReached(t.gain) then rate else Max(RateBefore(s.win, e), rate))
            && t.win.seenRtt == (s.win.seenRtt || e.srtt != 0)
  {
    hide UpdateModel, PacingRate, RecoverOrRestore, GrownCwnd, Target, BeforeMinRtt, UpdateMinRtt, U32, U64;
    RateUntouched(s, e, rs);
    var w := Modelled(s, e, rs);
    RecoverKeepsRate(w.win, w.path.nextRtt, e, rs, rs.ackedSacked);
  }

  lemma RateUntouched(s: State, e: Env, rs: Sample)
    ensures var u := UpdateModel(s, e, rs).win;
            u.pacingRate == s.win.pacingRate && u.seenRtt == s.win.seenRtt && u.cwnd == s.win.cwnd
  {
    hide BeforeMinRtt, U32, FilterExpired, TakeRtt, ResetMode, ProbeTicks;
    BeforeMinRttFacts(s, e, rs);
  }

  lemma RecoverKeepsRate(w: Win, nextRtt: nat, e: Env, rs: Sample, acked: nat)
    ensures var r := RecoverOrRestore(w, nextRtt, e, rs, acked).win;
            r.pacingRate == w.pacingRate && r.seenRtt == w.seenRtt && r.tsoGoal == w.tsoGoal
  {
    hide U32, DeductLosses;
  }

  /** So with a full pipe BBR paces at bandwidth times gain, exactly but for rounding. */
  lemma PacesAtBandwidth(s: State, e: Env, rs: Sample)
    requires FullBwReached(Main(s, e, rs).gain)
    requires var t := Main(s, e, rs); RateFits(e.mtu, BandwidthAfter(t), t.gain.pacing)
    ensures var t := Main(s, e, rs); RateOf(e, BandwidthAfter(t), t.gain.pacing, t.win.pacingRate)
  {
    hide Main, RateFits, RateOf, PacingRate;
    var t := Main(s, e, rs);
    PacingRule(s, e, rs);
    PacingRateOf(e, BandwidthAfter(t), t.gain.pacing);
  }

  /** A rate from the round-trip time: the largest gain times one window per smoothed round-trip time, or per
      millisecond when none is known. */
  lemma FirstRate(w: Win, e: Env)
    requires var rtt := if e.srtt == 0 then 1000 else Max(e.srtt / 8, 1);
             var bw := w.cwnd * BW_UNIT / rtt;
             w.cwnd * BW_UNIT < TWO64 && bw < TWO32 && RateFits(e.mtu, bw, HIGH_GAIN)
    ensures var rtt := if e.srtt == 0 then 1000 else Max(e.srtt / 8, 1);
            && RateOf(e, w.cwnd * BW_UNIT / rtt, HIGH_GAIN, InitPacingRate(w, e).pacingRate)
            && InitPacingRate(w, e).seenRtt == (w.seenRtt || e.srtt != 0)
  {
    var rtt := if e.srtt == 0 then 1000 else Max(e.srtt / 8, 1);
    var bw := w.cwnd * BW_UNIT / rtt;
    Exact64(w.cwnd * BW_UNIT);
    Exact32(bw);
    hide PacingRate, RateFits, RateOf, U32, U64;
    PacingRateOf(e, bw, HIGH_GAIN);
  }

  /** A new connection paces at such a rate, in STARTUP with the largest gain for the window too. */
  lemma FirstState(e: Env, minRtt: nat, cwnd: nat, appLimited: nat, pacingRate: nat)
    requires var bw := cwnd * BW_UNIT / if e.srtt == 0 then 1000 else Max(e.srtt / 8, 1);
             cwnd * BW_UNIT < TWO64 && bw < TWO32 && RateFits(e.mtu, bw, HIGH_GAIN)
    ensures var s := Init(e, minRtt, cwnd, appLimited, pacingRate);
            && s.gain.mode == Startup && s.gain.cwnd == 739 && s.gain.pacing == 739 && s.gain.fullBwCnt == 0
            && s.path.minRtt == minRtt && s.path.minRttStamp == e.now && s.path.maxBw == 0
            && s.win.cwnd == cwnd && s.win.priorCwnd == 0 && !s.lt.sampling && !s.lt.useBw
            && var rtt := if e.srtt == 0 then 1000 else Max(e.srtt / 8, 1);
            RateOf(e, cwnd * BW_UNIT / rtt, HIGH_GAIN, s.win.pacingRate)
  {
    FirstRate(Win(Open, false, false, 0, cwnd, appLimited, 0, false, pacingRate), e);
    hide InitPacingRate, RateOf, RateFits, ResetLtInterval;
    SameWindow(Win(Open, false, false, 0, cwnd, appLimited, 0, false, pacingRate), e);
  }

  lemma SameWindow(w: Win, e: Env)
    ensures InitPacingRate(w, e).cwnd == w.cwnd && InitPacingRate(w, e).priorCwnd == w.priorCwnd
  {
    hide PacingRate, U32, U64;
  }

  /** A restart from idle in PROBE_BW paces at the bandwidth itself; other transmit starts leave the rate. */
  lemma RestartRule(s: State, e: Env)
    requires Good(s)
    ensures var t := Step(s, TxStarted(e));
            t.win == if s.win.appLimited != 0 && s.gain.mode == ProbeBw
                     then s.win.(pacingRate := PacingRate(e, BandwidthAfter(s), BBR_UNIT), seenRtt := t.win.seenRtt)
                     else s.win
  {
    hide PacingRate, U32, U64;
  }

  /** The size of bursts is what the kernel computes for the new rate, with at least one segment below
      1.2 Mbit/s and two above, in 7 bits. */
  lemma BurstRule(s: State, e: Env, rs: Sample)
    ensures var t := Main(s, e, rs);
            t.win.tsoGoal == Min(if 8 * t.win.pacingRate < 1200000 then e.tsoOne else e.tsoTwo, 127)
  {
    hide UpdateModel, SetPacingRate, RecoverOrRestore, GrownCwnd, Target;
    var w := Modelled(s, e, rs);
    RecoverKeepsRate(w.win, w.path.nextRtt, e, rs, rs.ackedSacked);
  }
}
