/** `struct bbr` with the widths of its fields, and the words of the socket it writes, updated in place.
    The fields stand in groups. Every store into a bit field is checked to fit; that no counter outgrows
    its field is the invariant `Good` of the functions. */
module BbrSocks {
  import opened Bbr
  import opened BbrRuns

  newtype Word = x: int | 0 <= x < 0x1_0000_0000
  newtype Bits3 = x: int | 0 <= x < 8
  newtype Bits7 = x: int | 0 <= x < 128
  newtype Bits10 = x: int | 0 <= x < 1024

  datatype PathFields = PathFields(
    minRttUs: Word, minRttStamp: nat, maxBw: Word, rttCnt: Word, nextRttDelivered: nat, roundStart: bool)
  {
    function View(): Path {
      Path(minRttUs as nat, minRttStamp, maxBw as nat, rttCnt as nat, nextRttDelivered, roundStart)
    }
  }

  datatype GainFields = GainFields(
    mode: Mode, pacingGain: Bits10, cwndGain: Bits10, cycleIdx: Bits3, cycleMstamp: nat, fullBwCnt: Bits3, fullBw: Word)
  {
    function View(): Gain {
      Gain(mode, pacingGain as nat, cwndGain as nat, cycleIdx as nat, cycleMstamp, fullBwCnt as nat, fullBw as nat)
    }
  }

  datatype LtFields = LtFields(
    isSampling: bool, rttCnt: Bits7, useBw: bool, bw: Word, lastDelivered: Word, lastStamp: Word, lastLost: Word)
  {
    function View(): Lt {
      Lt(isSampling, rttCnt as nat, useBw, bw as nat, lastDelivered as nat, lastStamp as nat, lastLost as nat)
    }
  }

  datatype WinFields = WinFields(
    prevCaState: CaState, packetConservation: bool, restoreCwnd: bool, priorCwnd: Word, sndCwnd: Word,
    appLimited: Word, tsoSegsGoal: Bits7, hasSeenRtt: bool, skPacingRate: Word)
  {
    function View(): Win {
      Win(prevCaState, packetConservation, restoreCwnd, priorCwnd as nat, sndCwnd as nat, appLimited as nat,
          tsoSegsGoal as nat, hasSeenRtt, skPacingRate as nat)
    }
  }

  /** Truncation to 32 bits. */
  function WordOf(x: int): (w: Word)
    ensures w as nat == U32(x)
  {
    U32(x) as Word
  }

  /** What the kernel hands over in 32-bit words. */
  ghost predicate Fits(e: Env) {
    e.filterBw < TWO32 && e.maxPacingRate < TWO32 && e.cwndClamp < TWO32
  }

  lemma FilterFits(p: Path, e: Env, rs: Sample)
    requires p.maxBw < TWO32 && Fits(e) && ValidSample(rs)
    ensures FilterBw(p, e, rs) < TWO32
  {
  }

  lemma LeftFits(cwnd: nat, losses: nat)
    requires cwnd < TWO32
    ensures DeductLosses(cwnd, losses) < TWO32
  {
  }

  lemma MainGood(s: State, e: Env, rs: Sample)
    requires Good(s)
    ensures LongTerm(s.lt) && Good(Main(s, e, rs))
  {
    hide Main;
    MainKeeps(s, e, rs);
  }

  class BbrSock {
    var path: PathFields
    var gain: GainFields
    var lt: LtFields
    var probe: Probe
    var win: WinFields

    function View(): State
      reads this
    {
      State(path.View(), gain.View(), lt.View(), probe, win.View())
    }

    constructor (e: Env, minRtt: Word, cwnd: Word, appLimited: Word, pacingRate: Word)
      requires Fits(e)
      ensures View() == Init(e, minRtt as nat, cwnd as nat, appLimited as nat, pacingRate as nat)
      ensures Good(View())
    {
      path := PathFields(minRtt, e.now, 0, 0, 0, false);
      gain := GainFields(Startup, 0, 0, 0, 0, 0, 0);
      lt := LtFields(false, 0, false, 0, 0, 0, 0);
      probe := Probe(0, false, false);
      win := WinFields(Open, false, false, 0, cwnd, appLimited, 0, false, pacingRate);
      new;
      InitPacingRateFromRtt(e);
      ResetLtBwSampling(e);
      ResetStartupMode();
    }

    // ----- Gain cycling and modes -----

    method AdvanceCyclePhase(e: Env)
      modifies `gain
      ensures gain.View() == AdvanceCycle(old(gain).View(), e)
    {
      gain := gain.(cycleIdx := ((gain.cycleIdx as nat + 1) % CYCLE_LEN) as Bits3, cycleMstamp := e.deliveredStamp);
      gain := gain.(pacingGain := CycleGain(gain.cycleIdx as nat) as Bits10);
    }

    method UpdateCyclePhase(e: Env, rs: Sample)
      modifies `gain
      ensures View() == UpdateCycle(old(View()), e, rs)
    {
      hide AdvanceCycle, IsNextCyclePhase;
      if gain.mode == ProbeBw && !lt.useBw && IsNextCyclePhase(View(), e, rs) {
        AdvanceCyclePhase(e);
      }
    }

    method ResetStartupMode()
      modifies `gain
      ensures gain.View() == ResetStartup(old(gain).View())
    {
      gain := gain.(mode := Startup, pacingGain := HIGH_GAIN as Bits10, cwndGain := HIGH_GAIN as Bits10);
    }

    method ResetProbeBwMode(e: Env)
      modifies `gain
      ensures gain.View() == ResetProbeBw(old(gain).View(), e)
    {
      hide AdvanceCycle;
      gain := gain.(mode := ProbeBw, pacingGain := BBR_UNIT as Bits10, cwndGain := CWND_GAIN as Bits10);
      gain := gain.(cycleIdx := (CYCLE_LEN - 1 - e.random % CYCLE_RAND) as Bits3);
      AdvanceCyclePhase(e);
    }

    method ResetCurrentMode(e: Env)
      modifies `gain
      ensures gain.View() == ResetMode(old(gain).View(), e)
    {
      hide ResetStartup, ResetProbeBw;
      if !FullBwReached(gain.View()) {
        ResetStartupMode();
      } else {
        ResetProbeBwMode(e);
      }
    }

    // ----- Long-term bandwidth sampling -----

    method ResetLtBwSamplingInterval(e: Env)
      modifies `lt
      ensures lt.View() == ResetLtInterval(old(lt).View(), e)
    {
      hide U32;
      lt := lt.(lastStamp := WordOf(e.deliveredStamp / USEC_PER_MSEC));
      lt := lt.(lastDelivered := WordOf(e.delivered), lastLost := WordOf(e.lost));
      lt := lt.(rttCnt := 0);
    }

    method ResetLtBwSampling(e: Env)
      modifies `lt
      ensures lt.View() == ResetLt(old(lt).View(), e)
    {
      hide ResetLtInterval;
      lt := lt.(bw := 0, useBw := false, isSampling := false);
      ResetLtBwSamplingInterval(e);
    }

    method LtBwIntervalDone(e: Env, newBw: Word)
      modifies `lt, `gain
      ensures Sampler(gain.View(), lt.View()) == LtIntervalDone(old(gain).View(), old(lt).View(), e, newBw as nat)
    {
      hide ResetLtInterval, Consistent;
      if lt.bw != 0 {
        if Consistent(lt.bw as nat, e, newBw as nat) {
          lt := lt.(bw := WordOf(newBw as nat + lt.bw as nat) / 2, useBw := true);
          gain := gain.(pacingGain := BBR_UNIT as Bits10);
          lt := lt.(rttCnt := 0);
          return;
        }
      }
      lt := lt.(bw := newBw);
      ResetLtBwSamplingInterval(e);
    }

    method LtBwSampling(e: Env, rs: Sample)
      requires LongTerm(lt.View())
      modifies `lt, `gain
      ensures Sampler(gain.View(), lt.View()) == LtSampling(old(gain).View(), old(lt).View(), path.roundStart, e, rs)
    {
      hide U32, LtInterval, ResetLt, ResetProbeBw;
      if lt.useBw {
        if gain.mode == ProbeBw && path.roundStart {
          lt := lt.(rttCnt := lt.rttCnt + 1);
          if lt.rttCnt as nat >= LT_BW_MAX_RTTS {
            ResetLtBwSampling(e);
            ResetProbeBwMode(e);
          }
        }
        return;
      }
      if !lt.isSampling {
        if rs.losses == 0 {
          return;
        }
        ResetLtBwSamplingInterval(e);
        lt := lt.(isSampling := true);
      }
      if rs.isAppLimited {
        ResetLtBwSampling(e);
        return;
      }
      if path.roundStart {
        lt := lt.(rttCnt := lt.rttCnt + 1);
      }
      EndLtInterval(e, rs);
    }

    /** The second half of `bbr_lt_bw_sampling`. */
    method EndLtInterval(e: Env, rs: Sample)
      modifies `lt, `gain
      ensures Sampler(gain.View(), lt.View()) == LtInterval(old(gain).View(), old(lt).View(), e, rs)
    {
      hide U32, U64, S32, ResetLt, LtIntervalDone;
      if lt.rttCnt as nat < LT_INTVL_MIN_RTTS {
        return;
      }
      if lt.rttCnt as nat > 4 * LT_INTVL_MIN_RTTS {
        ResetLtBwSampling(e);
        return;
      }
      if rs.losses == 0 {
        return;
      }
      var lost, delivered := U32(e.lost - lt.lastLost as nat), U32(e.delivered - lt.lastDelivered as nat);
      if delivered == 0 || U32(lost * BBR_UNIT) < U32(LT_LOSS_THRESH * delivered) {
        return;
      }
      var t := U32(U32(e.deliveredStamp / USEC_PER_MSEC) - lt.lastStamp as nat);
      if S32(t) < 1 {
        return;
      }
      if t >= NO_RTT / USEC_PER_MSEC {
        ResetLtBwSampling(e);
        return;
      }
      Positive(t);
      LtBwIntervalDone(e, WordOf(U64(delivered * BW_UNIT) / (t * USEC_PER_MSEC)));
    }

    // ----- The network model -----

    method UpdateBandwidth(e: Env, rs: Sample)
      requires LongTerm(lt.View()) && Fits(e)
      modifies this
      ensures View() == UpdateBw(old(View()), e, rs)
    {
      hide U32, LtSampling, FilterBw, Fits;
      path := path.(roundStart := false);
      if rs.delivered < 0 || rs.intervalUs <= 0 {
        return;
      }
      if rs.priorDelivered >= path.nextRttDelivered {
        path := path.(nextRttDelivered := e.delivered);
        path := path.(rttCnt := WordOf(path.rttCnt as nat + 1), roundStart := true);
        win := win.(packetConservation := false);
      }
      LtBwSampling(e, rs);
      FilterFits(path.View(), e, rs);
      path := path.(maxBw := FilterBw(path.View(), e, rs) as Word);
    }

    method CheckFullBwReached(rs: Sample)
      modifies `gain
      ensures View() == CheckFullBw(old(View()), rs)
    {
      hide U32;
      if FullBwReached(gain.View()) || !path.roundStart || rs.isAppLimited {
        return;
      }
      if path.maxBw as nat >= U32(gain.fullBw as nat * FULL_BW_THRESH / BBR_UNIT) {
        gain := gain.(fullBw := path.maxBw, fullBwCnt := 0);
        return;
      }
      gain := gain.(fullBwCnt := gain.fullBwCnt + 1);
    }

    method CheckDrained(e: Env)
      modifies `gain
      ensures View() == CheckDrain(old(View()), e)
    {
      hide ResetProbeBw, TargetCwnd;
      if gain.mode == Startup && FullBwReached(gain.View()) {
        gain := gain.(mode := Drain, pacingGain := DRAIN_GAIN as Bits10, cwndGain := HIGH_GAIN as Bits10);
      }
      if gain.mode == Drain && e.inFlight <= Target(View(), path.maxBw as nat, BBR_UNIT) {
        ResetProbeBwMode(e);
      }
    }

    method SaveWindow()
      modifies `win
      ensures win.View() == SaveCwnd(old(win).View(), gain.mode)
    {
      if win.prevCaState != Recovery && win.prevCaState != Loss && gain.mode != ProbeRtt {
        win := win.(priorCwnd := win.sndCwnd);
      } else if win.priorCwnd < win.sndCwnd {
        win := win.(priorCwnd := win.sndCwnd);
      }
    }

    method UpdateMinimumRtt(e: Env, rs: Sample)
      modifies this
      ensures View() == UpdateMinRtt(old(View()), e, rs)
    {
      hide U32, SaveCwnd, ProbeRttStep, WindowTicks;
      var filterExpired := FilterExpired(path.View(), e);
      if rs.rttUs >= 0 && (rs.rttUs <= path.minRttUs as int || filterExpired) {
        path := path.(minRttUs := WordOf(rs.rttUs), minRttStamp := e.now);
      }
      if filterExpired && !probe.idleRestart && gain.mode != ProbeRtt {
        gain := gain.(mode := ProbeRtt, pacingGain := BBR_UNIT as Bits10, cwndGain := BBR_UNIT as Bits10);
        SaveWindow();
        probe := probe.(doneStamp := 0);
      }
      if gain.mode == ProbeRtt {
        MaintainProbeRtt(e);
      }
      probe := probe.(idleRestart := false);
    }

    /** The PROBE_RTT part of `bbr_update_min_rtt`. */
    method MaintainProbeRtt(e: Env)
      modifies `gain, `win, `probe, `path
      ensures View() == ProbeRttStep(old(View()), e)
    {
      hide U32, ResetMode, ProbeTicks;
      var limited := WordOf(e.delivered + e.inFlight);
      win := win.(appLimited := if limited == 0 then 1 else limited);
      if probe.doneStamp == 0 && e.inFlight <= CWND_MIN_TARGET {
        probe := probe.(doneStamp := e.now + ProbeTicks(e.hz), roundDone := false);
        path := path.(nextRttDelivered := e.delivered);
      } else if probe.doneStamp != 0 {
        if path.roundStart {
          probe := probe.(roundDone := true);
        }
        if probe.roundDone && e.now > probe.doneStamp {
          LeaveProbeRtt(e);
        }
      }
    }

    method LeaveProbeRtt(e: Env)
      modifies `gain, `win, `path
      ensures View() == old(View()).(path := old(path).View().(minRttStamp := e.now),
                                     gain := ResetMode(old(gain).View(), e),
                                     win := old(win).View().(restoreCwnd := true))
    {
      hide ResetMode;
      path := path.(minRttStamp := e.now);
      win := win.(restoreCwnd := true);
      ResetCurrentMode(e);
    }

    method UpdatePathModel(e: Env, rs: Sample)
      requires LongTerm(lt.View()) && Fits(e)
      modifies this
      ensures View() == UpdateModel(old(View()), e, rs)
    {
      hide UpdateBw, UpdateCycle, CheckFullBw, CheckDrain, UpdateMinRtt;
      UpdateBandwidth(e, rs);
      UpdateCyclePhase(e, rs);
      CheckFullBwReached(rs);
      CheckDrained(e);
      UpdateMinimumRtt(e, rs);
    }

    // ----- Acting on the model -----

    method InitPacingRateFromRtt(e: Env)
      requires Fits(e)
      modifies `win
      ensures win.View() == InitPacingRate(old(win).View(), e)
    {
      hide U32, U64, RateBytesPerSec;
      var rttUs := USEC_PER_MSEC;
      if e.srtt != 0 {
        rttUs := Max(e.srtt / 8, 1);
        win := win.(hasSeenRtt := true);
      }
      win := win.(skPacingRate := PacingRate(e, U32(U64(win.sndCwnd as nat * BW_UNIT) / rttUs), HIGH_GAIN) as Word);
    }

    method SetPacing(e: Env, newBw: nat, factor: nat)
      requires Fits(e)
      modifies `win
      ensures win.View() == SetPacingRate(old(win).View(), e, FullBwReached(gain.View()), newBw, factor)
    {
      hide RateBytesPerSec, InitPacingRate, FullBwReached;
      var rate := PacingRate(e, newBw, factor) as Word;
      if !win.hasSeenRtt && e.srtt != 0 {
        InitPacingRateFromRtt(e);
      }
      if FullBwReached(gain.View()) || rate > win.skPacingRate {
        win := win.(skPacingRate := rate);
      }
    }

    method SetTsoSegsGoal(e: Env)
      modifies `win
      ensures win.View() == SetTsoGoal(old(win).View(), e)
    {
      var segs := if win.skPacingRate as nat < MIN_TSO_RATE / 8 then e.tsoOne else e.tsoTwo;
      win := win.(tsoSegsGoal := Min(segs, 0x7F) as Bits7);
    }

    method SetCwndToRecoverOrRestore(e: Env, rs: Sample, acked: nat) returns (conserve: bool, newCwnd: Word)
      modifies `win, `path
      ensures var r := RecoverOrRestore(old(win).View(), old(path).nextRttDelivered, e, rs, acked);
              && View() == old(View()).(win := r.win, path := old(path).View().(nextRtt := r.nextRtt))
              && conserve == r.win.conserving && newCwnd as nat == r.cwnd
    {
      hide U32, DeductLosses;
      LeftFits(win.sndCwnd as nat, rs.losses);
      var cwnd := DeductLosses(win.sndCwnd as nat, rs.losses) as Word;
      var flight := WordOf(e.inFlight + acked);
      if e.caState == Recovery && win.prevCaState != Recovery {
        win := win.(packetConservation := true);
        path := path.(nextRttDelivered := e.delivered);
        cwnd := flight;
      } else if InRecovery(win.prevCaState) && !InRecovery(e.caState) {
        win := win.(restoreCwnd := true, packetConservation := false);
      }
      win := win.(prevCaState := e.caState);
      if win.restoreCwnd {
        cwnd := Larger(cwnd, win.priorCwnd);
        win := win.(restoreCwnd := false);
      }
      if win.packetConservation {
        return true, Larger(cwnd, flight);
      }
      return false, cwnd;
    }

    method SetCongestionWindow(e: Env, rs: Sample, acked: nat, newBw: nat, factor: nat)
      requires Fits(e)
      modifies `win, `path
      ensures View() == SetCwnd(old(View()), e, rs, acked, newBw, factor)
    {
      if acked == 0 {
        return;
      }
      hide RecoverOrRestore, TargetCwnd, FullBwReached, U32;
      var conserve, recovered := SetCwndToRecoverOrRestore(e, rs, acked);
      var cwnd := recovered as nat;
      if !conserve {
        var targetCwnd := Target(View(), newBw, factor);
        if FullBwReached(gain.View()) {
          cwnd := Min(U32(cwnd + acked), targetCwnd);
        } else if cwnd < targetCwnd || e.delivered < TCP_INIT_CWND {
          cwnd := U32(cwnd + acked);
        }
        cwnd := Max(cwnd, CWND_MIN_TARGET);
      }
      win := win.(sndCwnd := Min(cwnd, e.cwndClamp) as Word);
      if gain.mode == ProbeRtt {
        win := win.(sndCwnd := Min(win.sndCwnd as nat, CWND_MIN_TARGET) as Word);
      }
    }

    // ----- The entry points -----

    method OnAcked(e: Env, rs: Sample)
      requires Good(View()) && Fits(e)
      modifies this
      ensures View() == Main(old(View()), e, rs) && Good(View())
    {
      MainGood(View(), e, rs);
      hide Good, LongTerm, Fits, UpdateModel, SetPacingRate, SetTsoGoal, SetCwnd;
      UpdatePathModel(e, rs);
      var current := Bandwidth(View());
      SetPacing(e, current, gain.pacingGain as nat);
      SetTsoSegsGoal(e);
      SetCongestionWindow(e, rs, rs.ackedSacked, current, gain.cwndGain as nat);
    }

    method OnTxStart(e: Env)
      requires Good(View()) && Fits(e)
      modifies `probe, `win
      ensures View() == TxStart(old(View()), e) && Good(View())
    {
      hide SetPacingRate;
      if win.appLimited != 0 {
        probe := probe.(idleRestart := true);
        if gain.mode == ProbeBw {
          SetPacing(e, Bandwidth(View()), BBR_UNIT);
        }
      }
    }

    method OnState(e: Env, ca: CaState)
      requires Good(View())
      modifies this
      ensures View() == SetCaState(old(View()), e, ca) && Good(View())
    {
      StepKeeps(View(), StateSet(e, ca));
      hide LtSampling;
      if ca == Loss {
        win := win.(prevCaState := Loss);
        gain := gain.(fullBw := 0);
        path := path.(roundStart := true);
        LtBwSampling(e, RTO_SAMPLE);
      }
    }
  }

  function Larger(a: Word, b: Word): (m: Word)
    ensures m as nat == Max(a as nat, b as nat)
  {
    if a < b then b else a
  }

  lemma Positive(t: nat)
    requires S32(t) >= 1
    ensures t > 0
  {
  }
}
