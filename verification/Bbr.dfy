/** The BBR congestion control of reference/tcp_bbr.c, as functions on its state. Clocks, packet
    counters, the bandwidth filter and the random phase are inputs. */
module Bbr {

  const BW_UNIT: nat := 0x100_0000
  const BBR_UNIT: nat := 256
  const CYCLE_LEN: nat := 8
  const CYCLE_RAND: nat := 7
  const HIGH_GAIN: nat := BBR_UNIT * 2885 / 1000 + 1
  const DRAIN_GAIN: nat := BBR_UNIT * 1000 / 2885
  const CWND_GAIN: nat := BBR_UNIT * 2
  const CWND_MIN_TARGET: nat := 4
  const FULL_BW_THRESH: nat := BBR_UNIT * 5 / 4
  const FULL_BW_CNT: nat := 3
  const LT_INTVL_MIN_RTTS: nat := 4
  const LT_LOSS_THRESH: nat := 50
  const LT_BW_RATIO: nat := BBR_UNIT / 8
  const LT_BW_DIFF: nat := 4000 / 8
  const LT_BW_MAX_RTTS: nat := 48
  const MIN_TSO_RATE: nat := 1200000
  const TCP_INIT_CWND: nat := 10
  const NO_RTT: nat := 0xFFFF_FFFF
  const TWO32: nat := 0x1_0000_0000
  const TWO64: nat := 0x1_0000_0000_0000_0000
  const USEC_PER_SEC: nat := 1000000
  const USEC_PER_MSEC: nat := 1000

  datatype Mode = Startup | Drain | ProbeBw | ProbeRtt

  /** Congestion-avoidance states of the TCP core, in their order. */
  datatype CaState = Open | Disorder | Cwr | Recovery | Loss

  /** The model of the path and its packet-timed rounds. */
  datatype Path = Path(minRtt: nat, minRttStamp: nat, maxBw: nat, rttCnt: nat, nextRtt: nat, roundStart: bool)

  /** The mode machine with its gains and its estimate of a full pipe. */
  datatype Gain = Gain(mode: Mode, pacing: nat, cwnd: nat, idx: nat, stamp: nat, fullBwCnt: nat, fullBw: nat)

  /** The long-term bandwidth sampler. */
  datatype Lt = Lt(sampling: bool, rttCnt: nat, useBw: bool, bw: nat, delivered: nat, stamp: nat, lost: nat)

  datatype Probe = Probe(doneStamp: nat, roundDone: bool, idleRestart: bool)

  /** The congestion window, its saved value and the pacing rate, with the socket fields BBR writes. */
  datatype Win = Win(prevCa: CaState, conserving: bool, restoreCwnd: bool, priorCwnd: nat, cwnd: nat,
                     appLimited: nat, tsoGoal: nat, seenRtt: bool, pacingRate: nat)

  /** `struct bbr` and what it writes of the socket. */
  datatype State = State(path: Path, gain: Gain, lt: Lt, probe: Probe, win: Win)

  /** What BBR reads of the socket and the kernel during one call. `filterBw` is the windowed
      maximum once the sample is in, `tsoOne` and `tsoTwo` are the results of tcp_tso_autosize. */
  datatype Env = Env(
    now: nat, hz: nat, delivered: nat, deliveredStamp: nat, lost: nat, inFlight: nat, caState: CaState,
    cwndClamp: nat, mtu: nat, maxPacingRate: nat, srtt: nat, random: nat, filterBw: nat,
    tsoOne: nat, tsoTwo: nat)

  datatype Sample = Sample(
    delivered: int, intervalUs: int, priorDelivered: nat, rttUs: int, losses: nat,
    isAppLimited: bool, ackedSacked: nat, priorInFlight: nat)

  // ----- Machine integers -----

  function Min(a: nat, b: nat): nat { if a < b then a else b }

  function Max(a: nat, b: nat): nat { if a < b then b else a }

  function U32(x: int): nat { x % TWO32 }

  function U64(x: int): nat { x % TWO64 }

  function S32(x: nat): int { if U32(x) < 0x8000_0000 then U32(x) else U32(x) - TWO32 }

  function Abs(x: int): nat { if x < 0 then -x else x }

  // ----- Rates and windows -----

  /** A unit conversion in 64-bit arithmetic. */
  function RateBytesPerSec(mtu: nat, rate: nat, gain: nat): nat {
    var withMtu := U64(rate * mtu);
    var withGain := U64(withMtu * gain);
    U64(withGain / BBR_UNIT * USEC_PER_SEC) / BW_UNIT
  }

  function PacingRate(e: Env, bw: nat, gain: nat): nat {
    Min(RateBytesPerSec(e.mtu, bw, gain), e.maxPacingRate)
  }

  /** A bandwidth-delay product times gain, without its two scale factors, in whole packets. */
  function BdpPart(x: nat): nat { (x / BBR_UNIT + BW_UNIT - 1) / BW_UNIT }

  /** Room for the end hosts is added, then the window is rounded up to an even number. */
  function WithRoom(bdp: nat, tsoGoal: nat): nat {
    var room := U32(bdp + 3 * tsoGoal);
    U32(room + 1) - U32(room + 1) % 2
  }

  function TargetCwnd(minRtt: nat, tsoGoal: nat, bw: nat, gain: nat): nat {
    if minRtt == NO_RTT then TCP_INIT_CWND
    else WithRoom(U32(BdpPart(U64(U64(bw * minRtt) * gain))), tsoGoal)
  }

  function Target(s: State, bw: nat, gain: nat): nat {
    TargetCwnd(s.path.minRtt, s.win.tsoGoal, bw, gain)
  }

  function Bandwidth(s: State): nat { if s.lt.useBw then s.lt.bw else s.path.maxBw }

  predicate FullBwReached(g: Gain) { g.fullBwCnt >= FULL_BW_CNT }

  // ----- Gain cycling and modes -----

  function CycleGain(idx: nat): nat {
    if idx == 0 then BBR_UNIT * 5 / 4 else if idx == 1 then BBR_UNIT * 3 / 4 else BBR_UNIT
  }

  predicate IsNextCyclePhase(s: State, e: Env, rs: Sample) {
    var elapsed := if e.deliveredStamp > s.gain.stamp then e.deliveredStamp - s.gain.stamp else 0;
    var isFullLength := elapsed > s.path.minRtt;
    if s.gain.pacing == BBR_UNIT then isFullLength
    else if s.gain.pacing > BBR_UNIT then
      isFullLength && (rs.losses > 0 || rs.priorInFlight >= Target(s, s.path.maxBw, s.gain.pacing))
    else
      isFullLength || rs.priorInFlight <= Target(s, s.path.maxBw, BBR_UNIT)
  }

  function AdvanceCycle(g: Gain, e: Env): Gain {
    var idx := (g.idx + 1) % CYCLE_LEN;
    g.(idx := idx, stamp := e.deliveredStamp, pacing := CycleGain(idx))
  }

  function UpdateCycle(s: State, e: Env, rs: Sample): State {
    if s.gain.mode == ProbeBw && !s.lt.useBw && IsNextCyclePhase(s, e, rs)
    then s.(gain := AdvanceCycle(s.gain, e)) else s
  }

  function ResetStartup(g: Gain): Gain {
    g.(mode := Startup, pacing := HIGH_GAIN, cwnd := HIGH_GAIN)
  }

  /** The random phase is below CYCLE_RAND, so the index before the flip is 1 to 7. */
  function ResetProbeBw(g: Gain, e: Env): Gain {
    AdvanceCycle(g.(mode := ProbeBw, pacing := BBR_UNIT, cwnd := CWND_GAIN,
                    idx := CYCLE_LEN - 1 - e.random % CYCLE_RAND), e)
  }

  function ResetMode(g: Gain, e: Env): Gain {
    if FullBwReached(g) then ResetProbeBw(g, e) else ResetStartup(g)
  }

  // ----- Long-term bandwidth sampling -----

  datatype Sampler = Sampler(gain: Gain, lt: Lt)

  function ResetLtInterval(lt: Lt, e: Env): Lt {
    lt.(stamp := U32(e.deliveredStamp / USEC_PER_MSEC), delivered := U32(e.delivered), lost := U32(e.lost), rttCnt := 0)
  }

  function ResetLt(lt: Lt, e: Env): Lt {
    ResetLtInterval(lt.(bw := 0, useBw := false, sampling := false), e)
  }

  /** Two consecutive intervals have nearly the same rate. */
  predicate Consistent(ltBw: nat, e: Env, bw: nat) {
    var diff := Abs(S32(U32(bw - ltBw)));
    || U32(diff * BBR_UNIT) <= U32(LT_BW_RATIO * ltBw)
    || RateBytesPerSec(e.mtu, diff, BBR_UNIT) <= LT_BW_DIFF
  }

  function LtIntervalDone(g: Gain, lt: Lt, e: Env, bw: nat): Sampler {
    if lt.bw != 0 && Consistent(lt.bw, e, bw) then
      Sampler(g.(pacing := BBR_UNIT), lt.(bw := U32(bw + lt.bw) / 2, useBw := true, rttCnt := 0))
    else
      Sampler(g, ResetLtInterval(lt.(bw := bw), e))
  }

  /** Is there a rate to take at the end of this interval, and has it become too long for one? */
  datatype Interval = Wait | TooLong | Rate(bw: nat)

  function MeasureInterval(lt: Lt, e: Env): Interval {
    var lost, delivered := U32(e.lost - lt.lost), U32(e.delivered - lt.delivered);
    var t := U32(U32(e.deliveredStamp / USEC_PER_MSEC) - lt.stamp);
    if delivered == 0 || U32(lost * BBR_UNIT) < U32(LT_LOSS_THRESH * delivered) then Wait
    else if S32(t) < 1 then Wait
    else if t >= NO_RTT / USEC_PER_MSEC then TooLong
    else Rate(U32(U64(delivered * BW_UNIT) / (t * USEC_PER_MSEC)))
  }

  /** The sampling interval: 4 to 16 rounds long and ended by a loss. */
  function LtInterval(g: Gain, lt: Lt, e: Env, rs: Sample): Sampler {
    if lt.rttCnt < LT_INTVL_MIN_RTTS then Sampler(g, lt)
    else if lt.rttCnt > 4 * LT_INTVL_MIN_RTTS then Sampler(g, ResetLt(lt, e))
    else if rs.losses == 0 then Sampler(g, lt)
    else match MeasureInterval(lt, e)
      case Wait => Sampler(g, lt)
      case TooLong => Sampler(g, ResetLt(lt, e))
      case Rate(bw) => LtIntervalDone(g, lt, e, bw)
  }

  function LtSampling(g: Gain, lt: Lt, roundStart: bool, e: Env, rs: Sample): Sampler {
    if lt.useBw then
      if g.mode == ProbeBw && roundStart then
        var l := lt.(rttCnt := lt.rttCnt + 1);
        if l.rttCnt >= LT_BW_MAX_RTTS then Sampler(ResetProbeBw(g, e), ResetLt(l, e)) else Sampler(g, l)
      else Sampler(g, lt)
    else if !lt.sampling && rs.losses == 0 then Sampler(g, lt)
    else
      var l := if lt.sampling then lt else ResetLtInterval(lt, e).(sampling := true);
      if rs.isAppLimited then Sampler(g, ResetLt(l, e))
      else LtInterval(g, if roundStart then l.(rttCnt := l.rttCnt + 1) else l, e, rs)
  }

  // ----- The network model -----

  predicate ValidSample(rs: Sample) { rs.delivered >= 0 && rs.intervalUs > 0 }

  /** A packet sent after the last round began has been acked. */
  predicate RoundBegins(p: Path, rs: Sample) {
    ValidSample(rs) && rs.priorDelivered >= p.nextRtt
  }

  function FilterBw(p: Path, e: Env, rs: Sample): nat
    requires ValidSample(rs)
  {
    if !rs.isAppLimited || U64(rs.delivered * BW_UNIT) / rs.intervalUs >= p.maxBw then e.filterBw else p.maxBw
  }

  function UpdateBw(s: State, e: Env, rs: Sample): State {
    if !ValidSample(rs) then s.(path := s.path.(roundStart := false))
    else
      var begins := RoundBegins(s.path, rs);
      var p := if begins then s.path.(nextRtt := e.delivered, rttCnt := U32(s.path.rttCnt + 1), roundStart := true)
               else s.path.(roundStart := false);
      var m := LtSampling(s.gain, s.lt, begins, e, rs);
      State(p.(maxBw := FilterBw(p, e, rs)), m.gain, m.lt, s.probe,
            s.win.(conserving := s.win.conserving && !begins))
  }

  function CheckFullBw(s: State, rs: Sample): State {
    if FullBwReached(s.gain) || !s.path.roundStart || rs.isAppLimited then s
    else if s.path.maxBw >= U32(s.gain.fullBw * FULL_BW_THRESH / BBR_UNIT)
    then s.(gain := s.gain.(fullBw := s.path.maxBw, fullBwCnt := 0))
    else s.(gain := s.gain.(fullBwCnt := s.gain.fullBwCnt + 1))
  }

  function CheckDrain(s: State, e: Env): State {
    var g := if s.gain.mode == Startup && FullBwReached(s.gain)
             then s.gain.(mode := Drain, pacing := DRAIN_GAIN, cwnd := HIGH_GAIN) else s.gain;
    s.(gain := if g.mode == Drain && e.inFlight <= Target(s, s.path.maxBw, BBR_UNIT) then ResetProbeBw(g, e) else g)
  }

  function SaveCwnd(w: Win, mode: Mode): Win {
    if (w.prevCa != Recovery && w.prevCa != Loss) && mode != ProbeRtt then w.(priorCwnd := w.cwnd)
    else w.(priorCwnd := Max(w.priorCwnd, w.cwnd))
  }

  function WindowTicks(hz: nat): nat { 10 * hz }

  /** msecs_to_jiffies(200). */
  function ProbeTicks(hz: nat): nat { (200 * hz + 999) / 1000 }

  predicate FilterExpired(p: Path, e: Env) { e.now > p.minRttStamp + WindowTicks(e.hz) }

  function TakeRtt(p: Path, e: Env, rs: Sample): Path {
    if rs.rttUs >= 0 && (rs.rttUs <= p.minRtt || FilterExpired(p, e))
    then p.(minRtt := U32(rs.rttUs), minRttStamp := e.now) else p
  }

  /** The window is saved once the mode is already PROBE_RTT. */
  function EnterProbeRtt(s: State): State {
    s.(gain := s.gain.(mode := ProbeRtt, pacing := BBR_UNIT, cwnd := BBR_UNIT),
       probe := s.probe.(doneStamp := 0), win := SaveCwnd(s.win, ProbeRtt))
  }

  /** Inside PROBE_RTT: note when in-flight has fallen to 4, then wait for 200 ms and a round. */
  function ProbeRttStep(s: State, e: Env): State {
    var limited := U32(e.delivered + e.inFlight);
    var t := s.(win := s.win.(appLimited := if limited == 0 then 1 else limited));
    if s.probe.doneStamp == 0 then
      if e.inFlight <= CWND_MIN_TARGET then
        t.(probe := s.probe.(doneStamp := e.now + ProbeTicks(e.hz), roundDone := false),
           path := s.path.(nextRtt := e.delivered))
      else t
    else
      var roundDone := s.probe.roundDone || s.path.roundStart;
      if roundDone && e.now > s.probe.doneStamp then
        State(s.path.(minRttStamp := e.now), ResetMode(s.gain, e), s.lt, s.probe.(roundDone := true),
              t.win.(restoreCwnd := true))
      else t.(probe := s.probe.(roundDone := roundDone))
  }

  function UpdateMinRtt(s: State, e: Env, rs: Sample): State {
    var expired := FilterExpired(s.path, e);
    var t := s.(path := TakeRtt(s.path, e, rs));
    var u := if expired && !s.probe.idleRestart && s.gain.mode != ProbeRtt then EnterProbeRtt(t) else t;
    var v := if u.gain.mode == ProbeRtt then ProbeRttStep(u, e) else u;
    v.(probe := v.probe.(idleRestart := false))
  }

  /** `bbr_update_model` up to its last step. */
  function BeforeMinRtt(s: State, e: Env, rs: Sample): State {
    CheckDrain(CheckFullBw(UpdateCycle(UpdateBw(s, e, rs), e, rs), rs), e)
  }

  function UpdateModel(s: State, e: Env, rs: Sample): State {
    UpdateMinRtt(BeforeMinRtt(s, e, rs), e, rs)
  }

  // ----- Acting on the model -----

  function InitPacingRate(w: Win, e: Env): Win {
    var rtt := if e.srtt != 0 then Max(e.srtt / 8, 1) else USEC_PER_MSEC;
    var bw := U32(U64(w.cwnd * BW_UNIT) / rtt);
    w.(seenRtt := w.seenRtt || e.srtt != 0, pacingRate := PacingRate(e, bw, HIGH_GAIN))
  }

  function SetPacingRate(w: Win, e: Env, full: bool, bw: nat, gain: nat): Win {
    var rate := PacingRate(e, bw, gain);
    var v := if !w.seenRtt && e.srtt != 0 then InitPacingRate(w, e) else w;
    if full || rate > v.pacingRate then v.(pacingRate := rate) else v
  }

  function SetTsoGoal(w: Win, e: Env): Win {
    w.(tsoGoal := Min(if w.pacingRate < MIN_TSO_RATE / 8 then e.tsoOne else e.tsoTwo, 0x7F))
  }

  /** cwnd less the packets just lost, but at least 1. */
  function DeductLosses(cwnd: nat, losses: nat): nat {
    if losses > 0 then
      var left := S32(U32(cwnd - losses));
      if left > 1 then left else 1
    else cwnd
  }

  predicate InRecovery(c: CaState) { c == Recovery || c == Loss }

  datatype Recovered = Recovered(win: Win, nextRtt: nat, cwnd: nat)

  /** The window after losses, entry into recovery and restoring; `win.conserving` tells whether
      packet conservation decides it. */
  function RecoverOrRestore(w: Win, nextRtt: nat, e: Env, rs: Sample, acked: nat): Recovered {
    var cut := DeductLosses(w.cwnd, rs.losses);
    var starting := e.caState == Recovery && w.prevCa != Recovery;
    var exiting := !starting && InRecovery(w.prevCa) && !InRecovery(e.caState);
    var conserving := starting || (w.conserving && !exiting);
    var flight := U32(e.inFlight + acked);
    var base := if starting then flight else cut;
    var cwnd := if w.restoreCwnd || exiting then Max(base, w.priorCwnd) else base;
    Recovered(w.(prevCa := e.caState, restoreCwnd := false, conserving := conserving),
              if starting then e.delivered else nextRtt,
              if conserving then Max(cwnd, flight) else cwnd)
  }

  function GrownCwnd(full: bool, delivered: nat, cwnd: nat, acked: nat, target: nat): nat {
    Max(CWND_MIN_TARGET,
        if full then Min(U32(cwnd + acked), target)
        else if cwnd < target || delivered < TCP_INIT_CWND then U32(cwnd + acked)
        else cwnd)
  }

  function SetCwnd(s: State, e: Env, rs: Sample, acked: nat, bw: nat, gain: nat): State {
    if acked == 0 then s
    else
      var r := RecoverOrRestore(s.win, s.path.nextRtt, e, rs, acked);
      var cwnd := if r.win.conserving then r.cwnd
                  else GrownCwnd(FullBwReached(s.gain), e.delivered, r.cwnd, acked, Target(s, bw, gain));
      var capped := Min(cwnd, e.cwndClamp);
      s.(path := s.path.(nextRtt := r.nextRtt),
         win := r.win.(cwnd := if s.gain.mode == ProbeRtt then Min(capped, CWND_MIN_TARGET) else capped))
  }

  function Paced(s: State, e: Env): State {
    s.(win := SetTsoGoal(SetPacingRate(s.win, e, FullBwReached(s.gain), Bandwidth(s), s.gain.pacing), e))
  }

  // ----- The entry points -----

  function Main(s: State, e: Env, rs: Sample): State {
    var t := Paced(UpdateModel(s, e, rs), e);
    SetCwnd(t, e, rs, rs.ackedSacked, Bandwidth(t), t.gain.cwnd)
  }

  /** CA_EVENT_TX_START. */
  function TxStart(s: State, e: Env): State {
    if s.win.appLimited == 0 then s
    else
      var t := s.(probe := s.probe.(idleRestart := true));
      if s.gain.mode == ProbeBw
      then t.(win := SetPacingRate(s.win, e, FullBwReached(s.gain), Bandwidth(s), BBR_UNIT)) else t
  }

  /** The sample `bbr_set_state` makes up for an RTO. */
  const RTO_SAMPLE: Sample := Sample(0, 0, 0, 0, 1, false, 0, 0)

  function SetCaState(s: State, e: Env, ca: CaState): State {
    if ca == Loss then
      var m := LtSampling(s.gain.(fullBw := 0), s.lt, true, e, RTO_SAMPLE);
      State(s.path.(roundStart := true), m.gain, m.lt, s.probe, s.win.(prevCa := Loss))
    else s
  }

  function Init(e: Env, minRtt: nat, cwnd: nat, appLimited: nat, pacingRate: nat): State {
    State(Path(minRtt, e.now, 0, 0, 0, false),
          ResetStartup(Gain(Startup, 0, 0, 0, 0, 0, 0)),
          ResetLt(Lt(false, 0, false, 0, 0, 0, 0), e),
          Probe(0, false, false),
          InitPacingRate(Win(Open, false, false, 0, cwnd, appLimited, 0, false, pacingRate), e))
  }
}
