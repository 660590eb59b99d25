/** What holds of BBR over whole runs: its modes, its gains, its long-term sampler and PROBE_RTT. */
module BbrRuns {
  import opened Bbr

  /** A call from the TCP core into BBR, or a change the core makes to the shared fields itself. */
  datatype Event =
    | Acked(e: Env, rs: Sample)
    | TxStarted(e: Env)
    | EnteringLoss
    | StateSet(e: Env, ca: CaState)
    | CoreChange(cwnd: nat, appLimited: nat)

  function Step(s: State, ev: Event): State {
    match ev
    case Acked(e, rs) => Main(s, e, rs)
    case TxStarted(e) => TxStart(s, e)
    case EnteringLoss => s.(win := SaveCwnd(s.win, s.gain.mode))
    case StateSet(e, ca) => SetCaState(s, e, ca)
    case CoreChange(cwnd, appLimited) => s.(win := s.win.(cwnd := cwnd, appLimited := appLimited))
  }

  function Exec(s: State, run: seq<Event>): State {
    if run == [] then s else Step(Exec(s, run[..|run| - 1]), run[|run| - 1])
  }

  // ----- Invariants -----

  ghost predicate WeakModes(g: Gain) {
    && g.fullBwCnt <= 3
    && (g.mode == Drain || g.mode == ProbeBw ==> g.fullBwCnt == 3)
  }

  function ModeCwndGain(mode: Mode): nat {
    match mode
    case Startup => HIGH_GAIN
    case Drain => HIGH_GAIN
    case ProbeBw => CWND_GAIN
    case ProbeRtt => BBR_UNIT
  }

  function ModePacingGain(g: Gain): nat {
    match g.mode
    case Startup => HIGH_GAIN
    case Drain => DRAIN_GAIN
    case ProbeBw => CycleGain(g.idx)
    case ProbeRtt => BBR_UNIT
  }

  /** Each mode has its cwnd gain, and its own pacing gain unless a policed rate is in use; then the
      gain may be 1 instead. */
  ghost predicate Gains(g: Gain, policed: bool) {
    && g.idx < CYCLE_LEN
    && g.cwnd == ModeCwndGain(g.mode)
    && (g.pacing == ModePacingGain(g) || (policed && g.pacing == BBR_UNIT))
  }

  /** The round counter of the sampler fits its 7 bits with room to spare. */
  ghost predicate LongTerm(lt: Lt) {
    && lt.rttCnt <= (if lt.useBw then LT_BW_MAX_RTTS - 1 else 4 * LT_INTVL_MIN_RTTS)
    && (lt.useBw ==> lt.sampling)
  }

  ghost predicate MachineOk(g: Gain, lt: Lt) {
    WeakModes(g) && Gains(g, lt.useBw) && LongTerm(lt)
  }

  /** STARTUP means the pipe is not yet estimated full, DRAIN and PROBE_BW that it is. */
  ghost predicate Good(s: State) {
    MachineOk(s.gain, s.lt) && (s.gain.mode == Startup ==> s.gain.fullBwCnt < 3)
  }

  lemma InitGood(e: Env, minRtt: nat, cwnd: nat, appLimited: nat, pacingRate: nat)
    ensures Good(Init(e, minRtt, cwnd, appLimited, pacingRate))
  {
  }

  // ----- One step -----

  /** The sampler leaves mode and count alone, and gives up a policed rate only in PROBE_BW on its
      48th round. */
  ghost predicate SamplerStep(g: Gain, lt: Lt, m: Sampler) {
    && MachineOk(m.gain, m.lt)
    && m.gain.mode == g.mode && m.gain.fullBwCnt == g.fullBwCnt
    && (lt.useBw && !m.lt.useBw ==> g.mode == ProbeBw && lt.rttCnt == LT_BW_MAX_RTTS - 1)
  }

  lemma LtSamplingKeeps(g: Gain, lt: Lt, roundStart: bool, e: Env, rs: Sample)
    requires MachineOk(g, lt)
    ensures SamplerStep(g, lt, LtSampling(g, lt, roundStart, e, rs))
  {
    hide U32, U64, MeasureInterval, Consistent;
  }

  lemma CheckFullBwKeeps(s: State, rs: Sample)
    requires MachineOk(s.gain, s.lt)
    ensures var t := CheckFullBw(s, rs);
            && MachineOk(t.gain, t.lt) && t.gain.mode == s.gain.mode && t.lt == s.lt
            && (s.gain.fullBwCnt == 3 ==> t.gain.fullBwCnt == 3)
  {
    hide U32;
  }

  lemma CheckDrainKeeps(s: State, e: Env)
    requires MachineOk(s.gain, s.lt)
    ensures var t := CheckDrain(s, e);
            && Good(t) && t.gain.fullBwCnt == s.gain.fullBwCnt && t.lt == s.lt
            && (t.gain.mode == s.gain.mode || (s.gain.mode == Startup && t.gain.mode == Drain)
                || (s.gain.mode != ProbeRtt && t.gain.mode == ProbeBw))
  {
    hide Target;
  }

  lemma UpdateMinRttKeeps(s: State, e: Env, rs: Sample)
    requires Good(s)
    ensures var t := UpdateMinRtt(s, e, rs);
            && Good(t) && t.gain.fullBwCnt == s.gain.fullBwCnt && t.lt == s.lt
            && (t.gain.mode == s.gain.mode || t.gain.mode == ProbeRtt
                || (s.gain.mode == ProbeRtt && t.gain.mode == if s.gain.fullBwCnt == 3 then ProbeBw else Startup))
  {
    hide U32, FilterExpired, TakeRtt, SaveCwnd, ProbeTicks;
  }

  lemma ActKeeps(s: State, e: Env, rs: Sample)
    ensures var t := Paced(s, e);
            var u := SetCwnd(t, e, rs, rs.ackedSacked, Bandwidth(t), t.gain.cwnd);
            u.gain == s.gain && u.lt == s.lt && u.probe == s.probe
  {
    hide SetTsoGoal, SetPacingRate, RecoverOrRestore, GrownCwnd, Target;
  }

  /** The edges of the mode diagram; the full-pipe count after the step decides where PROBE_RTT is
      left to, never DRAIN. */
  ghost predicate ModeChange(g: Gain, h: Gain) {
    || h.mode == g.mode
    || h.mode == ProbeRtt
    || (g.mode == Startup && (h.mode == Drain || h.mode == ProbeBw))
    || (g.mode == Drain && h.mode == ProbeBw)
    || (g.mode == ProbeRtt && h.mode == if h.fullBwCnt == 3 then ProbeBw else Startup)
  }

  /** What one call keeps: the invariants stay, the full-pipe count does not go down from 3, the mode
      follows the diagram, and the policed rate is dropped only in PROBE_BW, on its 48th round. */
  ghost predicate Kept(s: State, t: State) {
    && Good(t)
    && (s.gain.fullBwCnt == 3 ==> t.gain.fullBwCnt == 3)
    && ModeChange(s.gain, t.gain)
    && (s.lt.useBw && !t.lt.useBw ==> s.gain.mode == ProbeBw && s.lt.rttCnt == LT_BW_MAX_RTTS - 1)
  }

  lemma MainKeeps(s: State, e: Env, rs: Sample)
    requires Good(s)
    ensures Kept(s, Main(s, e, rs))
  {
    hide LtSampling, IsNextCyclePhase, CheckFullBw, CheckDrain, UpdateMinRtt, Paced, SetCwnd, FilterBw, U32;
    LtSamplingKeeps(s.gain, s.lt, RoundBegins(s.path, rs), e, rs);
    var a := UpdateBw(s, e, rs);
    var b := UpdateCycle(a, e, rs);
    var c := CheckFullBw(b, rs);
    var d := CheckDrain(c, e);
    CheckFullBwKeeps(b, rs);
    CheckDrainKeeps(c, e);
    UpdateMinRttKeeps(d, e, rs);
    ActKeeps(UpdateMinRtt(d, e, rs), e, rs);
  }

  lemma StepKeeps(s: State, ev: Event)
    requires Good(s)
    ensures Kept(s, Step(s, ev))
  {
    hide Main, LtSampling, SetPacingRate, SaveCwnd;
    match ev {
      case Acked(e, rs) => MainKeeps(s, e, rs);
      case StateSet(e, ca) => LtSamplingKeeps(s.gain.(fullBw := 0), s.lt, true, e, RTO_SAMPLE);
      case _ =>
    }
  }

  /** Over any run the invariants hold, and once the pipe has been estimated full it stays so:
      STARTUP is never entered again. */
  lemma {:induction false} RunKeeps(s: State, run: seq<Event>)
    requires Good(s)
    ensures Good(Exec(s, run))
    ensures s.gain.fullBwCnt == 3 ==> Exec(s, run).gain.fullBwCnt == 3 && Exec(s, run).gain.mode != Startup
  {
    hide Step;
    if run != [] {
      RunKeeps(s, run[..|run| - 1]);
      StepKeeps(Exec(s, run[..|run| - 1]), run[|run| - 1]);
    }
  }

  // ----- The gain cycle -----

  function AdvanceMany(g: Gain, envs: seq<Env>): Gain {
    if envs == [] then g else AdvanceCycle(AdvanceMany(g, envs[..|envs| - 1]), envs[|envs| - 1])
  }

  function GainSum(g: Gain, envs: seq<Env>): nat {
    if envs == [] then 0 else GainSum(g, envs[..|envs| - 1]) + AdvanceMany(g, envs).pacing
  }

  /** Sum of the k gains that follow index idx. */
  function TableSum(idx: nat, k: nat): nat {
    if k == 0 then 0 else TableSum(idx, k - 1) + CycleGain((idx + k) % CYCLE_LEN)
  }

  lemma NextIndex(a: nat)
    ensures (a % CYCLE_LEN + 1) % CYCLE_LEN == (a + 1) % CYCLE_LEN
  {
  }

  lemma {:induction false} AdvanceFollowsTable(g: Gain, envs: seq<Env>)
    requires g.idx < CYCLE_LEN
    ensures AdvanceMany(g, envs).idx == (g.idx + |envs|) % CYCLE_LEN
    ensures GainSum(g, envs) == TableSum(g.idx, |envs|)
  {
    if envs != [] {
      AdvanceFollowsTable(g, envs[..|envs| - 1]);
      NextIndex(g.idx + |envs| - 1);
    }
  }

  lemma {:induction false} TableSumShift(idx: nat, k: nat)
    ensures TableSum(idx, k + 1) == CycleGain((idx + 1) % CYCLE_LEN) + TableSum(idx + 1, k)
  {
    if k > 0 {
      TableSumShift(idx, k - 1);
    }
  }

  lemma TableSumStart()
    ensures TableSum(0, CYCLE_LEN) == CYCLE_LEN * BBR_UNIT
  {
    assert TableSum(0, 1) == 192;
    assert TableSum(0, 2) == 448;
    assert TableSum(0, 3) == 704;
    assert TableSum(0, 4) == 960;
    assert TableSum(0, 5) == 1216;
    assert TableSum(0, 6) == 1472;
    assert TableSum(0, 7) == 1728;
  }

  lemma TableSumLast(idx: nat)
    requires idx > 0
    ensures TableSum(idx - 1, CYCLE_LEN + 1) == TableSum(idx - 1, CYCLE_LEN) + CycleGain(idx % CYCLE_LEN)
  {
    hide CycleGain;
    assert (idx - 1 + (CYCLE_LEN + 1)) % CYCLE_LEN == idx % CYCLE_LEN;
  }

  /** One whole turn has the same sum from any start. */
  lemma {:induction false} TableSumOfCycle(idx: nat)
    ensures TableSum(idx, CYCLE_LEN) == CYCLE_LEN * BBR_UNIT
  {
    hide CycleGain, TableSum;
    if idx == 0 {
      TableSumStart();
    } else {
      TableSumOfCycle(idx - 1);
      TableSumShift(idx - 1, CYCLE_LEN);
      TableSumLast(idx);
    }
  }

  /** Wherever the cycle stands, eight phases pace at the estimated bandwidth on average. */
  lemma CycleIsNeutral(g: Gain, envs: seq<Env>)
    requires g.idx < CYCLE_LEN && |envs| == CYCLE_LEN
    ensures GainSum(g, envs) == CYCLE_LEN * BBR_UNIT
    ensures AdvanceMany(g, envs).idx == g.idx
  {
    AdvanceFollowsTable(g, envs);
    TableSumOfCycle(g.idx);
  }

  function StartIndex(g: Gain, e: Env, random: nat): nat {
    ResetProbeBw(g, e.(random := random)).idx
  }

  /** The random start of a cycle can be any phase but the one that yields bandwidth. */
  lemma CycleStart(g: Gain, e: Env, idx: nat)
    ensures (exists random: nat :: random < CYCLE_RAND && StartIndex(g, e, random) == idx)
       <==> idx < CYCLE_LEN && CycleGain(idx) >= BBR_UNIT
  {
    if idx < CYCLE_LEN && idx != 1 {
      var random: nat := if idx == 0 then 0 else 8 - idx;
      assert random < CYCLE_RAND && StartIndex(g, e, random) == idx;
    }
  }
}
