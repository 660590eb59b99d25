/** A run in which the wrapped test makes BBR take up a long-term rate the path does not have. */
module BbrPolicer {
  import opened Bbr
  import opened BbrRuns
  import opened BbrProbeRtt
  import opened BbrRounds
  import opened BbrLongTerm

  /** The sample of an ACK for a packet sent after `prior` deliveries, with one packet lost. */
  function Lossy(prior: nat): Sample {
    Sample(1, 1, prior, 1, 1, false, 1, 1)
  }

  /** An ACK that begins a round puts one round into the sampler and starts the next. */
  lemma RoundSampled(s: State, e: Env, rs: Sample)
    requires RoundBegins(s.path, rs)
    ensures var t := Main(s, e, rs);
            t.lt == LtSampling(s.gain, s.lt, true, e, rs).lt && t.path.nextRtt == e.delivered
  {
    MainMark(s, e, rs);
    hide LtSampling, IsNextCyclePhase, CheckFullBw, CheckDrain, UpdateMinRtt, Paced, SetCwnd, FilterBw, U32;
    var u := UpdateCycle(UpdateBw(s, e, rs), e, rs);
    var v := CheckDrain(CheckFullBw(u, rs), e);
    LtStands(u, v, e, rs);
    ActKeeps(UpdateMinRtt(v, e, rs), e, rs);
  }

  lemma LtStands(u: State, v: State, e: Env, rs: Sample)
    ensures CheckDrain(CheckFullBw(u, rs), e).lt == u.lt && UpdateMinRtt(v, e, rs).lt == v.lt
  {
    hide U32, Target, FilterExpired, TakeRtt, SaveCwnd, ProbeTicks, ResetMode, ResetProbeBw;
  }

  /** The sampler when its interval begins, at the latest with this loss. */
  function Begun(lt: Lt, e: Env): Lt {
    if lt.sampling then lt else ResetLtInterval(lt, e).(sampling := true)
  }

  lemma BegunFacts(lt: Lt, e: Env)
    requires !lt.useBw && (lt.sampling ==> lt.rttCnt == 0)
    ensures var l := Begun(lt, e); l.sampling && !l.useBw && l.rttCnt == 0
  {
    hide U32;
  }

  lemma LossyRound(g: Gain, lt: Lt, e: Env, prior: nat)
    requires !lt.useBw
    ensures var l := Begun(lt, e);
            LtSampling(g, lt, true, e, Lossy(prior)) == LtInterval(g, l.(rttCnt := l.rttCnt + 1), e, Lossy(prior))
  {
    hide LtInterval, U32;
  }

  lemma EarlyRound(g: Gain, lt: Lt, e: Env, prior: nat)
    requires lt.rttCnt < LT_INTVL_MIN_RTTS
    ensures LtInterval(g, lt, e, Lossy(prior)).lt == lt
  {
    hide MeasureInterval, U32;
  }

  /** What the sampler becomes at the end of an interval does not depend on the gains. */
  lemma LastRound(g: Gain, h: Gain, lt: Lt, e: Env, prior: nat, bw: nat)
    requires lt.rttCnt == LT_INTVL_MIN_RTTS && MeasureInterval(lt, e) == Rate(bw)
    ensures LtInterval(g, lt, e, Lossy(prior)).lt == LtIntervalDone(h, lt, e, bw).lt
  {
    hide MeasureInterval, Consistent, ResetLtInterval, U32;
  }

  /** Four lossy ACKs, each beginning a round. */
  ghost predicate FourRounds(run: seq<Event>, from: nat, mark: nat) {
    && from + 4 <= |run|
    && (forall k | from <= k < from + 4 :: run[k].Acked?)
    && run[from].rs == Lossy(mark)
    && (forall k | from < k < from + 4 :: run[k].rs == Lossy(run[k - 1].e.delivered))
  }

  /** One interval of four rounds ends with the rate measured over it. */
  lemma IntervalRuns(s0: State, run: seq<Event>, from: nat, bw: nat)
    requires from + 4 <= |run|
    requires var s := Exec(s0, run[..from]);
             && FourRounds(run, from, s.path.nextRtt) && !s.lt.useBw && (s.lt.sampling ==> s.lt.rttCnt == 0)
             && MeasureInterval(Begun(s.lt, run[from].e).(rttCnt := 4), run[from + 3].e) == Rate(bw)
    ensures var s, t := Exec(s0, run[..from]), Exec(s0, run[..from + 4]);
            && t.lt == LtIntervalDone(s.gain, Begun(s.lt, run[from].e).(rttCnt := 4), run[from + 3].e, bw).lt
            && t.path.nextRtt == run[from + 3].e.delivered
  {
    hide Exec, Step, Main, LtSampling, LtInterval, LtIntervalDone, MeasureInterval, ResetLtInterval, Lossy;
    var s := Exec(s0, run[..from]);
    var l := Begun(s.lt, run[from].e);
    BegunFacts(s.lt, run[from].e);
    OneRound(s0, run, from);
    EarlyRound(s.gain, l.(rttCnt := 1), run[from].e, s.path.nextRtt);
    var s1 := Exec(s0, run[..from + 1]);
    OneRound(s0, run, from + 1);
    EarlyRound(s1.gain, l.(rttCnt := 2), run[from + 1].e, s1.path.nextRtt);
    var s2 := Exec(s0, run[..from + 2]);
    OneRound(s0, run, from + 2);
    EarlyRound(s2.gain, l.(rttCnt := 3), run[from + 2].e, s2.path.nextRtt);
    var s3 := Exec(s0, run[..from + 3]);
    OneRound(s0, run, from + 3);
    LastRound(s3.gain, s.gain, l.(rttCnt := 4), run[from + 3].e, s3.path.nextRtt, bw);
  }

  lemma OneRound(s0: State, run: seq<Event>, k: nat)
    requires k < |run| && run[k].Acked? && run[k].rs == Lossy(Exec(s0, run[..k]).path.nextRtt)
    requires !Exec(s0, run[..k]).lt.useBw
    ensures var s, t := Exec(s0, run[..k]), Exec(s0, run[..k + 1]);
            var l := Begun(s.lt, run[k].e);
            && t.lt == LtInterval(s.gain, l.(rttCnt := l.rttCnt + 1), run[k].e, run[k].rs).lt
            && t.path.nextRtt == run[k].e.delivered
  {
    hide Exec, Step, Main, LtSampling, LtInterval, Begun;
    var s := Exec(s0, run[..k]);
    PrefixStep(s0, run, k);
    StepIsMain(s, run[k]);
    RoundSampled(s, run[k].e, run[k].rs);
    LossyRound(s.gain, s.lt, run[k].e, s.path.nextRtt);
  }

  // ----- The run -----

  /** A counter of deliveries and losses and a clock in seconds, with MTU 1500. */
  function Reading(delivered: nat, lost: nat, seconds: nat): Env {
    Env(1 + seconds * 1000, 1000, delivered, seconds * USEC_PER_SEC, lost, 0, Open, 1000, 1500, 1000000, 0, 0, 0, 1, 2)
  }

  /** Four rounds in which a million packets are delivered in one second and 200000 are lost, then four in
      which 4 are delivered in 68 seconds and 4 are lost. */
  function StallingRun(): (run: seq<Event>)
    ensures |run| == 8
  {
    [Acked(Reading(0, 0, 0), Lossy(0)),
     Acked(Reading(300000, 60000, 0), Lossy(0)),
     Acked(Reading(600000, 120000, 0), Lossy(300000)),
     Acked(Reading(1000000, 200000, 1), Lossy(600000)),
     Acked(Reading(1000001, 200001, 18), Lossy(1000000)),
     Acked(Reading(1000002, 200002, 35), Lossy(1000001)),
     Acked(Reading(1000003, 200003, 52), Lossy(1000002)),
     Acked(Reading(1000004, 200004, 69), Lossy(1000003))]
  }

  lemma FirstRate(lt: Lt)
    requires lt.stamp == lt.delivered == lt.lost == 0
    ensures MeasureInterval(lt, Reading(1000000, 200000, 1)) == Rate(SAFE_RATE)
  {
    assert U32(1000000) == 1000000 && U32(200000) == 200000 && U32(1000) == 1000;
    assert U32(200000 * BBR_UNIT) == 51200000 && U32(LT_LOSS_THRESH * 1000000) == 50000000;
    assert U64(1000000 * BW_UNIT) == 1000000 * BW_UNIT;
    assert U32(SAFE_RATE) == SAFE_RATE;
  }

  lemma SecondRate(lt: Lt)
    requires lt.stamp == 1000 && lt.delivered == 1000000 && lt.lost == 200000
    ensures MeasureInterval(lt, Reading(1000004, 200004, 69)) == Rate(0)
  {
    assert U32(4) == 4 && U32(69000) == 69000 && U32(68000) == 68000;
    assert U32(4 * BBR_UNIT) == 1024 && U32(LT_LOSS_THRESH * 4) == 200;
    assert U64(4 * BW_UNIT) == 4 * BW_UNIT;
    assert U32(0) == 0;
  }

  lemma TakenUp(g: Gain, lt: Lt, e: Env)
    requires lt.bw == SAFE_RATE && 0 < e.mtu
    ensures var t := LtIntervalDone(g, lt, e, 0).lt; t.useBw && t.bw == SAFE_RATE / 2
  {
    StandstillIsConsistent(e);
    assert U32(SAFE_RATE) == SAFE_RATE;
    hide Consistent, U32;
  }

  lemma FirstInterval(g: Gain, lt: Lt, e: Env)
    requires lt.bw == 0 && e == Reading(1000000, 200000, 1)
    ensures var t := LtIntervalDone(g, lt, e, SAFE_RATE).lt;
            && t == lt.(bw := SAFE_RATE, stamp := 1000, delivered := 1000000, lost := 200000, rttCnt := 0)
  {
    assert U32(1000000) == 1000000 && U32(200000) == 200000 && U32(1000) == 1000;
    hide Consistent, U32;
  }

  lemma StartsAtZero(lt: Lt)
    requires !lt.sampling && !lt.useBw && lt.bw == 0
    ensures Begun(lt, Reading(0, 0, 0)) == Lt(true, 0, false, 0, 0, 0, 0)
  {
    assert U32(0) == 0;
    hide U32;
  }

  lemma StallingRounds()
    ensures FourRounds(StallingRun(), 0, 0) && FourRounds(StallingRun(), 4, 1000000) && EnvOk(StallingRun())
  {
  }

  lemma StallingReadings()
    ensures var run := StallingRun();
            && run[0].Acked? && run[3].Acked? && run[4].Acked? && run[7].Acked?
            && run[0].e == Reading(0, 0, 0) && run[3].e == Reading(1000000, 200000, 1)
            && run[7].e == Reading(1000004, 200004, 69)
  {
  }

  lemma BegunAlready(lt: Lt, e: Env)
    requires lt.sampling
    ensures Begun(lt, e) == lt
  {
  }

  /** The first four rounds record a rate of 2^24. */
  lemma RateRecorded(s0: State, run: seq<Event>)
    requires s0.path.nextRtt == 0 && !s0.lt.sampling && !s0.lt.useBw && s0.lt.bw == 0 && run == StallingRun()
    ensures Exec(s0, run[..4]).path.nextRtt == 1000000
    ensures Exec(s0, run[..4]).lt == Lt(true, 0, false, SAFE_RATE, 1000000, 1000, 200000)
  {
    StallingRounds();
    StallingReadings();
    assert Exec(s0, run[..0]) == s0;
    StartsAtZero(s0.lt);
    hide Exec, Step, LtIntervalDone, MeasureInterval, ResetLtInterval, Begun, StallingRun, FourRounds, Reading;
    var l := Begun(s0.lt, run[0].e).(rttCnt := 4);
    FirstRate(l);
    IntervalRuns(s0, run, 0, SAFE_RATE);
    FirstInterval(s0.gain, l, run[3].e);
  }

  lemma RateTaken(s0: State, run: seq<Event>)
    requires s0.path.nextRtt == 0 && !s0.lt.sampling && !s0.lt.useBw && s0.lt.bw == 0 && run == StallingRun()
    ensures Exec(s0, run).lt.useBw && Exec(s0, run).lt.bw == SAFE_RATE / 2
  {
    StallingRounds();
    StallingReadings();
    RateRecorded(s0, run);
    assert run[..8] == run && Reading(1000004, 200004, 69).mtu == 1500;
    hide Exec, Step, LtIntervalDone, MeasureInterval, ResetLtInterval, Begun, StallingRun, FourRounds, Reading;
    var s := Exec(s0, run[..4]);
    BegunAlready(s.lt, run[4].e);
    SecondRate(s.lt.(rttCnt := 4));
    IntervalRuns(s0, run, 4, 0);
    TakenUp(s.gain, s.lt.(rttCnt := 4), run[7].e);
  }

  /** Any new connection can take up half of 2^24, 6 Gbit/s, as its bandwidth, though the path has delivered
      4 packets in the 68 seconds before. */
  lemma StandstillTaken(e: Env, minRtt: nat, cwnd: nat, appLimited: nat, pacingRate: nat) returns (run: seq<Event>)
    ensures EnvOk(run) && |run| == 8 && run[3].Acked? && run[7].Acked?
    ensures run[7].e.delivered == run[3].e.delivered + 4
    ensures run[7].e.deliveredStamp == run[3].e.deliveredStamp + 68 * USEC_PER_SEC
    ensures Bandwidth(Exec(Init(e, minRtt, cwnd, appLimited, pacingRate), run)) == SAFE_RATE / 2
  {
    run := StallingRun();
    StallingRounds();
    StallingReadings();
    assert forall k: nat, r: nat, t: nat ::
        Reading(k, r, t).delivered == k && Reading(k, r, t).deliveredStamp == t * USEC_PER_SEC;
    var s0 := Init(e, minRtt, cwnd, appLimited, pacingRate);
    assert s0.path.nextRtt == 0 && !s0.lt.sampling && !s0.lt.useBw && s0.lt.bw == 0;
    hide Exec, Init, StallingRun, EnvOk, Reading;
    RateTaken(s0, run);
  }
}
