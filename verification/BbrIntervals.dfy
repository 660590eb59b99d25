/** What a run must contain before BBR believes that it is policed: two intervals with heavy losses. */
module BbrIntervals {
  import opened Bbr
  import opened BbrRuns
  import opened BbrProbeRtt

  // ----- The events the sampler sees -----

  /** A valid sample of an ACK, or an RTO. */
  predicate Sampled(ev: Event) {
    || (ev.Acked? && ev.rs.delivered >= 0 && ev.rs.intervalUs > 0)
    || (ev.StateSet? && ev.ca == Loss)
  }

  function EnvOf(ev: Event): Env
    requires Sampled(ev)
  {
    ev.e
  }

  predicate Lossy(ev: Event) {
    Sampled(ev) && (ev.Acked? ==> ev.rs.losses > 0)
  }

  predicate Limited(ev: Event) {
    ev.Acked? && Sampled(ev) && ev.rs.isAppLimited
  }

  /** Event k counts a round: its ACK begins one, or it is an RTO. */
  ghost predicate CountsRound(s0: State, run: seq<Event>, k: nat) {
    && k < |run| && Sampled(run[k])
    && (run[k].Acked? ==> run[k].rs.priorDelivered >= Exec(s0, run[..k]).path.nextRtt)
  }

  /** The rounds counted from event a on. */
  ghost function Rounds(s0: State, run: seq<Event>, a: nat): nat {
    if |run| <= a then 0
    else Rounds(s0, run[..|run| - 1], a) + if CountsRound(s0, run, |run| - 1) then 1 else 0
  }

  function SampleOf(ev: Event): Sample
    requires Sampled(ev)
  {
    if ev.Acked? then ev.rs else RTO_SAMPLE
  }

  function GainOf(s: State, ev: Event): Gain {
    if ev.Acked? then s.gain else s.gain.(fullBw := 0)
  }

  lemma LtOfStep(s: State, ev: Event)
    ensures Step(s, ev).lt ==
              if Sampled(ev) then
                var round := ev.Acked? ==> ev.rs.priorDelivered >= s.path.nextRtt;
                LtSampling(GainOf(s, ev), s.lt, round, EnvOf(ev), SampleOf(ev)).lt
              else s.lt
  {
    if ev.Acked? {
      StepIsMain(s, ev);
      LtOfMain(s, ev.e, ev.rs);
    }
    hide LtSampling, SetPacingRate, Main;
  }

  lemma LtOfMain(s: State, e: Env, rs: Sample)
    ensures Main(s, e, rs).lt ==
              if ValidSample(rs) then LtSampling(s.gain, s.lt, rs.priorDelivered >= s.path.nextRtt, e, rs).lt else s.lt
  {
    hide LtSampling, IsNextCyclePhase, CheckFullBw, CheckDrain, UpdateMinRtt, Paced, SetCwnd, FilterBw, U32;
    var u := UpdateCycle(UpdateBw(s, e, rs), e, rs);
    var v := CheckDrain(CheckFullBw(u, rs), e);
    LtPasses(u, v, e, rs);
    ActKeeps(UpdateMinRtt(v, e, rs), e, rs);
  }

  lemma LtPasses(u: State, v: State, e: Env, rs: Sample)
    ensures CheckDrain(CheckFullBw(u, rs), e).lt == u.lt && UpdateMinRtt(v, e, rs).lt == v.lt
  {
    hide U32, Target, FilterExpired, TakeRtt, SaveCwnd, ProbeTicks, ResetMode, ResetProbeBw;
  }

  // ----- One sample -----

  ghost predicate Cleared(lt: Lt) {
    !lt.useBw && !lt.sampling && lt.bw == 0
  }

  /** The sampler with its interval begun, at the latest now. */
  function Opened(lt: Lt, e: Env): Lt {
    if lt.sampling then lt else ResetLtInterval(lt, e).(sampling := true)
  }

  lemma SameMeasure(lt: Lt, e: Env, c: nat)
    ensures MeasureInterval(lt.(rttCnt := c), e) == MeasureInterval(lt, e)
  {
    hide U32, U64, S32;
  }

  /** A rate in use stays, or the sampler is cleared. */
  lemma UsedCases(g: Gain, lt: Lt, round: bool, e: Env, rs: Sample)
    requires lt.useBw
    ensures var t := LtSampling(g, lt, round, e, rs).lt; t.useBw || Cleared(t)
  {
    hide U32, ResetProbeBw;
  }

  // ----- Intervals -----

  /** The clock in milliseconds. */
  function Ms(e: Env): nat { e.deliveredStamp / 1000 }

  /** The readings at the start of the interval. */
  ghost predicate Readings(lt: Lt, e: Env) {
    lt.stamp == U32(Ms(e)) && lt.delivered == U32(e.delivered) && lt.lost == U32(e.lost)
  }

  /** The interval under way began at event i, which had losses; its rounds are counted from event a, which is
      i for a first interval and the event after for one that follows another. */
  ghost predicate UnderWay(s0: State, run: seq<Event>, i: nat, a: nat) {
    var lt := Exec(s0, run).lt;
    && i <= a <= i + 1 && a <= |run| && i < |run| && Lossy(run[i])
    && lt.sampling && Readings(lt, EnvOf(run[i])) && lt.rttCnt == Rounds(s0, run, a)
    && (forall k | a <= k < |run| :: !Limited(run[k]))
  }

  /** What was delivered and lost between two events and the time in ms, in 32 bits. */
  function DeliveredBetween(a: Env, b: Env): nat { U32(b.delivered - a.delivered) }
  function LostBetween(a: Env, b: Env): nat { U32(b.lost - a.lost) }
  function MsBetween(a: Env, b: Env): nat { U32(Ms(b) - Ms(a)) }

  /** A sampling interval from event i to event j, with losses at both ends, 4 to 16 rounds, no sample limited
      by the application, a loss rate of at least 50/256 and a length of at least 1 ms and less than 2^32 us;
      bw is its rate. */
  ghost predicate Interval(s0: State, run: seq<Event>, i: nat, a: nat, j: nat, bw: nat) {
    && i <= a <= i + 1 && i < j < |run| && Lossy(run[i]) && Lossy(run[j])
    && 4 <= Rounds(s0, run[..j + 1], a) <= 16
    && (forall k | a <= k <= j :: !Limited(run[k]))
    && var delivered, lost, ms := DeliveredBetween(EnvOf(run[i]), EnvOf(run[j])),
                                  LostBetween(EnvOf(run[i]), EnvOf(run[j])), MsBetween(EnvOf(run[i]), EnvOf(run[j]));
    && delivered > 0 && U32(256 * lost) >= U32(50 * delivered)
    && 1 <= ms < 4294967
    && bw == U32(U64(delivered * BW_UNIT) / (ms * 1000))
  }

  lemma Difference(x: int, y: int)
    ensures U32(x - U32(y)) == U32(x - y)
  {
  }

  lemma Measured(lt: Lt, a: Env, e: Env, bw: nat)
    requires Readings(lt, a) && MeasureInterval(lt, e) == Rate(bw)
    ensures var delivered, lost, ms := DeliveredBetween(a, e), LostBetween(a, e), MsBetween(a, e);
            && delivered > 0 && U32(256 * lost) >= U32(50 * delivered)
            && 1 <= ms < 4294967
            && bw == U32(U64(delivered * BW_UNIT) / (ms * 1000))
  {
    MeasureCases(lt, a, e);
    hide MeasureInterval, Readings, U32, U64, DeliveredBetween, LostBetween, MsBetween;
  }

  lemma ClockDifference(x: nat, y: nat)
    ensures U32(U32(x) - U32(y)) == U32(x - y)
  {
  }

  lemma PositiveMs(t: nat)
    requires t < TWO32
    ensures S32(t) >= 1 <==> 1 <= t < 0x8000_0000
  {
  }

  // ----- Over a run -----

  ghost predicate Follows(s0: State, run: seq<Event>, i: nat, bw: nat) {
    bw != 0 ==> exists h: nat, b: nat :: Interval(s0, run, h, b, i, bw)
  }

  /** Unless a rate is in use, the sampler is clear or an interval is under way; a rate it remembers is that of
      the interval which ended where this one began. */
  ghost predicate Tracked(s0: State, run: seq<Event>) {
    var lt := Exec(s0, run).lt;
    || lt.useBw
    || Cleared(lt)
    || exists i: nat, a: nat :: UnderWay(s0, run, i, a) && Follows(s0, run, i, lt.bw)
  }

  lemma IntervalOn(s0: State, run: seq<Event>, i: nat, a: nat, j: nat, bw: nat)
    requires run != [] && Interval(s0, run[..|run| - 1], i, a, j, bw)
    ensures Interval(s0, run, i, a, j, bw)
  {
    hide Rounds, U32, U64, Limited, Lossy;
    assert run[..|run| - 1][..j + 1] == run[..j + 1];
  }

  lemma FollowsOn(s0: State, run: seq<Event>, i: nat, bw: nat)
    requires run != [] && Follows(s0, run[..|run| - 1], i, bw)
    ensures Follows(s0, run, i, bw)
  {
    hide Interval;
    if bw != 0 {
      var h: nat, b: nat :| Interval(s0, run[..|run| - 1], h, b, i, bw);
      IntervalOn(s0, run, h, b, i, bw);
    }
  }

  lemma RoundsOn(s0: State, run: seq<Event>, a: nat)
    requires run != [] && a <= |run|
    ensures Rounds(s0, run, a) ==
              if a == |run| then 0
              else Rounds(s0, run[..|run| - 1], a) + if CountsRound(s0, run, |run| - 1) then 1 else 0
  {
  }

  /** The rounds of the interval after the last event. */
  ghost function CountNow(s0: State, run: seq<Event>): nat
    requires run != []
  {
    Exec(s0, run[..|run| - 1]).lt.rttCnt + if CountsRound(s0, run, |run| - 1) then 1 else 0
  }

  /** An event that does not end the interval goes on with it. */
  lemma GoesOn(s0: State, run: seq<Event>, i: nat, a: nat)
    requires run != [] && UnderWay(s0, run[..|run| - 1], i, a) && !Limited(run[|run| - 1])
    requires Exec(s0, run).lt == Exec(s0, run[..|run| - 1]).lt.(rttCnt := CountNow(s0, run))
    ensures UnderWay(s0, run, i, a)
  {
    hide Exec, CountsRound, U32, Limited, Lossy;
    RoundsOn(s0, run, a);
  }

  /** A loss begins one. */
  lemma Begins(s0: State, run: seq<Event>)
    requires run != [] && Lossy(run[|run| - 1]) && !Limited(run[|run| - 1])
    requires var n := |run| - 1;
             var s, t := Exec(s0, run[..n]), Exec(s0, run);
             && !s.lt.sampling
             && t.lt == Opened(s.lt, EnvOf(run[n])).(rttCnt := if CountsRound(s0, run, n) then 1 else 0)
    ensures UnderWay(s0, run, |run| - 1, |run| - 1)
  {
    var n := |run| - 1;
    RoundsOn(s0, run, n);
    assert Rounds(s0, run[..n], n) == 0;
    hide Exec, CountsRound, U32;
  }

  /** The end of one begins the next. */
  lemma BeginsNext(s0: State, run: seq<Event>)
    requires run != [] && Lossy(run[|run| - 1]) && Exec(s0, run).lt.sampling
    requires Readings(Exec(s0, run).lt, EnvOf(run[|run| - 1])) && Exec(s0, run).lt.rttCnt == 0
    ensures UnderWay(s0, run, |run| - 1, |run|)
  {
    hide Exec, U32;
  }

  /** An event that ends one with a rate. */
  lemma Closes(s0: State, run: seq<Event>, i: nat, a: nat, bw: nat)
    requires run != [] && UnderWay(s0, run[..|run| - 1], i, a)
    requires Lossy(run[|run| - 1]) && !Limited(run[|run| - 1])
    requires 4 <= CountNow(s0, run) <= 16
    requires MeasureInterval(Exec(s0, run[..|run| - 1]).lt, EnvOf(run[|run| - 1])) == Rate(bw)
    ensures Interval(s0, run, i, a, |run| - 1, bw)
  {
    var n := |run| - 1;
    hide Exec, CountsRound, U32, U64, Limited, MeasureInterval, DeliveredBetween, LostBetween, MsBetween;
    assert run[..n + 1] == run;
    RoundsOn(s0, run, a);
    Measured(Exec(s0, run[..n]).lt, EnvOf(run[i]), EnvOf(run[n]), bw);
  }

  lemma DoneCases(g: Gain, lt: Lt, e: Env, bw: nat)
    ensures var t := LtIntervalDone(g, lt, e, bw).lt;
            if lt.bw != 0 && Consistent(lt.bw, e, bw) then t.useBw && t.bw == U32(bw + lt.bw) / 2
            else t == lt.(bw := bw, stamp := t.stamp, delivered := t.delivered, lost := t.lost, rttCnt := 0)
                 && Readings(t, e)
  {
    hide U32, Consistent;
  }

  lemma OpenedFacts(lt: Lt, e: Env)
    ensures var l := Opened(lt, e);
            (lt.sampling ==> l == lt) && (!lt.sampling ==> l.rttCnt == 0 && l.bw == lt.bw)
  {
    hide U32;
  }

  lemma TrackedBy(s0: State, run: seq<Event>, i: nat, a: nat)
    requires UnderWay(s0, run, i, a) && Follows(s0, run, i, Exec(s0, run).lt.bw)
    ensures Tracked(s0, run)
  {
  }

  /** The two rates of two intervals, one right after the other, are consistent and their mean is taken up. */
  ghost predicate TwoIntervals(s0: State, run: seq<Event>, h: nat, b: nat, i: nat, a: nat, first: nat, second: nat) {
    var n := |run| - 1;
    && run != [] && Sampled(run[n])
    && Interval(s0, run, h, b, i, first) && Interval(s0, run, i, a, n, second)
    && first != 0 && Consistent(first, EnvOf(run[n]), second)
    && Exec(s0, run).lt.bw == U32(second + first) / 2
  }

  ghost predicate TakenUp(s0: State, run: seq<Event>) {
    exists h: nat, b: nat, i: nat, a: nat, first: nat, second: nat :: TwoIntervals(s0, run, h, b, i, a, first, second)
  }

  lemma LossySampled(ev: Event)
    requires Lossy(ev)
    ensures Sampled(ev) && !ev.EnteringLoss? && !ev.CoreChange?
  {
  }

  lemma TrackedUsed(s0: State, run: seq<Event>)
    requires Exec(s0, run).lt.useBw
    ensures Tracked(s0, run)
  {
  }

  lemma TakenUpBy(s0: State, run: seq<Event>, h: nat, b: nat, i: nat, a: nat, first: nat, second: nat)
    requires TwoIntervals(s0, run, h, b, i, a, first, second)
    ensures TakenUp(s0, run)
  {
  }

  lemma FollowsWitness(s0: State, run: seq<Event>, i: nat, bw: nat) returns (h: nat, b: nat)
    requires Follows(s0, run, i, bw) && bw != 0
    ensures Interval(s0, run, h, b, i, bw)
  {
    hide Interval;
    h, b :| Interval(s0, run, h, b, i, bw);
  }

  lemma TakesUp(s0: State, run: seq<Event>, i: nat, a: nat, first: nat, second: nat)
    requires run != [] && Lossy(run[|run| - 1]) && Follows(s0, run, i, first) && first != 0
    requires Interval(s0, run, i, a, |run| - 1, second) && Consistent(first, run[|run| - 1].e, second)
    requires Exec(s0, run).lt.useBw && Exec(s0, run).lt.bw == U32(second + first) / 2
    ensures Tracked(s0, run) && TakenUp(s0, run)
  {
    LossySampled(run[|run| - 1]);
    assert EnvOf(run[|run| - 1]) == run[|run| - 1].e;
    hide Interval, Exec, U32, Consistent, Follows, TakenUp, Tracked, Lossy, Sampled, EnvOf;
    var h, b := FollowsWitness(s0, run, i, first);
    TakenUpBy(s0, run, h, b, i, a, first, second);
    TrackedUsed(s0, run);
  }

  lemma StartsOver(s0: State, run: seq<Event>, i: nat, a: nat, bw: nat)
    requires run != [] && Lossy(run[|run| - 1]) && Interval(s0, run, i, a, |run| - 1, bw)
    requires var t := Exec(s0, run).lt;
             t.sampling && t.bw == bw && t.rttCnt == 0 && Readings(t, run[|run| - 1].e)
    ensures Tracked(s0, run)
  {
    LossySampled(run[|run| - 1]);
    assert EnvOf(run[|run| - 1]) == run[|run| - 1].e;
    hide *;
    BeginsNext(s0, run);
    FollowsInterval(s0, run, i, a, |run| - 1, bw);
    TrackedBy(s0, run, |run| - 1, |run|);
  }

  /** A sample that ends an interval takes up its rate or begins the next one. */
  lemma EndTracks(s0: State, run: seq<Event>, i: nat, a: nat, g: Gain, c: nat, bw: nat)
    requires run != [] && Lossy(run[|run| - 1]) && Interval(s0, run, i, a, |run| - 1, bw)
    requires Exec(s0, run[..|run| - 1]).lt.sampling && !Exec(s0, run[..|run| - 1]).lt.useBw
    requires Follows(s0, run, i, Exec(s0, run[..|run| - 1]).lt.bw)
    requires var lt := Exec(s0, run[..|run| - 1]).lt;
             Exec(s0, run).lt == LtIntervalDone(g, lt.(rttCnt := c), run[|run| - 1].e, bw).lt
    ensures Tracked(s0, run)
    ensures Exec(s0, run).lt.useBw ==> TakenUp(s0, run)
  {
    hide *;
    LossySampled(run[|run| - 1]);
    var lt, e := Exec(s0, run[..|run| - 1]).lt, run[|run| - 1].e;
    DoneCases(g, lt.(rttCnt := c), e, bw);
    if lt.bw != 0 && Consistent(lt.bw, e, bw) {
      TakesUp(s0, run, i, a, lt.bw, bw);
    } else {
      StartsOver(s0, run, i, a, bw);
    }
  }

  lemma FollowsInterval(s0: State, run: seq<Event>, i: nat, a: nat, j: nat, bw: nat)
    requires Interval(s0, run, i, a, j, bw)
    ensures Follows(s0, run, j, bw)
  {
    hide Interval;
  }

  lemma SampleFacts(ev: Event)
    requires Sampled(ev)
    ensures (SampleOf(ev).losses > 0 <==> Lossy(ev)) && (SampleOf(ev).isAppLimited <==> Limited(ev))
  {
  }

  lemma LtOfRunStep(s0: State, run: seq<Event>)
    requires run != []
    ensures var n := |run| - 1;
            var s, t, ev := Exec(s0, run[..n]), Exec(s0, run), run[n];
            if Sampled(ev) then
              && t.lt == LtSampling(GainOf(s, ev), s.lt, CountsRound(s0, run, n), EnvOf(ev), SampleOf(ev)).lt
              && (SampleOf(ev).losses > 0 <==> Lossy(ev)) && (SampleOf(ev).isAppLimited <==> Limited(ev))
            else t.lt == s.lt && !CountsRound(s0, run, n) && !Limited(ev) && !Lossy(ev)
  {
    var n := |run| - 1;
    var s, ev := Exec(s0, run[..n]), run[n];
    LtOfStep(s, ev);
    hide Step, LtSampling;
    assert Exec(s0, run) == Step(s, ev);
    if Sampled(ev) {
      SampleFacts(ev);
    }
  }

  lemma SampleExactly(g: Gain, lt: Lt, round: bool, e: Env, rs: Sample)
    requires !lt.useBw && lt.sampling
    ensures var t, c := LtSampling(g, lt, round, e, rs).lt, lt.rttCnt + if round then 1 else 0;
            if rs.isAppLimited then Cleared(t)
            else if c < 4 then t == lt.(rttCnt := c)
            else if c > 16 then Cleared(t)
            else if rs.losses == 0 || MeasureInterval(lt, e).Wait? then t == lt.(rttCnt := c)
            else if MeasureInterval(lt, e).TooLong? then Cleared(t)
            else t == LtIntervalDone(g, lt.(rttCnt := c), e, MeasureInterval(lt, e).bw).lt
  {
    SameMeasure(lt, e, lt.rttCnt + 1);
    hide U32, MeasureInterval, LtIntervalDone;
  }

  /** What a sample does to an interval under way, by what is measured over the interval. */
  ghost predicate MeasuredOutcome(g: Gain, lt: Lt, t: Lt, c: nat, ev: Event)
    requires Sampled(ev)
  {
    var m := MeasureInterval(lt, ev.e);
    if Limited(ev) then Cleared(t)
    else if c < 4 then t == lt.(rttCnt := c)
    else if c > 16 then Cleared(t)
    else if !Lossy(ev) || m.Wait? then t == lt.(rttCnt := c)
    else if m.TooLong? then Cleared(t)
    else t == LtIntervalDone(g, lt.(rttCnt := c), ev.e, m.bw).lt
  }

  lemma SampleMeasures(s0: State, run: seq<Event>, i: nat, a: nat)
    requires run != [] && UnderWay(s0, run[..|run| - 1], i, a) && !Exec(s0, run[..|run| - 1]).lt.useBw
    requires Sampled(run[|run| - 1])
    ensures var s := Exec(s0, run[..|run| - 1]);
            MeasuredOutcome(GainOf(s, run[|run| - 1]), s.lt, Exec(s0, run).lt, Rounds(s0, run, a), run[|run| - 1])
  {
    var n := |run| - 1;
    var s, ev := Exec(s0, run[..n]), run[n];
    LtOfRunStep(s0, run);
    RoundsOn(s0, run, a);
    StillSampling(s0, run[..n], i, a);
    hide Exec, CountsRound, LtSampling, LtIntervalDone, MeasureInterval, Lossy, Limited, GainOf, Cleared, SampleOf;
    SampleExactly(GainOf(s, ev), s.lt, CountsRound(s0, run, n), ev.e, SampleOf(ev));
  }

  lemma CountIs(s0: State, run: seq<Event>, i: nat, a: nat)
    requires run != [] && UnderWay(s0, run[..|run| - 1], i, a)
    ensures CountNow(s0, run) == Rounds(s0, run, a)
  {
    hide Exec, CountsRound;
    RoundsOn(s0, run, a);
  }

  /** A sample that goes on with an interval or ends it. */
  lemma SampleTracks(s0: State, run: seq<Event>, i: nat, a: nat)
    requires run != [] && Sampled(run[|run| - 1]) && UnderWay(s0, run[..|run| - 1], i, a)
    requires Follows(s0, run[..|run| - 1], i, Exec(s0, run[..|run| - 1]).lt.bw)
    requires !Exec(s0, run[..|run| - 1]).lt.useBw
    ensures Tracked(s0, run)
    ensures Exec(s0, run).lt.useBw ==> TakenUp(s0, run)
  {
    var s, t, ev, c := Exec(s0, run[..|run| - 1]), Exec(s0, run), run[|run| - 1], CountNow(s0, run);
    SampleMeasures(s0, run, i, a);
    CountIs(s0, run, i, a);
    assert EnvOf(ev) == ev.e;
    hide *;
    StillSampling(s0, run[..|run| - 1], i, a);
    FollowsOn(s0, run, i, s.lt.bw);
    if Cleared(t.lt) {
      TrackedClear(s0, run);
    } else if t.lt == s.lt.(rttCnt := c) && !Limited(ev) {
      GoesOn(s0, run, i, a);
      TrackedBy(s0, run, i, a);
    } else {
      var m := EndsWith(GainOf(s, ev), s.lt, t.lt, c, ev);
      Closes(s0, run, i, a, m);
      EndTracks(s0, run, i, a, GainOf(s, ev), c, m);
    }
  }

  lemma EndsWith(g: Gain, lt: Lt, t: Lt, c: nat, ev: Event) returns (bw: nat)
    requires Sampled(ev) && MeasuredOutcome(g, lt, t, c, ev)
    requires !Cleared(t) && !(t == lt.(rttCnt := c) && !Limited(ev))
    ensures !Limited(ev) && Lossy(ev) && 4 <= c <= 16 && MeasureInterval(lt, ev.e) == Rate(bw)
    ensures t == LtIntervalDone(g, lt.(rttCnt := c), ev.e, bw).lt
  {
    hide Limited, Lossy, Cleared, MeasureInterval, LtIntervalDone;
    bw := MeasureInterval(lt, ev.e).bw;
  }

  lemma StillSampling(s0: State, run: seq<Event>, i: nat, a: nat)
    requires UnderWay(s0, run, i, a)
    ensures Exec(s0, run).lt.sampling
  {
  }

  lemma StepTracks(s0: State, run: seq<Event>)
    requires run != [] && Tracked(s0, run[..|run| - 1])
    ensures Tracked(s0, run)
    ensures Exec(s0, run).lt.useBw && !Exec(s0, run[..|run| - 1]).lt.useBw ==> TakenUp(s0, run)
  {
    var n := |run| - 1;
    var before, ev := run[..n], run[n];
    var s, t := Exec(s0, before), Exec(s0, run);
    assert t == Step(s, ev);
    LtOfStep(s, ev);
    assert !Sampled(ev) ==> !CountsRound(s0, run, n) && !Limited(ev);
    hide Exec, Step, LtSampling, Limited, UnderWay, Follows, TakenUp, U32;
    if s.lt.useBw {
      if Sampled(ev) {
        UsedCases(GainOf(s, ev), s.lt, CountsRound(s0, run, n), EnvOf(ev), SampleOf(ev));
      }
    } else if Cleared(s.lt) {
      if Sampled(ev) {
        FirstSample(s0, run);
      }
    } else {
      var i: nat, a: nat :| UnderWay(s0, before, i, a) && Follows(s0, before, i, s.lt.bw);
      NextSample(s0, run, i, a);
    }
  }

  lemma FirstUnused(s0: State, run: seq<Event>)
    requires run != [] && Sampled(run[|run| - 1]) && Cleared(Exec(s0, run[..|run| - 1]).lt)
    ensures !Exec(s0, run).lt.useBw && Exec(s0, run).lt.bw == 0
  {
    var n := |run| - 1;
    var s, ev := Exec(s0, run[..n]), run[n];
    LtOfRunStep(s0, run);
    hide Exec, CountsRound, LtSampling, Lossy, Limited, U32;
    StartCases(GainOf(s, ev), s.lt, CountsRound(s0, run, n), EnvOf(ev), SampleOf(ev));
    OpenedFacts(s.lt, EnvOf(ev));
  }

  lemma FirstSample(s0: State, run: seq<Event>)
    requires run != [] && Sampled(run[|run| - 1]) && Cleared(Exec(s0, run[..|run| - 1]).lt)
    ensures Tracked(s0, run) && !Exec(s0, run).lt.useBw
  {
    StartOutcome(s0, run);
    if !Cleared(Exec(s0, run).lt) {
      hide Exec, UnderWay, Lossy, Limited, Sampled;
      FollowsNothing(s0, run, |run| - 1);
      FirstUnused(s0, run);
      TrackedBy(s0, run, |run| - 1, |run| - 1);
    }
  }

  lemma NextSample(s0: State, run: seq<Event>, i: nat, a: nat)
    requires run != [] && UnderWay(s0, run[..|run| - 1], i, a)
    requires Follows(s0, run[..|run| - 1], i, Exec(s0, run[..|run| - 1]).lt.bw)
    requires !Exec(s0, run[..|run| - 1]).lt.useBw
    ensures Tracked(s0, run)
    ensures Exec(s0, run).lt.useBw ==> TakenUp(s0, run)
  {
    LtOfRunStep(s0, run);
    var lt := Exec(s0, run[..|run| - 1]).lt;
    assert CountNow(s0, run) == lt.rttCnt + if CountsRound(s0, run, |run| - 1) then 1 else 0;
    hide *;
    if Sampled(run[|run| - 1]) {
      SampleTracks(s0, run, i, a);
    } else {
      GoesOn(s0, run, i, a);
      FollowsOn(s0, run, i, lt.bw);
      TrackedBy(s0, run, i, a);
    }
  }

  lemma TrackedClear(s0: State, run: seq<Event>)
    requires Cleared(Exec(s0, run).lt)
    ensures Tracked(s0, run) && !Exec(s0, run).lt.useBw
  {
  }

  lemma FollowsNothing(s0: State, run: seq<Event>, i: nat)
    ensures Follows(s0, run, i, 0)
  {
  }

  lemma {:induction false} RunTracks(s0: State, run: seq<Event>)
    requires Cleared(s0.lt)
    ensures Tracked(s0, run)
  {
    hide Step, UnderWay, Follows;
    if run != [] {
      RunTracks(s0, run[..|run| - 1]);
      StepTracks(s0, run);
    }
  }

  // ----- Below the wrap -----

  /** The readings at y are not below those at x, and what they count stays below the wrap of the loss test. */
  predicate Later(x: Env, y: Env) {
    && x.delivered <= y.delivered && x.lost <= y.lost && Ms(x) <= Ms(y)
    && 50 * y.delivered < TWO32 && 256 * y.lost < TWO32 && Ms(y) < 0x8000_0000
  }

  /** So it is all along the run. */
  ghost predicate Counted(run: seq<Event>) {
    forall i, j | 0 <= i <= j < |run| && Sampled(run[i]) && Sampled(run[j]) :: Later(run[i].e, run[j].e)
  }

  /** So many packets in so many ms, per microsecond and in units of 2^-24, in 32 bits. */
  function PlainRate(delivered: nat, ms: nat): nat
    requires ms > 0
  {
    delivered * BW_UNIT / (ms * 1000) % TWO32
  }

  /** An interval in plain numbers: at least 50 packets lost for 256 delivered, at least one delivered, a
      millisecond or more, 4 to 16 rounds, a loss at each end; bw is what was delivered over that time. */
  ghost predicate PlainInterval(s0: State, run: seq<Event>, i: nat, a: nat, j: nat, bw: nat) {
    && i <= a <= i + 1 && i < j < |run| && Lossy(run[i]) && Lossy(run[j])
    && 4 <= Rounds(s0, run[..j + 1], a) <= 16
    && var delivered, lost := run[j].e.delivered - run[i].e.delivered, run[j].e.lost - run[i].e.lost;
    var ms := Ms(run[j].e) - Ms(run[i].e);
    && delivered > 0 && 256 * lost >= 50 * delivered && 1 <= ms < 4294967
    && bw == PlainRate(delivered, ms)
  }

  lemma Plain(s0: State, run: seq<Event>, i: nat, a: nat, j: nat, bw: nat)
    requires Counted(run) && Interval(s0, run, i, a, j, bw)
    ensures PlainInterval(s0, run, i, a, j, bw)
  {
    var x, y := run[i].e, run[j].e;
    SmallWord(y.delivered - x.delivered);
    SmallWord(y.lost - x.lost);
    SmallWord(256 * (y.lost - x.lost));
    SmallWord(50 * (y.delivered - x.delivered));
    SmallWord(Ms(y) - Ms(x));
    SmallProduct(y.delivered - x.delivered);
    hide Rounds, Exec, Ms;
  }

  lemma SmallWord(x: nat)
    requires x < TWO32
    ensures U32(x) == x
  {
  }

  lemma SmallProduct(x: nat)
    requires x < TWO32
    ensures U64(x * BW_UNIT) == x * BW_UNIT
  {
  }

  // ----- Exactly when an interval ends -----

  /** What a sample does to an interval under way, by its rounds and what was delivered and lost since x. */
  ghost predicate Outcome(lt: Lt, t: Lt, c: nat, ev: Event, x: Env)
    requires Sampled(ev) && Later(x, ev.e)
  {
    var delivered, lost, ms := ev.e.delivered - x.delivered, ev.e.lost - x.lost, Ms(ev.e) - Ms(x);
    if Limited(ev) then Cleared(t)
    else if c < 4 then t == lt.(rttCnt := c)
    else if c > 16 then Cleared(t)
    else if !Lossy(ev) || delivered == 0 || 256 * lost < 50 * delivered || ms < 1 then t == lt.(rttCnt := c)
    else if ms >= 4294967 then Cleared(t)
    else t.rttCnt == 0 && (t.useBw || t.bw == PlainRate(delivered, ms))
  }

  lemma MeasureCases(lt: Lt, a: Env, e: Env)
    requires Readings(lt, a)
    ensures var delivered, lost, ms := DeliveredBetween(a, e), LostBetween(a, e), MsBetween(a, e);
            MeasureInterval(lt, e) ==
              if delivered == 0 || U32(256 * lost) < U32(50 * delivered) || ms < 1 || ms >= 0x8000_0000 then Wait
              else if ms >= 4294967 then TooLong
              else Rate(U32(U64(delivered * BW_UNIT) / (ms * 1000)))
  {
    PositiveMs(MsBetween(a, e));
    hide U32, U64, S32, Ms;
    Difference(e.lost, a.lost);
    Difference(e.delivered, a.delivered);
    ClockDifference(Ms(e), Ms(a));
  }

  lemma PlainMeasure(lt: Lt, x: Env, y: Env)
    requires Readings(lt, x)
    requires Later(x, y)
    ensures var delivered, lost := y.delivered - x.delivered, y.lost - x.lost;
            var ms := Ms(y) - Ms(x);
            MeasureInterval(lt, y) ==
              if delivered == 0 || 256 * lost < 50 * delivered || ms < 1 then Wait
              else if ms >= 4294967 then TooLong
              else Rate(PlainRate(delivered, ms))
  {
    MeasureCases(lt, x, y);
    SmallWord(y.delivered - x.delivered);
    SmallWord(y.lost - x.lost);
    SmallWord(256 * (y.lost - x.lost));
    SmallWord(50 * (y.delivered - x.delivered));
    SmallWord(Ms(y) - Ms(x));
    SmallProduct(y.delivered - x.delivered);
    hide MeasureInterval, U64, Ms, Readings;
  }

  lemma CountedAt(run: seq<Event>, i: nat, j: nat)
    requires Counted(run) && i <= j < |run| && Sampled(run[i]) && Sampled(run[j])
    ensures Later(run[i].e, run[j].e)
  {
  }

  lemma StartOf(s0: State, run: seq<Event>, i: nat, a: nat)
    requires run != [] && UnderWay(s0, run[..|run| - 1], i, a)
    ensures i < |run| - 1 && Sampled(run[i]) && Readings(Exec(s0, run[..|run| - 1]).lt, run[i].e)
  {
    hide Exec, Rounds;
  }

  lemma PlainOutcome(g: Gain, lt: Lt, t: Lt, c: nat, ev: Event, x: Env)
    requires Sampled(ev) && MeasuredOutcome(g, lt, t, c, ev) && Readings(lt, x) && Later(x, ev.e)
    ensures Outcome(lt, t, c, ev, x)
  {
    PlainMeasure(lt, x, ev.e);
    var m := MeasureInterval(lt, ev.e);
    hide MeasureInterval, LtIntervalDone, Readings, Lossy, Limited, Cleared, Sampled, U32, Ms, PlainRate;
    if m.Rate? {
      DoneResets(g, lt.(rttCnt := c), ev.e, m.bw);
    }
  }

  /** A sample ends the interval under way with a rate exactly when it brings a loss, no limit by the
      application, the 4th to 16th round, and the loss rate and the length are reached; a 17th round, such a
      limit or an overlong interval clears the sampler, and anything else lets the interval go on. */
  lemma SampleOutcome(s0: State, run: seq<Event>, i: nat, a: nat)
    requires run != [] && i < |run| - 1 && Sampled(run[i]) && Sampled(run[|run| - 1]) && Counted(run)
    requires UnderWay(s0, run[..|run| - 1], i, a) && !Exec(s0, run[..|run| - 1]).lt.useBw
    ensures Later(run[i].e, run[|run| - 1].e)
    ensures Outcome(Exec(s0, run[..|run| - 1]).lt, Exec(s0, run).lt, Rounds(s0, run, a), run[|run| - 1], run[i].e)
  {
    var s, x, ev := Exec(s0, run[..|run| - 1]), run[i].e, run[|run| - 1];
    hide *;
    StartOf(s0, run, i, a);
    CountedAt(run, i, |run| - 1);
    SampleMeasures(s0, run, i, a);
    PlainOutcome(GainOf(s, ev), s.lt, Exec(s0, run).lt, Rounds(s0, run, a), ev, x);
  }

  lemma DoneResets(g: Gain, lt: Lt, e: Env, bw: nat)
    ensures var t := LtIntervalDone(g, lt, e, bw).lt; t.rttCnt == 0 && (t.useBw || t.bw == bw)
  {
    hide U32, Consistent;
  }

  /** A clear sampler starts an interval exactly with a loss that is not limited by the application. */
  lemma StartOutcome(s0: State, run: seq<Event>)
    requires run != [] && Cleared(Exec(s0, run[..|run| - 1]).lt)
    ensures if Lossy(run[|run| - 1]) && !Limited(run[|run| - 1]) then UnderWay(s0, run, |run| - 1, |run| - 1)
            else Cleared(Exec(s0, run).lt)
  {
    var n := |run| - 1;
    var s, ev := Exec(s0, run[..n]), run[n];
    LtOfRunStep(s0, run);
    hide Exec, CountsRound, LtSampling, Lossy, Limited, Opened, UnderWay;
    if Sampled(ev) {
      StartCases(GainOf(s, ev), s.lt, CountsRound(s0, run, n), ev.e, SampleOf(ev));
      OpenedFacts(s.lt, ev.e);
      if Lossy(ev) && !Limited(ev) {
        Begins(s0, run);
      }
    }
  }

  lemma StartCases(g: Gain, lt: Lt, round: bool, e: Env, rs: Sample)
    requires Cleared(lt)
    ensures var t := LtSampling(g, lt, round, e, rs).lt;
            if rs.losses > 0 && !rs.isAppLimited then t == Opened(lt, e).(rttCnt := if round then 1 else 0)
            else Cleared(t)
  {
    hide U32, MeasureInterval, LtIntervalDone;
  }

  // ----- What it takes -----

  /** In every run from a new connection a long-term rate is taken up only at the end of two sampling
      intervals, one right after the other, each with heavy losses, whose rates pass for the same; it is
      their mean. */
  lemma PolicedIsEarned(s0: State, run: seq<Event>)
    requires Cleared(s0.lt) && Counted(run) && run != []
    requires Exec(s0, run).lt.useBw && !Exec(s0, run[..|run| - 1]).lt.useBw
    ensures exists h: nat, b: nat, i: nat, a: nat, first: nat, second: nat ::
              && TwoIntervals(s0, run, h, b, i, a, first, second)
              && PlainInterval(s0, run, h, b, i, first) && PlainInterval(s0, run, i, a, |run| - 1, second)
  {
    hide Exec, Interval, PlainInterval, Counted, Tracked, Consistent, U32;
    RunTracks(s0, run[..|run| - 1]);
    StepTracks(s0, run);
    var h: nat, b: nat, i: nat, a: nat, first: nat, second: nat :| TwoIntervals(s0, run, h, b, i, a, first, second);
    Plain(s0, run, h, b, i, first);
    Plain(s0, run, i, a, |run| - 1, second);
  }
}
