/** When BBR takes the pipe to be full: what a run must contain before STARTUP is left. */
module BbrFullPipe {
  import opened Bbr
  import opened BbrRuns
  import opened BbrProbeRtt

  /** Event i is an ACK that begins a round and is not limited by the application. */
  ghost predicate Telling(s0: State, run: seq<Event>, i: nat) {
    && i < |run| && run[i].Acked?
    && RoundBegins(Exec(s0, run[..i]).path, run[i].rs) && !run[i].rs.isAppLimited
  }

  /** The bandwidth estimate after event i. */
  function EstimateAt(s0: State, run: seq<Event>, i: nat): nat
    requires i < |run|
  {
    Exec(s0, run[..i + 1]).path.maxBw
  }

  /** At the round that event i begins, the estimate has not grown by a quarter over bw. */
  ghost predicate Stale(s0: State, run: seq<Event>, i: nat, bw: nat) {
    Telling(s0, run, i) && 4 * EstimateAt(s0, run, i) < 5 * bw
  }

  ghost predicate Recorded(s0: State, run: seq<Event>, i: nat, bw: nat) {
    Telling(s0, run, i) && EstimateAt(s0, run, i) == bw
  }

  lemma PrefixTells(s0: State, run: seq<Event>, i: nat)
    requires run != [] && i < |run| - 1
    ensures var before := run[..|run| - 1];
            && (Telling(s0, run, i) <==> Telling(s0, before, i))
            && EstimateAt(s0, run, i) == EstimateAt(s0, before, i)
  {
    var before := run[..|run| - 1];
    assert run[..i] == before[..i] && run[..i + 1] == before[..i + 1];
  }

  /** What `bbr_main` does to the count of rounds without growth and the bandwidth they are held against. */
  lemma MainCounts(s: State, e: Env, rs: Sample)
    ensures var t := Main(s, e, rs);
            if FullBwReached(s.gain) || !RoundBegins(s.path, rs) || rs.isAppLimited then
              t.gain.fullBwCnt == s.gain.fullBwCnt && t.gain.fullBw == s.gain.fullBw
            else if t.path.maxBw >= U32(s.gain.fullBw * FULL_BW_THRESH / BBR_UNIT) then
              t.gain.fullBwCnt == 0 && t.gain.fullBw == t.path.maxBw
            else t.gain.fullBwCnt == s.gain.fullBwCnt + 1 && t.gain.fullBw == s.gain.fullBw
  {
    hide LtSampling, IsNextCyclePhase, UpdateMinRtt, Paced, SetCwnd, FilterBw, U32, Target;
    SamplingCounts(s.gain, s.lt, RoundBegins(s.path, rs), e, rs);
    var u := BeforeMinRtt(s, e, rs);
    MinRttCounts(u, e, rs);
    var v := UpdateMinRtt(u, e, rs);
    ActCounts(v, e, rs);
  }

  lemma SamplingCounts(g: Gain, lt: Lt, roundStart: bool, e: Env, rs: Sample)
    ensures var m := LtSampling(g, lt, roundStart, e, rs);
            m.gain.fullBwCnt == g.fullBwCnt && m.gain.fullBw == g.fullBw
  {
    hide U32, MeasureInterval, Consistent;
  }

  lemma MinRttCounts(u: State, e: Env, rs: Sample)
    ensures var t := UpdateMinRtt(u, e, rs);
            t.gain.fullBwCnt == u.gain.fullBwCnt && t.gain.fullBw == u.gain.fullBw && t.path.maxBw == u.path.maxBw
  {
    hide U32, FilterExpired, SaveCwnd, ProbeTicks;
  }

  lemma ActCounts(v: State, e: Env, rs: Sample)
    ensures var w := Paced(v, e);
            var t := SetCwnd(w, e, rs, rs.ackedSacked, Bandwidth(w), w.gain.cwnd);
            t.gain == v.gain && t.path.maxBw == v.path.maxBw
  {
    hide SetTsoGoal, SetPacingRate, RecoverOrRestore, GrownCwnd, Target;
  }

  lemma OtherCounts(s: State, ev: Event)
    requires !ev.Acked?
    ensures var t := Step(s, ev);
            t.gain.fullBwCnt == s.gain.fullBwCnt && (t.gain.fullBw == s.gain.fullBw || t.gain.fullBw == 0)
  {
    hide U32, MeasureInterval, Consistent, SetPacingRate;
  }

  /** Below the threshold, truncated or not, means less than a quarter more. */
  lemma BelowThreshold(x: nat, bw: nat)
    requires x < U32(bw * FULL_BW_THRESH / BBR_UNIT)
    ensures 4 * x < 5 * bw
  {
    Truncated(bw * FULL_BW_THRESH / BBR_UNIT);
    Floor(bw);
    hide U32;
  }

  lemma Truncated(y: nat)
    ensures U32(y) <= y
  {
  }

  lemma Floor(bw: nat)
    ensures 4 * (bw * FULL_BW_THRESH / BBR_UNIT) <= 5 * bw
  {
  }

  ghost predicate AllStale(s0: State, run: seq<Event>, rounds: seq<nat>, bw: nat) {
    forall k | 0 <= k < |rounds| :: Stale(s0, run, rounds[k], bw)
  }

  /** These are all the telling rounds after round i, up to the third. */
  ghost predicate Gapless(s0: State, run: seq<Event>, i: nat, rounds: seq<nat>) {
    forall t: nat | i < t && Telling(s0, run, t) && (|rounds| < FULL_BW_CNT || t <= rounds[|rounds| - 1]) ::
      t in rounds
  }

  /** bw was the estimate at a round before all of these, and no other telling round came between. */
  ghost predicate RecordBefore(s0: State, run: seq<Event>, bw: nat, rounds: seq<nat>) {
    exists i: nat :: Recorded(s0, run, i, bw) && Before(i, rounds) && Gapless(s0, run, i, rounds)
  }

  ghost predicate Before(i: nat, rounds: seq<nat>) {
    forall k | 0 <= k < |rounds| :: i < rounds[k]
  }

  ghost predicate Ascending(rounds: seq<nat>) {
    forall j, k | 0 <= j < k < |rounds| :: rounds[j] < rounds[k]
  }

  /** The count is the number of telling rounds since the one that recorded bw, up to 3, and all of them
      found no growth over it; an RTO may have erased the record since. */
  ghost predicate Earned(s0: State, run: seq<Event>, bw: nat, rounds: seq<nat>) {
    var g := Exec(s0, run).gain;
    && |rounds| == g.fullBwCnt
    && (g.fullBw == bw || g.fullBw == 0)
    && AllStale(s0, run, rounds, bw) && Ascending(rounds)
    && (bw > 0 ==> RecordBefore(s0, run, bw, rounds))
  }

  lemma StaleOn(s0: State, run: seq<Event>, rounds: seq<nat>, bw: nat)
    requires run != [] && AllStale(s0, run[..|run| - 1], rounds, bw)
    ensures AllStale(s0, run, rounds, bw)
    ensures forall k | 0 <= k < |rounds| :: rounds[k] < |run| - 1
  {
    hide Exec;
    forall k | 0 <= k < |rounds| ensures Stale(s0, run, rounds[k], bw) && rounds[k] < |run| - 1 {
      assert Stale(s0, run[..|run| - 1], rounds[k], bw);
      PrefixTells(s0, run, rounds[k]);
    }
  }

  /** The record stands while nothing telling happens, or nothing is counted any more. */
  lemma RecordOn(s0: State, run: seq<Event>, bw: nat, rounds: seq<nat>)
    requires run != [] && RecordBefore(s0, run[..|run| - 1], bw, rounds)
    requires forall k | 0 <= k < |rounds| :: rounds[k] < |run| - 1
    requires |rounds| >= FULL_BW_CNT || !Telling(s0, run, |run| - 1)
    ensures RecordBefore(s0, run, bw, rounds)
  {
    hide Exec;
    var before := run[..|run| - 1];
    var i: nat :| Recorded(s0, before, i, bw) && Before(i, rounds) && Gapless(s0, before, i, rounds);
    PrefixTells(s0, run, i);
    forall t: nat | i < t && Telling(s0, run, t) && (|rounds| < FULL_BW_CNT || t <= rounds[|rounds| - 1])
      ensures t in rounds
    {
      PrefixTells(s0, run, t);
    }
  }

  /** The record stands when one more round is counted. */
  lemma RecordGrows(s0: State, run: seq<Event>, bw: nat, rounds: seq<nat>)
    requires run != [] && RecordBefore(s0, run[..|run| - 1], bw, rounds) && |rounds| < FULL_BW_CNT
    ensures RecordBefore(s0, run, bw, rounds + [|run| - 1])
  {
    hide Exec;
    var n := |run| - 1;
    var more := rounds + [n];
    var i: nat :| Recorded(s0, run[..n], i, bw) && Before(i, rounds) && Gapless(s0, run[..n], i, rounds);
    PrefixTells(s0, run, i);
    assert Before(i, more);
    forall t: nat | i < t && Telling(s0, run, t) ensures t in more {
      if t < n {
        PrefixTells(s0, run, t);
        assert t in rounds;
      } else {
        assert more[|rounds|] == t;
      }
    }
  }

  lemma EarnedOn(s0: State, run: seq<Event>, bw: nat, rounds: seq<nat>)
    requires run != [] && Earned(s0, run[..|run| - 1], bw, rounds)
    requires var g, h := Exec(s0, run[..|run| - 1]).gain, Exec(s0, run).gain;
             && h.fullBwCnt == g.fullBwCnt && (h.fullBw == g.fullBw || h.fullBw == 0)
             && (FullBwReached(g) || !Telling(s0, run, |run| - 1))
    ensures Earned(s0, run, bw, rounds)
  {
    hide Exec, Telling, AllStale, Ascending, RecordBefore;
    StaleOn(s0, run, rounds, bw);
    if bw > 0 {
      RecordOn(s0, run, bw, rounds);
    }
  }

  lemma LastRound(s0: State, run: seq<Event>, rounds: seq<nat>, bw: nat)
    requires run != [] && AllStale(s0, run, rounds, bw) && Ascending(rounds)
    requires forall k | 0 <= k < |rounds| :: rounds[k] < |run| - 1
    requires Stale(s0, run, |run| - 1, bw)
    ensures AllStale(s0, run, rounds + [|run| - 1], bw) && Ascending(rounds + [|run| - 1])
  {
    hide Stale;
  }

  /** An ACK that counts one more round. */
  lemma OneMore(s0: State, run: seq<Event>, bw: nat, rounds: seq<nat>)
    requires run != [] && Earned(s0, run[..|run| - 1], bw, rounds) && Telling(s0, run, |run| - 1)
    requires var g, t := Exec(s0, run[..|run| - 1]).gain, Exec(s0, run);
             && t.path.maxBw < U32(g.fullBw * FULL_BW_THRESH / BBR_UNIT)
             && t.gain.fullBwCnt == g.fullBwCnt + 1 && t.gain.fullBw == g.fullBw && !FullBwReached(g)
    ensures Earned(s0, run, bw, rounds + [|run| - 1])
  {
    hide Exec, Telling, U32, AllStale, Ascending, RecordBefore;
    var n := |run| - 1;
    assert run[..n + 1] == run;
    BelowThreshold(Exec(s0, run).path.maxBw, Exec(s0, run[..n]).gain.fullBw);
    StaleOn(s0, run, rounds, bw);
    LastRound(s0, run, rounds, bw);
    RecordGrows(s0, run, bw, rounds);
  }

  /** An ACK that finds growth starts a new record. */
  lemma NewRecord(s0: State, run: seq<Event>)
    requires run != [] && Telling(s0, run, |run| - 1)
    requires var t := Exec(s0, run); t.gain.fullBwCnt == 0 && t.gain.fullBw == t.path.maxBw
    ensures Earned(s0, run, Exec(s0, run).path.maxBw, [])
  {
    assert Gapless(s0, run, |run| - 1, []);
    hide Exec, Telling;
    assert run[..|run|] == run;
    assert Recorded(s0, run, |run| - 1, Exec(s0, run).path.maxBw);
  }

  lemma {:induction false} CountIsEarned(s0: State, run: seq<Event>) returns (bw: nat, rounds: seq<nat>)
    requires s0.gain.fullBwCnt == 0 && s0.gain.fullBw == 0
    ensures Earned(s0, run, bw, rounds)
  {
    if run == [] {
      bw, rounds := 0, [];
    } else {
      var n := |run| - 1;
      var before, ev := run[..n], run[n];
      bw, rounds := CountIsEarned(s0, before);
      var s, t := Exec(s0, before), Exec(s0, run);
      assert t == Step(s, ev);
      hide Step, Exec, Main, Earned, U32;
      if !ev.Acked? {
        OtherCounts(s, ev);
        EarnedOn(s0, run, bw, rounds);
      } else {
        StepIsMain(s, ev);
        MainCounts(s, ev.e, ev.rs);
        if FullBwReached(s.gain) || !RoundBegins(s.path, ev.rs) || ev.rs.isAppLimited {
          EarnedOn(s0, run, bw, rounds);
        } else if t.path.maxBw >= U32(s.gain.fullBw * FULL_BW_THRESH / BBR_UNIT) {
          NewRecord(s0, run);
          bw, rounds := t.path.maxBw, [];
        } else {
          OneMore(s0, run, bw, rounds);
          rounds := rounds + [n];
        }
      }
    }
  }

  lemma AmongThree(rounds: seq<nat>, t: nat)
    requires |rounds| >= 3 && Ascending(rounds) && t in rounds && t <= rounds[2]
    ensures t == rounds[0] || t == rounds[1] || t == rounds[2]
  {
    var m :| 0 <= m < |rounds| && rounds[m] == t;
  }

  /** Round h recorded bw, and the next three telling rounds i, j and k found no growth over it. */
  ghost predicate ThreeRounds(s0: State, run: seq<Event>, bw: nat, h: nat, i: nat, j: nat, k: nat) {
    && h < i < j < k && Recorded(s0, run, h, bw)
    && Stale(s0, run, i, bw) && Stale(s0, run, j, bw) && Stale(s0, run, k, bw)
    && forall t: nat | h < t <= k && Telling(s0, run, t) :: t == i || t == j || t == k
  }

  lemma FirstThree(s0: State, run: seq<Event>, bw: nat, rounds: seq<nat>, h: nat)
    requires |rounds| >= 3 && AllStale(s0, run, rounds, bw) && Ascending(rounds)
    requires Recorded(s0, run, h, bw) && Before(h, rounds) && Gapless(s0, run, h, rounds)
    ensures ThreeRounds(s0, run, bw, h, rounds[0], rounds[1], rounds[2])
  {
    hide Stale, Recorded, Telling;
    forall t: nat | h < t <= rounds[2] && Telling(s0, run, t) ensures t in rounds[..3] {
      AmongThree(rounds, t);
    }
  }

  /** The pipe is taken to be full only after three rounds in a row, begun by ACKs that the application did
      not limit, in none of which the bandwidth estimate was a quarter above the one recorded just before. */
  lemma FullPipeIsEarned(s0: State, run: seq<Event>)
    requires s0.gain.fullBwCnt == 0 && s0.gain.fullBw == 0 && FullBwReached(Exec(s0, run).gain)
    ensures exists bw: nat, h: nat, i: nat, j: nat, k: nat :: ThreeRounds(s0, run, bw, h, i, j, k)
  {
    hide Exec, Stale, Recorded, ThreeRounds, Gapless;
    var bw, rounds := CountIsEarned(s0, run);
    NotFromNothing(s0, run, rounds, bw);
    var h: nat :| Recorded(s0, run, h, bw) && Before(h, rounds) && Gapless(s0, run, h, rounds);
    FirstThree(s0, run, bw, rounds, h);
  }

  lemma NotFromNothing(s0: State, run: seq<Event>, rounds: seq<nat>, bw: nat)
    requires AllStale(s0, run, rounds, bw) && rounds != []
    ensures bw > 0
  {
    assert Stale(s0, run, rounds[0], bw);
  }
}
