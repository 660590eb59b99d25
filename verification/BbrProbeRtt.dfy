/** A PROBE_RTT episode: how long it lasts and what window it gives back. */
module BbrProbeRtt {
  import opened Bbr
  import opened BbrRuns

  predicate Probing(s: State) { s.gain.mode == ProbeRtt }

  // ----- One step -----

  /** In-flight has just been seen at 4 or less: the 200 ms and the round start now. */
  ghost predicate ClockStarts(t: State, e: Env) {
    && e.inFlight <= CWND_MIN_TARGET
    && t.probe.doneStamp == e.now + ProbeTicks(e.hz) && !t.probe.roundDone
    && t.path.nextRtt == e.delivered
  }

  /** What `bbr_main` does to an episode and its clock: the mode is entered exactly when the RTT filter has
      expired and no restart from idle is pending, and left exactly when the clock has run out and a round is
      done. */
  ghost predicate EpisodeStep(s: State, t: State, e: Env, rs: Sample) {
    if Probing(s) && s.probe.doneStamp != 0 then
      var done := s.probe.roundDone || RoundBegins(s.path, rs);
      && (Probing(t) <==> !(done && e.now > s.probe.doneStamp))
      && (Probing(t) ==>
            && t.probe.doneStamp == s.probe.doneStamp && t.probe.roundDone == done
            && (t.path.nextRtt == s.path.nextRtt || t.path.nextRtt == e.delivered))
    else
      && (Probing(t) <==> Probing(s) || (e.now > s.path.minRttStamp + 10 * e.hz && !s.probe.idleRestart))
      && (Probing(t) ==> if e.inFlight <= CWND_MIN_TARGET then ClockStarts(t, e) else t.probe.doneStamp == 0)
  }

  lemma BeforeMinRttFacts(s: State, e: Env, rs: Sample)
    ensures var u := BeforeMinRtt(s, e, rs);
            && (Probing(u) <==> Probing(s)) && u.probe == s.probe
            && u.path.roundStart == RoundBegins(s.path, rs)
            && u.path.nextRtt == (if RoundBegins(s.path, rs) then e.delivered else s.path.nextRtt)
            && u.path.minRttStamp == s.path.minRttStamp
            && u.win == s.win.(conserving := u.win.conserving)
  {
    hide U32, FilterBw, IsNextCyclePhase, Target, MeasureInterval, Consistent;
  }

  lemma MinRttEpisode(u: State, e: Env, rs: Sample)
    ensures var t := UpdateMinRtt(u, e, rs);
            if Probing(u) && u.probe.doneStamp != 0 then
              var done := u.probe.roundDone || u.path.roundStart;
              && (Probing(t) <==> !(done && e.now > u.probe.doneStamp))
              && (Probing(t) ==> t.probe.doneStamp == u.probe.doneStamp && t.probe.roundDone == done
                                 && t.path.nextRtt == u.path.nextRtt)
            else
              && (Probing(t) <==> Probing(u) || (FilterExpired(u.path, e) && !u.probe.idleRestart))
              && (Probing(t) ==> if e.inFlight <= CWND_MIN_TARGET then ClockStarts(t, e) else t.probe.doneStamp == 0)
  {
    hide U32, FilterExpired, TakeRtt, SaveCwnd, ProbeTicks;
    TakeRttKeepsRound(u.path, e, rs);
  }

  lemma TakeRttKeepsRound(p: Path, e: Env, rs: Sample)
    ensures TakeRtt(p, e, rs).nextRtt == p.nextRtt && TakeRtt(p, e, rs).roundStart == p.roundStart
  {
    hide U32;
  }

  lemma CwndEpisode(s: State, e: Env, rs: Sample, acked: nat, bw: nat, gain: nat)
    ensures var t := SetCwnd(s, e, rs, acked, bw, gain);
            && t.gain == s.gain && t.probe == s.probe
            && t.win.priorCwnd == s.win.priorCwnd
            && (t.path.nextRtt == s.path.nextRtt || t.path.nextRtt == e.delivered)
  {
    hide U32, DeductLosses, GrownCwnd, Target;
  }

  lemma PacedEpisode(s: State, e: Env)
    ensures var t := Paced(s, e);
            && t.path == s.path && t.gain == s.gain && t.probe == s.probe && t.lt == s.lt
            && t.win.priorCwnd == s.win.priorCwnd && t.win.cwnd == s.win.cwnd
            && t.win.restoreCwnd == s.win.restoreCwnd && t.win.conserving == s.win.conserving
            && t.win.prevCa == s.win.prevCa
  {
    hide PacingRate, U32, U64;
  }

  lemma MainEpisode(s: State, e: Env, rs: Sample)
    ensures EpisodeStep(s, Main(s, e, rs), e, rs)
  {
    hide BeforeMinRtt, UpdateMinRtt, Paced, SetCwnd, ProbeTicks;
    var u := BeforeMinRtt(s, e, rs);
    BeforeMinRttFacts(s, e, rs);
    MinRttEpisode(u, e, rs);
    var v := UpdateMinRtt(u, e, rs);
    PacedEpisode(v, e);
    var w := Paced(v, e);
    CwndEpisode(w, e, rs, rs.ackedSacked, Bandwidth(w), w.gain.cwnd);
  }

  /** No other event moves the clock, enters the mode or leaves it. */
  lemma OtherEpisode(s: State, ev: Event)
    requires !ev.Acked?
    ensures var t := Step(s, ev);
            && (Probing(t) <==> Probing(s))
            && (Probing(s) ==> t.probe.doneStamp == s.probe.doneStamp && t.probe.roundDone == s.probe.roundDone
                               && t.path.nextRtt == s.path.nextRtt && t.win.priorCwnd >= s.win.priorCwnd)
  {
    hide U32, U64, PacingRate, MeasureInterval, Consistent;
  }

  // ----- Whole runs -----

  /** The environment's clock is positive and its count of delivered packets does not fall. */
  ghost predicate EnvOk(run: seq<Event>) {
    && (forall i | 0 <= i < |run| && run[i].Acked? :: run[i].e.now > 0)
    && (forall i, j | 0 <= i < j < |run| && run[i].Acked? && run[j].Acked? ::
          run[i].e.delivered <= run[j].e.delivered)
  }

  /** After each of the first i + 1 to j events the mode is PROBE_RTT. */
  ghost predicate ProbingFrom(s0: State, run: seq<Event>, i: nat, j: nat) {
    forall k | i < k <= j && k <= |run| :: Probing(Exec(s0, run[..k]))
  }

  /** Event j saw 4 packets or fewer in flight, and the episode has gone on since. */
  ghost predicate Quiet(s0: State, run: seq<Event>, j: nat) {
    && j < |run| && run[j].Acked? && run[j].e.inFlight <= CWND_MIN_TARGET
    && ProbingFrom(s0, run, j, |run|)
  }

  /** Event m acked a packet sent after all that was delivered at event j. */
  ghost predicate RoundSince(run: seq<Event>, j: nat, m: nat) {
    && j < m < |run| && run[j].Acked? && run[m].Acked?
    && ValidSample(run[m].rs) && run[m].rs.priorDelivered >= run[j].e.delivered
  }

  /** The clock that runs was started by event j. */
  ghost predicate StartedAt(s0: State, run: seq<Event>, j: nat) {
    var s := Exec(s0, run);
    && Quiet(s0, run, j)
    && s.probe.doneStamp == run[j].e.now + ProbeTicks(run[j].e.hz)
    && s.path.nextRtt >= run[j].e.delivered
    && (s.probe.roundDone ==> exists m :: RoundSince(run, j, m))
  }

  ghost predicate ClockExplained(s0: State, run: seq<Event>) {
    Probing(Exec(s0, run)) && Exec(s0, run).probe.doneStamp != 0 ==> exists j :: StartedAt(s0, run, j)
  }

  lemma {:induction false} ClockIsExplained(s0: State, run: seq<Event>)
    requires !Probing(s0) && EnvOk(run)
    ensures ClockExplained(s0, run)
  {
    if run != [] {
      var n := |run| - 1;
      var before := run[..n];
      ClockIsExplained(s0, before);
      var s, t := Exec(s0, before), Exec(s0, run);
      if Probing(t) && t.probe.doneStamp != 0 {
        StepClock(s0, run);
      }
    }
  }

  lemma StepClock(s0: State, run: seq<Event>)
    requires EnvOk(run) && run != [] && ClockExplained(s0, run[..|run| - 1])
    requires Probing(Exec(s0, run)) && Exec(s0, run).probe.doneStamp != 0
    ensures exists j :: StartedAt(s0, run, j)
  {
    hide Main, Step, SetCaState, TxStart;
    var n := |run| - 1;
    var before, ev := run[..n], run[n];
    var s, t := Exec(s0, before), Exec(s0, run);
    assert t == Step(s, ev);
    if !ev.Acked? {
      OtherEpisode(s, ev);
      var j :| StartedAt(s0, before, j);
      Extended(s0, run, j);
      assert StartedAt(s0, run, j);
    } else {
      StepIsMain(s, ev);
      MainEpisode(s, ev.e, ev.rs);
      if Probing(s) && s.probe.doneStamp != 0 {
        var j :| StartedAt(s0, before, j);
        Extended(s0, run, j);
        if !s.probe.roundDone && t.probe.roundDone {
          assert RoundSince(run, j, n);
        }
        assert StartedAt(s0, run, j);
      } else {
        assert ProbingFrom(s0, run, n, |run|) by {
          assert run[..|run|] == run;
        }
        assert StartedAt(s0, run, n);
      }
    }
  }

  lemma StepIsMain(s: State, ev: Event)
    requires ev.Acked?
    ensures Step(s, ev) == Main(s, ev.e, ev.rs)
  {
    hide Main;
  }

  /** An episode that goes on keeps its quiet event and its round. */
  lemma Extended(s0: State, run: seq<Event>, j: nat)
    requires run != [] && StartedAt(s0, run[..|run| - 1], j) && Probing(Exec(s0, run))
    ensures Quiet(s0, run, j)
    ensures Exec(s0, run[..|run| - 1]).probe.roundDone ==> exists m :: RoundSince(run, j, m)
  {
    hide Step;
    var before := run[..|run| - 1];
    forall k | j < k <= |run| ensures Probing(Exec(s0, run[..k])) {
      if k < |run| {
        assert run[..k] == before[..k];
      } else {
        assert run[..k] == run;
      }
    }
    if Exec(s0, before).probe.roundDone {
      var m :| RoundSince(before, j, m);
      assert RoundSince(run, j, m);
    }
  }

  /** When a run leaves PROBE_RTT, it is on an ACK, more than 200 ms after an event that saw in-flight
      at 4 or less, with a whole round acked since, all within the same episode. */
  lemma ExitIsEarned(s0: State, run: seq<Event>)
    requires !Probing(s0) && EnvOk(run) && run != []
    requires Probing(Exec(s0, run[..|run| - 1])) && !Probing(Exec(s0, run))
    ensures run[|run| - 1].Acked?
    ensures exists j: nat, m: nat ::
              && Quiet(s0, run[..|run| - 1], j)
              && 1000 * (run[|run| - 1].e.now - run[j].e.now) > 200 * run[j].e.hz
              && RoundSince(run, j, m)
  {
    hide Main, Step, SetCaState, TxStart, ProbeTicks;
    var n := |run| - 1;
    var before, ev := run[..n], run[n];
    var s := Exec(s0, before);
    ClockIsExplained(s0, before);
    assert Exec(s0, run) == Step(s, ev);
    if !ev.Acked? {
      OtherEpisode(s, ev);
    } else {
      StepIsMain(s, ev);
      MainEpisode(s, ev.e, ev.rs);
      var j: nat :| StartedAt(s0, before, j);
      TicksInMs(before[j].e.hz);
      if s.probe.roundDone {
        var m :| RoundSince(before, j, m);
        assert RoundSince(run, j, m);
      } else {
        assert RoundSince(run, j, n);
      }
    }
  }

  /** 200 ms, rounded up to a tick. */
  lemma TicksInMs(hz: nat)
    ensures 200 * hz <= 1000 * ProbeTicks(hz) < 200 * hz + 1000
  {
  }

  // ----- The window given back -----

  /** On entry the window in use is saved; until the exit the saved one does not shrink. */
  lemma {:induction false} SavedWindowHolds(s0: State, run: seq<Event>, i: nat)
    requires i < |run| && !Probing(Exec(s0, run[..i])) && ProbingFrom(s0, run, i, |run|)
    ensures Exec(s0, run).win.priorCwnd >= Exec(s0, run[..i]).win.cwnd
    decreases |run|
  {
    hide Main, Step, SetCaState, TxStart;
    var n := |run| - 1;
    var before, ev := run[..n], run[n];
    var s, t := Exec(s0, before), Exec(s0, run);
    assert t == Step(s, ev) && run[..|run|] == run;
    assert run[..i] == before[..i];
    if i < n {
      forall k | i < k <= n ensures Probing(Exec(s0, before[..k])) {
        assert before[..k] == run[..k];
      }
      SavedWindowHolds(s0, before, i);
      assert before[..n] == before;
    } else {
      assert before == run[..i];
    }
    if ev.Acked? {
      StepIsMain(s, ev);
      ModelledSaves(s, ev.e, ev.rs);
    } else {
      OtherEpisode(s, ev);
    }
  }

  lemma MinRttSaves(u: State, e: Env, rs: Sample)
    ensures var t := UpdateMinRtt(u, e, rs);
            && t.win.cwnd == u.win.cwnd && t.win.prevCa == u.win.prevCa && t.win.conserving == u.win.conserving
            && t.win.priorCwnd ==
                 (if !Probing(u) && Probing(t) then Max(u.win.priorCwnd, u.win.cwnd) else u.win.priorCwnd)
            && t.win.restoreCwnd == (u.win.restoreCwnd || (Probing(u) && !Probing(t)))
            && (Probing(u) && !Probing(t) ==> t.gain == ResetMode(u.gain, e))
  {
    hide U32, FilterExpired, TakeRtt, ProbeTicks, ResetMode;
    ModeAfterReset(u.gain, e);
  }

  lemma ModeAfterReset(g: Gain, e: Env)
    ensures ResetMode(g, e).mode == (if FullBwReached(g) then ProbeBw else Startup)
  {
  }

  /** The state `bbr_set_cwnd` starts from. */
  function Modelled(s: State, e: Env, rs: Sample): State {
    Paced(UpdateModel(s, e, rs), e)
  }

  /** Up to the window itself, a call saves the window when it enters PROBE_RTT and asks for the saved one
      when it leaves. */
  lemma ModelledSaves(s: State, e: Env, rs: Sample)
    ensures var w, t := Modelled(s, e, rs), Main(s, e, rs);
            && (Probing(w) <==> Probing(t)) && w.win.cwnd == s.win.cwnd && w.win.prevCa == s.win.prevCa
            && w.gain == t.gain && w.win.priorCwnd == t.win.priorCwnd
            && w.win.priorCwnd ==
                 (if !Probing(s) && Probing(t) then Max(s.win.priorCwnd, s.win.cwnd) else s.win.priorCwnd)
            && w.win.restoreCwnd == (s.win.restoreCwnd || (Probing(s) && !Probing(t)))
            && t == SetCwnd(w, e, rs, rs.ackedSacked, Bandwidth(w), w.gain.cwnd)
  {
    hide BeforeMinRtt, UpdateMinRtt, Paced, SetCwnd;
    var u := BeforeMinRtt(s, e, rs);
    BeforeMinRttFacts(s, e, rs);
    MinRttSaves(u, e, rs);
    var v := UpdateMinRtt(u, e, rs);
    PacedEpisode(v, e);
    var w := Paced(v, e);
    CwndEpisode(w, e, rs, rs.ackedSacked, Bandwidth(w), w.gain.cwnd);
  }

  // ----- What can spoil the saved window -----

  /** A save on entry into loss recovery that is taken for good, though the window in use is smaller than
      the saved one. */
  predicate Overwrites(s: State, ev: Event) {
    ev.EnteringLoss? && !InRecovery(s.win.prevCa) && !Probing(s) && s.win.cwnd < s.win.priorCwnd
  }

  /** Of all events only such a save makes the saved window smaller. */
  lemma SavedFallsIff(s: State, ev: Event)
    ensures Step(s, ev).win.priorCwnd < s.win.priorCwnd <==> Overwrites(s, ev)
  {
    if ev.Acked? {
      StepIsMain(s, ev);
      ModelledSaves(s, ev.e, ev.rs);
    } else if !ev.EnteringLoss? {
      OtherWindow(s, ev);
    }
  }

  lemma OtherWindow(s: State, ev: Event)
    requires !ev.Acked? && !ev.EnteringLoss?
    ensures var t := Step(s, ev);
            t.win.priorCwnd == s.win.priorCwnd && t.win.restoreCwnd == s.win.restoreCwnd
  {
    hide U32, U64, PacingRate, MeasureInterval, Consistent, LtSampling;
  }

  ghost predicate NoOverwrite(s0: State, run: seq<Event>, from: nat) {
    forall k | from <= k < |run| :: !Overwrites(Exec(s0, run[..k]), run[k])
  }

  /** The saved window never shrinks along a run exactly when the run has no such save. */
  lemma SavedStaysIff(s0: State, run: seq<Event>)
    ensures (forall i, j | 0 <= i <= j <= |run| ::
               Exec(s0, run[..i]).win.priorCwnd <= Exec(s0, run[..j]).win.priorCwnd)
       <==> NoOverwrite(s0, run, 0)
  {
    if NoOverwrite(s0, run, 0) {
      forall i, j | 0 <= i <= j <= |run|
        ensures Exec(s0, run[..i]).win.priorCwnd <= Exec(s0, run[..j]).win.priorCwnd
      {
        SavedStays(s0, run, i, j);
      }
    } else {
      var k :| 0 <= k < |run| && Overwrites(Exec(s0, run[..k]), run[k]);
      PrefixStep(s0, run, k);
      SavedFallsIff(Exec(s0, run[..k]), run[k]);
    }
  }

  lemma PrefixStep(s0: State, run: seq<Event>, k: nat)
    requires k < |run|
    ensures Exec(s0, run[..k + 1]) == Step(Exec(s0, run[..k]), run[k])
  {
    hide Step;
    assert run[..k + 1][..k] == run[..k];
  }

  lemma {:induction false} SavedStays(s0: State, run: seq<Event>, i: nat, j: nat)
    requires i <= j <= |run|
    requires forall k | i <= k < j :: !Overwrites(Exec(s0, run[..k]), run[k])
    ensures Exec(s0, run[..i]).win.priorCwnd <= Exec(s0, run[..j]).win.priorCwnd
    decreases j
  {
    hide Exec, Step;
    if i < j {
      SavedStays(s0, run, i, j - 1);
      PrefixStep(s0, run, j - 1);
      SavedFallsIff(Exec(s0, run[..j - 1]), run[j - 1]);
    }
  }

  // ----- When the window comes back -----

  /** The larger of the saved window and what the losses leave of the one in use. */
  function Regained(w: Win, rs: Sample): nat {
    Max(DeductLosses(w.cwnd, rs.losses), w.priorCwnd)
  }

  /** The window grows by what is acked, and the 32-bit sum wraps. */
  predicate GrowthWraps(full: bool, delivered: nat, cwnd: nat, acked: nat, target: nat) {
    cwnd + acked >= TWO32 && (full || cwnd < target || delivered < TCP_INIT_CWND)
  }

  /** What the window is meant to come back to: the saved one under the clamp and, once the pipe is full
      and no packets are conserved, under the target. */
  function Goal(t: State, e: Env, target: nat, saved: nat): nat {
    Min(e.cwndClamp, if FullBwReached(t.gain) && !t.win.conserving then Min(saved, target) else saved)
  }

  /** A call that restores brings back any window up to the saved one, unless growing it wraps and what
      the wrap leaves is less. */
  ghost predicate Restored(w: State, e: Env, rs: Sample, t: State, saved: nat) {
    var target, c := Target(w, Bandwidth(w), w.gain.cwnd), Regained(w.win, rs);
    var goal := Goal(t, e, target, saved);
    t.win.cwnd >= goal <==>
      t.win.conserving
      || !GrowthWraps(FullBwReached(w.gain), e.delivered, c, rs.ackedSacked, target)
      || goal <= Max(CWND_MIN_TARGET, U32(c + rs.ackedSacked))
  }

  /** This call takes the saved window into account: a restore is pending, or loss recovery ends. */
  predicate Restoring(w: Win, e: Env) {
    w.restoreCwnd || (InRecovery(w.prevCa) && !InRecovery(e.caState))
  }

  lemma SetCwndRestores(w: State, e: Env, rs: Sample, saved: nat)
    requires Restoring(w.win, e) && !Probing(w) && rs.ackedSacked > 0 && saved <= w.win.priorCwnd
    ensures Restored(w, e, rs, SetCwnd(w, e, rs, rs.ackedSacked, Bandwidth(w), w.gain.cwnd), saved)
  {
    SumWraps(Regained(w.win, rs) + rs.ackedSacked);
    hide U32, Target, DeductLosses;
  }

  lemma SumWraps(x: nat)
    ensures U32(x) == x <==> x < TWO32
  {
  }

  predicate Acks(ev: Event) {
    ev.Acked? && ev.rs.ackedSacked > 0
  }

  /** Leaving PROBE_RTT or loss recovery, or with a restore still pending, a call that acks anything restores
      the window. */
  lemma CallRestores(s: State, e: Env, rs: Sample, saved: nat)
    requires (Probing(s) || Restoring(s.win, e)) && !Probing(Main(s, e, rs))
    requires rs.ackedSacked > 0 && saved <= s.win.priorCwnd
    ensures Restored(Modelled(s, e, rs), e, rs, Main(s, e, rs), saved)
    ensures Modelled(s, e, rs).win.cwnd == s.win.cwnd && Modelled(s, e, rs).win.priorCwnd == s.win.priorCwnd
  {
    hide Modelled, Main, SetCwnd, Restored;
    ModelledSaves(s, e, rs);
    SetCwndRestores(Modelled(s, e, rs), e, rs, saved);
  }

  /** A call that acks nothing leaves the window alone, and keeps a pending restore or, on leaving
      PROBE_RTT, asks for one. */
  lemma QuietCallKeeps(s: State, ev: Event)
    requires !Acks(ev) && (s.win.restoreCwnd || (Probing(s) && !Probing(Step(s, ev))))
    ensures Step(s, ev).win.restoreCwnd
  {
    if ev.Acked? {
      StepIsMain(s, ev);
      hide Modelled, Main, Step;
      ModelledSaves(s, ev.e, ev.rs);
    } else if !ev.EnteringLoss? {
      OtherWindow(s, ev);
      OtherEpisode(s, ev);
    }
  }

  /** PROBE_RTT is entered at event i and left at event x; the last event is the first from x on that acks
      anything, and BBR is not back in PROBE_RTT then. */
  ghost predicate Episode(s0: State, run: seq<Event>, i: nat, x: nat) {
    && i < x < |run|
    && !Probing(Exec(s0, run[..i])) && ProbingFrom(s0, run, i, x) && !Probing(Exec(s0, run[..x + 1]))
    && (forall k | x <= k < |run| - 1 :: !Acks(run[k]))
    && Acks(run[|run| - 1]) && !Probing(Exec(s0, run))
  }

  lemma {:induction false} PendingUntil(s0: State, run: seq<Event>, x: nat, j: nat)
    requires x < j <= |run| && Probing(Exec(s0, run[..x])) && !Probing(Exec(s0, run[..x + 1]))
    requires forall k | x <= k < j :: !Acks(run[k])
    ensures Exec(s0, run[..j]).win.restoreCwnd
    decreases j
  {
    hide Exec, Step;
    PrefixStep(s0, run, j - 1);
    if x + 1 < j {
      PendingUntil(s0, run, x, j - 1);
    }
    QuietCallKeeps(Exec(s0, run[..j - 1]), run[j - 1]);
  }

  /** Over a whole episode, however long the first ACK after it takes: unless a save overwrites the saved
      window in between, the window on entry comes back, with the one exception of a sum that wraps. */
  lemma EpisodeRestores(s0: State, run: seq<Event>, i: nat, x: nat)
    requires Episode(s0, run, i, x) && NoOverwrite(s0, run, x)
    ensures var n := |run| - 1;
            var s, ev := Exec(s0, run[..n]), run[n];
            && s.win.priorCwnd >= Exec(s0, run[..i]).win.cwnd
            && Restored(Modelled(s, ev.e, ev.rs), ev.e, ev.rs, Exec(s0, run), Exec(s0, run[..i]).win.cwnd)
  {
    hide Main, Step, Modelled, Restored, Exec, NoOverwrite;
    var n := |run| - 1;
    var s, ev := Exec(s0, run[..n]), run[n];
    PrefixOfEpisode(s0, run, i, x);
    SavedStays(s0, run, x, n) by {
      NoOverwriteAt(s0, run, x);
    }
    if x < n {
      PendingUntil(s0, run, x, n);
    }
    PrefixStep(s0, run, n);
    assert run[..n + 1] == run;
    StepIsMain(s, ev);
    CallRestores(s, ev.e, ev.rs, Exec(s0, run[..i]).win.cwnd);
  }

  lemma NoOverwriteAt(s0: State, run: seq<Event>, from: nat)
    requires NoOverwrite(s0, run, from)
    ensures forall k | from <= k < |run| :: !Overwrites(Exec(s0, run[..k]), run[k])
  {
  }

  lemma PrefixOfEpisode(s0: State, run: seq<Event>, i: nat, x: nat)
    requires Episode(s0, run, i, x)
    ensures Exec(s0, run[..x]).win.priorCwnd >= Exec(s0, run[..i]).win.cwnd
  {
    hide Exec;
    var before := run[..x];
    assert before[..i] == run[..i] && before[..x] == before;
    forall k | i < k <= x ensures Probing(Exec(s0, before[..k])) {
      assert before[..k] == run[..k];
    }
    SavedWindowHolds(s0, before, i);
  }

  // ----- Loss recovery -----

  lemma SavesWindow(s: State)
    ensures Step(s, EnteringLoss).win.priorCwnd >= s.win.cwnd
  {
  }

  /** Over a loss recovery: the window in use when it was entered at event i comes back with the first call
      that acks anything outside it, unless a save overwrites it in between, with the same exception. */
  lemma RecoveryRestores(s0: State, run: seq<Event>, i: nat)
    requires i < |run| - 1 && run[i].EnteringLoss? && NoOverwrite(s0, run, i + 1)
    requires Acks(run[|run| - 1]) && !Probing(Exec(s0, run))
    requires InRecovery(Exec(s0, run[..|run| - 1]).win.prevCa) && !InRecovery(run[|run| - 1].e.caState)
    ensures var n := |run| - 1;
            var s, ev := Exec(s0, run[..n]), run[n];
            Restored(Modelled(s, ev.e, ev.rs), ev.e, ev.rs, Exec(s0, run), Exec(s0, run[..i]).win.cwnd)
  {
    hide Main, Step, Modelled, Restored, Exec, NoOverwrite;
    var n := |run| - 1;
    PrefixStep(s0, run, i);
    SavesWindow(Exec(s0, run[..i]));
    SavedStays(s0, run, i + 1, n) by {
      NoOverwriteAt(s0, run, i + 1);
    }
    PrefixStep(s0, run, n);
    assert run[..n + 1] == run;
    StepIsMain(Exec(s0, run[..n]), run[n]);
    CallRestores(Exec(s0, run[..n]), run[n].e, run[n].rs, Exec(s0, run[..i]).win.cwnd);
  }

  // ----- When the window does not come back -----

  /** The wrap does happen: with the saved window and the clamp at their largest, one packet acked and the
      pipe not full, PROBE_RTT gives back a window of 4. */
  lemma WrapLosesWindow(w: State, e: Env, rs: Sample)
    requires w.win.restoreCwnd && !Probing(w) && !FullBwReached(w.gain)
    requires w.win.priorCwnd == e.cwndClamp == TWO32 - 1 && w.win.cwnd < TWO32
    requires rs.ackedSacked == 1 && rs.losses == 0 && e.delivered < TCP_INIT_CWND
    requires w.win.prevCa == e.caState == Open && !w.win.conserving
    ensures SetCwnd(w, e, rs, 1, Bandwidth(w), w.gain.cwnd).win.cwnd == CWND_MIN_TARGET
  {
    assert U32(TWO32) == 0;
    hide Target;
  }

  // ----- An episode -----

  /** The first ACK finds the filter expired and 4 packets or fewer in flight; the second comes 200 ms later
      and acks a packet sent since. */
  ghost predicate Dips(s0: State, a: Event, b: Event) {
    && a.Acked? && b.Acked? && !Probing(s0) && FilterExpired(s0.path, a.e) && !s0.probe.idleRestart
    && a.e.inFlight <= CWND_MIN_TARGET && 0 < a.e.now && a.e.now + ProbeTicks(a.e.hz) < b.e.now
    && ValidSample(b.rs) && a.e.delivered <= b.rs.priorDelivered && a.e.delivered <= b.e.delivered
  }

  lemma DipSteps(s0: State, a: Event, b: Event)
    requires Dips(s0, a, b)
    ensures Probing(Step(s0, a)) && !Probing(Step(Step(s0, a), b))
  {
    hide Main, Step, ProbeTicks;
    StepIsMain(s0, a);
    MainEpisode(s0, a.e, a.rs);
    StepIsMain(Step(s0, a), b);
    MainEpisode(Step(s0, a), b.e, b.rs);
  }

  /** Two such ACKs make an episode if the second acks anything. */
  lemma TwoAcks(s0: State, a: Event, b: Event)
    requires Dips(s0, a, b) && b.rs.ackedSacked > 0
    ensures EnvOk([a, b]) && Episode(s0, [a, b], 0, 1) && NoOverwrite(s0, [a, b], 1)
  {
    var run := [a, b];
    hide Main, Step, ProbeTicks, FilterExpired;
    assert run[..0] == [] && run[..1] == [a] && run[..2] == run;
    PrefixStep(s0, run, 0);
    PrefixStep(s0, run, 1);
    DipSteps(s0, a, b);
  }

  /** So there are episodes: a new connection, ten seconds and a tick later, and 201 ms after that. */
  lemma EpisodeExists() returns (s0: State, run: seq<Event>)
    ensures !Probing(s0) && EnvOk(run) && Episode(s0, run, 0, 1) && NoOverwrite(s0, run, 1) && |run| == 2
    ensures Probing(Exec(s0, run[..1])) && !Probing(Exec(s0, run))
  {
    var e := Env(1, 1000, 0, 0, 0, 0, Open, 100, 1500, 1000000, 0, 0, 0, 1, 2);
    var rs := Sample(1, 1, 10, 1, 0, false, 1, 1);
    s0 := Init(e, 1000, 10, 0, 0);
    var a, b := Acked(e.(now := 10002), rs), Acked(e.(now := 10203), rs);
    run := [a, b];
    TwoAcks(s0, a, b);
  }
}
