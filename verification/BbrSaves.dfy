/** What becomes of the window saved by PROBE_RTT when loss recovery saves another over it. */
module BbrSaves {
  import opened Bbr
  import opened BbrRuns
  import opened BbrProbeRtt
  import opened BbrWindow

  /** A save keeps at most the larger of what was saved and what is in use, an overwriting one only the
      latter. */
  lemma SavedAtMost(s: State, ev: Event)
    ensures Step(s, ev).win.priorCwnd <= Max(s.win.priorCwnd, s.win.cwnd)
    ensures Overwrites(s, ev) ==> Step(s, ev).win.priorCwnd == s.win.cwnd
  {
    if ev.Acked? {
      StepIsMain(s, ev);
      hide Main, Modelled;
      ModelledSaves(s, ev.e, ev.rs);
    } else if !ev.EnteringLoss? {
      OtherWindow(s, ev);
    }
  }

  /** From the event k on no window in use exceeds the bound. */
  ghost predicate InUseUpTo(s0: State, run: seq<Event>, k: nat, bound: nat) {
    forall m | k <= m < |run| :: Exec(s0, run[..m]).win.cwnd <= bound
  }

  lemma InUseAt(s0: State, run: seq<Event>, k: nat, bound: nat, m: nat)
    requires InUseUpTo(s0, run, k, bound) && k <= m < |run|
    ensures Exec(s0, run[..m]).win.cwnd <= bound
  {
  }

  lemma {:induction false} ForgottenSince(s0: State, run: seq<Event>, k: nat, j: nat, bound: nat)
    requires k < j <= |run| && Overwrites(Exec(s0, run[..k]), run[k]) && InUseUpTo(s0, run, k, bound)
    ensures Exec(s0, run[..j]).win.priorCwnd <= bound
    decreases j
  {
    hide Exec, Step, Overwrites, InUseUpTo;
    PrefixStep(s0, run, j - 1);
    SavedAtMost(Exec(s0, run[..j - 1]), run[j - 1]);
    InUseAt(s0, run, k, bound, j - 1);
    if k < j - 1 {
      ForgottenSince(s0, run, k, j - 1, bound);
    }
  }

  lemma ModelledWindow(s: State, e: Env, rs: Sample)
    requires !Probing(Main(s, e, rs)) && rs.ackedSacked > 0
    requires s.win.cwnd < TWO32 && rs.losses < 0x8000_0000
    ensures Main(s, e, rs).win.cwnd <=
              Max(CWND_MIN_TARGET,
                  Max(Max(s.win.cwnd, s.win.priorCwnd), e.inFlight + rs.ackedSacked) + rs.ackedSacked)
  {
    hide Modelled, Main, SetCwnd, Restoring;
    ModelledSaves(s, e, rs);
    var w := Modelled(s, e, rs);
    AckAddsAtMost(w, e, rs, rs.ackedSacked, Bandwidth(w), w.gain.cwnd);
  }

  /** An overwritten window is lost for good: however many events later, a call that acks something gives a
      window bounded by those in use since the save and by what is in flight. */
  lemma OverwrittenIsLost(s0: State, run: seq<Event>, k: nat, bound: nat)
    requires k < |run| - 1 && Overwrites(Exec(s0, run[..k]), run[k])
    requires InUseUpTo(s0, run, k, bound) && bound < TWO32
    requires Acks(run[|run| - 1]) && !Probing(Exec(s0, run)) && run[|run| - 1].rs.losses < 0x8000_0000
    ensures var c := run[|run| - 1];
            Exec(s0, run).win.cwnd <=
              Max(CWND_MIN_TARGET, Max(bound, c.e.inFlight + c.rs.ackedSacked) + c.rs.ackedSacked)
  {
    hide Exec, Step, Main, Overwrites, InUseUpTo;
    var n := |run| - 1;
    ForgottenSince(s0, run, k, n, bound);
    InUseAt(s0, run, k, bound, n);
    PrefixStep(s0, run, n);
    assert run[..n + 1] == run;
    StepIsMain(Exec(s0, run[..n]), run[n]);
    ModelledWindow(Exec(s0, run[..n]), run[n].e, run[n].rs);
  }

  // ----- In an episode -----

  /** Only a call that acks something, or the TCP core, changes the window in use. */
  lemma QuietWindow(s: State, ev: Event)
    requires !Acks(ev) && !ev.CoreChange?
    ensures Step(s, ev).win.cwnd == s.win.cwnd
  {
    if ev.Acked? {
      StepIsMain(s, ev);
      hide Main, Modelled;
      ModelledSaves(s, ev.e, ev.rs);
    } else {
      hide U32, U64, PacingRate, MeasureInterval, Consistent, LtSampling;
    }
  }

  lemma {:induction false} WindowStands(s0: State, run: seq<Event>, k: nat, m: nat)
    requires k <= m < |run| && forall j | k <= j < m :: !Acks(run[j]) && !run[j].CoreChange?
    ensures Exec(s0, run[..m]).win.cwnd == Exec(s0, run[..k]).win.cwnd
    decreases m
  {
    hide Exec, Step;
    if k < m {
      WindowStands(s0, run, k, m - 1);
      PrefixStep(s0, run, m - 1);
      QuietWindow(Exec(s0, run[..m - 1]), run[m - 1]);
    }
  }

  /** The other half of `EpisodeRestores`: if a save overwrites the saved window after the exit, the first
      call that acks anything gives a window bounded by the one in use at that save and by what is in flight,
      whatever the window on entry was. */
  lemma EpisodeForgets(s0: State, run: seq<Event>, i: nat, x: nat, k: nat)
    requires Episode(s0, run, i, x) && x < k < |run| - 1 && Overwrites(Exec(s0, run[..k]), run[k])
    requires forall j | k <= j < |run| - 1 :: !run[j].CoreChange?
    requires Exec(s0, run[..k]).win.cwnd < TWO32 && run[|run| - 1].rs.losses < 0x8000_0000
    ensures var c := run[|run| - 1];
            Exec(s0, run).win.cwnd <=
              Max(CWND_MIN_TARGET,
                  Max(Exec(s0, run[..k]).win.cwnd, c.e.inFlight + c.rs.ackedSacked) + c.rs.ackedSacked)
  {
    hide Exec, Step, Overwrites;
    var bound := Exec(s0, run[..k]).win.cwnd;
    forall m | k <= m < |run| ensures Exec(s0, run[..m]).win.cwnd <= bound {
      WindowStands(s0, run, k, m);
    }
    OverwrittenIsLost(s0, run, k, bound);
  }

  // ----- It happens -----

  lemma CwndTakesState(s: State, e: Env, rs: Sample)
    requires rs.ackedSacked > 0
    ensures Main(s, e, rs).win.prevCa == e.caState
  {
    hide Modelled, U32, DeductLosses, GrownCwnd, Target;
    ModelledSaves(s, e, rs);
  }

  /** Leaving PROBE_RTT renews the filter. */
  lemma ExitStamps(s: State, e: Env, rs: Sample)
    requires Probing(s) && !Probing(Main(s, e, rs))
    ensures Main(s, e, rs).path.minRttStamp == e.now && !Main(s, e, rs).probe.idleRestart
  {
    hide BeforeMinRtt, UpdateMinRtt, Paced, SetCwnd;
    var u := BeforeMinRtt(s, e, rs);
    BeforeMinRttFacts(s, e, rs);
    var v := UpdateMinRtt(u, e, rs);
    PacedEpisode(v, e);
    var w := Paced(v, e);
    CwndEpisode(w, e, rs, rs.ackedSacked, Bandwidth(w), w.gain.cwnd);
    StampAtExit(u, e, rs);
    CwndStamps(w, e, rs);
  }

  lemma StampAtExit(u: State, e: Env, rs: Sample)
    requires Probing(u) && !Probing(UpdateMinRtt(u, e, rs))
    ensures UpdateMinRtt(u, e, rs).path.minRttStamp == e.now && !UpdateMinRtt(u, e, rs).probe.idleRestart
  {
    hide U32, FilterExpired, TakeRtt, ProbeTicks, ResetMode;
  }

  lemma CwndStamps(w: State, e: Env, rs: Sample)
    ensures SetCwnd(w, e, rs, rs.ackedSacked, Bandwidth(w), w.gain.cwnd).path.minRttStamp == w.path.minRttStamp
  {
    hide RecoverOrRestore, GrownCwnd, Target;
  }

  /** After an ACK that enters PROBE_RTT and one that leaves it acking nothing: a window of at most 4 in use,
      the one on entry saved, no recovery. */
  lemma AfterDip(s0: State, a: Event, b: Event)
    requires Dips(s0, a, b) && Acks(a) && !Acks(b) && a.e.caState == Open
    ensures var t := Step(Step(s0, a), b);
            && t.win.cwnd <= CWND_MIN_TARGET && t.win.priorCwnd == Max(s0.win.priorCwnd, s0.win.cwnd)
            && t.win.prevCa == Open && t.path.minRttStamp == b.e.now
  {
    hide Main, Modelled, Step, SetCwnd, Dips;
    DipSteps(s0, a, b);
    DipsAck(s0, a, b);
    StepIsMain(s0, a);
    var s := Step(s0, a);
    ModelledSaves(s0, a.e, a.rs);
    WindowBounds(s0, a.e, a.rs);
    CwndTakesState(s0, a.e, a.rs);
    StepIsMain(s, b);
    ModelledSaves(s, b.e, b.rs);
    ExitStamps(s, b.e, b.rs);
    QuietCwnd(Modelled(s, b.e, b.rs), b.e, b.rs);
  }

  lemma DipsAck(s0: State, a: Event, b: Event)
    requires Dips(s0, a, b)
    ensures a.Acked? && b.Acked? && !Probing(s0)
  {
  }

  lemma QuietCwnd(w: State, e: Env, rs: Sample)
    requires rs.ackedSacked == 0
    ensures SetCwnd(w, e, rs, rs.ackedSacked, Bandwidth(w), w.gain.cwnd) == w
  {
  }

  /** The first ACK in recovery after the filter has been renewed does not enter PROBE_RTT. */
  lemma StaysOut(s: State, e: Env, rs: Sample)
    requires !Probing(s) && e.now <= s.path.minRttStamp
    ensures !Probing(Main(s, e, rs))
  {
    hide Main, ProbeTicks;
    MainEpisode(s, e, rs);
  }

  lemma FourSteps(s0: State, run: seq<Event>)
    requires |run| == 4
    ensures Exec(s0, run[..0]) == s0 && Exec(s0, run[..1]) == Step(s0, run[0])
    ensures Exec(s0, run[..2]) == Step(Step(s0, run[0]), run[1])
    ensures Exec(s0, run[..3]) == Step(Step(Step(s0, run[0]), run[1]), run[2])
    ensures Exec(s0, run) == Step(Step(Step(Step(s0, run[0]), run[1]), run[2]), run[3])
  {
    hide Step;
    PrefixStep(s0, run, 0);
    PrefixStep(s0, run, 1);
    PrefixStep(s0, run, 2);
    PrefixStep(s0, run, 3);
    assert run[..4] == run;
  }

  lemma EpisodeOfFour(s0: State, run: seq<Event>)
    requires |run| == 4 && !Probing(s0) && Probing(Exec(s0, run[..1])) && !Probing(Exec(s0, run[..2]))
    requires !Acks(run[1]) && !Acks(run[2]) && Acks(run[3]) && !Probing(Exec(s0, run))
    ensures Episode(s0, run, 0, 1)
  {
    hide Step;
    assert run[..0] == [];
  }

  lemma EntrySave(s: State)
    requires !Probing(s) && s.win.prevCa == Open && s.win.cwnd < s.win.priorCwnd
    ensures var t := Step(s, EnteringLoss);
            && Overwrites(s, EnteringLoss) && !Probing(t) && t.path == s.path && t.win.cwnd == s.win.cwnd
  {
  }

  /** PROBE_RTT is entered and left, the exit acks nothing, loss recovery begins, and the next ACK gives a
      window that owes nothing to the one on entry. */
  lemma DipThenLoss(s0: State, run: seq<Event>)
    requires |run| == 4 && Dips(s0, run[0], run[1]) && run[2] == EnteringLoss && run[3].Acked?
    requires Acks(run[0]) && !Acks(run[1]) && Acks(run[3])
    requires run[0].e.caState == Open && s0.win.cwnd > CWND_MIN_TARGET
    requires run[3].e.now <= run[1].e.now && run[3].rs.losses < 0x8000_0000
    ensures Episode(s0, run, 0, 1) && Overwrites(Exec(s0, run[..2]), run[2])
    ensures var c := run[3];
            Exec(s0, run).win.cwnd <=
              Max(CWND_MIN_TARGET, Max(CWND_MIN_TARGET, c.e.inFlight + c.rs.ackedSacked) + c.rs.ackedSacked)
  {
    hide Exec, Step, Main, Dips, ProbeTicks, Overwrites;
    DipsAck(s0, run[0], run[1]);
    AfterDip(s0, run[0], run[1]);
    DipSteps(s0, run[0], run[1]);
    FourSteps(s0, run);
    var s := Exec(s0, run[..2]);
    EntrySave(s);
    StepIsMain(Exec(s0, run[..3]), run[3]);
    StaysOut(Exec(s0, run[..3]), run[3].e, run[3].rs);
    EpisodeOfFour(s0, run);
    EpisodeForgets(s0, run, 0, 1, 2);
  }

  /** So a new connection with a window of 100 and a clamp of 1000 can come out of PROBE_RTT with a window of
      at most 5. */
  lemma EpisodeForgetsWindow() returns (s0: State, run: seq<Event>)
    ensures |run| == 4 && s0.win.cwnd == 100 && run[3].Acked? && run[3].e.cwndClamp == 1000
    ensures EnvOk(run) && Episode(s0, run, 0, 1) && Overwrites(Exec(s0, run[..2]), run[2])
    ensures Exec(s0, run).win.cwnd <= 5
  {
    hide Exec, Overwrites;
    var e := Env(1, 1000, 0, 0, 0, 3, Open, 1000, 1500, 1000000, 0, 0, 0, 1, 2);
    var rs := Sample(1, 1, 10, 1, 0, false, 1, 1);
    s0 := Init(e, 1000, 100, 0, 0);
    run := [Acked(e.(now := 10002), rs), Acked(e.(now := 10203), rs.(ackedSacked := 0)), EnteringLoss,
            Acked(e.(now := 10203, caState := Recovery), rs)];
    DipThenLoss(s0, run);
  }
}
