/**
 * Whether the gate trades, told from the events alone: which halts there were, whether a code-hash halt still
 * stood when somebody asked to resume, and what has happened since.
 */
module GateHalts {
  import opened Common
  import opened RiskGate
  import opened GateLedger

  // ---- What a verification pass showed ----------------------------------------------------------------

  predicate Matches(pin: Pin, read: CodeRead) {
    read.CodeAt? && Lower(read.hash) == Lower(pin.want)
  }

  /** The event is a finished pass over all pinned addresses. */
  predicate IsPass(e: GateEvent) {
    e.VerifyE? && |e.pins| == |e.answers|
  }

  predicate IsClean(e: GateEvent) {
    IsPass(e) && forall j :: 0 <= j < |e.pins| ==> Matches(e.pins[j], e.answers[j])
  }

  predicate ShowsOtherCode(e: GateEvent) {
    IsPass(e) && exists j :: 0 <= j < |e.pins| && !e.answers[j].ProbeRejected? && !Matches(e.pins[j], e.answers[j])
  }

  predicate CouldNotRead(e: GateEvent) {
    IsPass(e) && exists j :: 0 <= j < |e.answers| && e.answers[j].ProbeRejected?
  }

  predicate VerifiedBefore(trace: seq<GateEvent>, n: nat)
    requires n <= |trace|
  {
    exists m :: 0 <= m < n && IsClean(trace[m])
  }

  /** A pass that found other code halts; one that could not read does so only while none has ever been clean. */
  predicate HaltsForCodeAt(trace: seq<GateEvent>, i: nat)
    requires i < |trace|
  {
    ShowsOtherCode(trace[i]) || (CouldNotRead(trace[i]) && !VerifiedBefore(trace, i))
  }

  function CodeHalts(trace: seq<GateEvent>, n: nat): set<int>
    requires n <= |trace|
  {
    set i | 0 <= i < n && HaltsForCodeAt(trace, i)
  }

  /** A clean pass that began when no later code-hash halt had been counted. */
  predicate RetiresAt(trace: seq<GateEvent>, m: nat)
    requires m < |trace|
  {
    IsClean(trace[m]) && trace[m].startSeq == |CodeHalts(trace, m)|
  }

  predicate NothingRetires(trace: seq<GateEvent>, from: nat, n: nat)
    requires n <= |trace|
  {
    forall m :: from <= m < n ==> !RetiresAt(trace, m)
  }

  /** Some code-hash halt has not been retired yet. */
  ghost predicate CodeHaltStands(trace: seq<GateEvent>, n: nat)
    requires n <= |trace|
  {
    exists j :: 0 <= j < n && HaltsForCodeAt(trace, j) && NothingRetires(trace, j + 1, n)
  }

  // ---- Halts and resumes --------------------------------------------------------------------------------

  /** At least so many failures since the last success or accepted resume. */
  ghost predicate FailuresReach(cfg: Config, trace: seq<GateEvent>, limit: nat) {
    exists lo :: LastCleared(cfg, trace, lo) && limit <= |FailuresSince(cfg, trace, lo)|
  }

  /** The failure at `i` is one too many. */
  ghost predicate TripsAt(cfg: Config, trace: seq<GateEvent>, i: nat)
    requires i < |trace|
  {
    && FailsAt(cfg, trace, i) && cfg.maxConsecutiveFailures > 0
    && FailuresReach(cfg, trace[..i + 1], cfg.maxConsecutiveFailures)
  }

  ghost predicate HaltsAt(cfg: Config, trace: seq<GateEvent>, i: nat)
    requires i < |trace|
  {
    trace[i].HaltE? || TripsAt(cfg, trace, i) || HaltsForCodeAt(trace, i)
  }

  ghost predicate ResumesAt(trace: seq<GateEvent>, i: nat)
    requires i < |trace|
  {
    trace[i].ResumeE? && !CodeHaltStands(trace, i)
  }

  ghost predicate NothingHalts(cfg: Config, trace: seq<GateEvent>, from: nat, n: nat)
    requires n <= |trace|
  {
    forall i :: from <= i < n ==> !HaltsAt(cfg, trace, i)
  }

  /** The gate was set running before event `from`, by an accepted resume or by starting so. */
  ghost predicate SetRunning(cfg: Config, trace: seq<GateEvent>, from: nat)
    requires from <= |trace|
  {
    if from == 0 then !cfg.startHalted else ResumesAt(trace, from - 1)
  }

  ghost predicate ShouldRun(cfg: Config, trace: seq<GateEvent>, n: nat)
    requires n <= |trace|
  {
    exists from :: 0 <= from <= n && SetRunning(cfg, trace, from) && NothingHalts(cfg, trace, from, n)
  }

  // ---- The gate's own flags say so -------------------------------------------------------------------------

  lemma BeforeNext(cfg: Config, trace: seq<GateEvent>, n: nat)
    requires n < |trace|
    ensures Before(cfg, trace, n + 1) == Step(Before(cfg, trace, n), cfg, trace[n])
  {
    assert trace[..n + 1][..n] == trace[..n];
  }

  lemma PassJudged(e: GateEvent)
    requires IsPass(e)
    ensures AnyCompromised(e.pins, e.answers) <==> ShowsOtherCode(e)
    ensures AnyRejected(e.answers) <==> CouldNotRead(e)
    ensures IsClean(e) <==> !ShowsOtherCode(e) && !CouldNotRead(e)
  {
    if AnyCompromised(e.pins, e.answers) {
      var i :| 0 <= i < |e.pins| && Compromised(e.pins[i], e.answers[i]);
      assert !Matches(e.pins[i], e.answers[i]);
    }
    if ShowsOtherCode(e) {
      var i :| 0 <= i < |e.pins| && !e.answers[i].ProbeRejected? && !Matches(e.pins[i], e.answers[i]);
      assert Compromised(e.pins[i], e.answers[i]);
    }
    if IsClean(e) {
      assert forall j :: 0 <= j < |e.pins| ==> Matches(e.pins[j], e.answers[j]);
    }
    if !ShowsOtherCode(e) && !CouldNotRead(e) {
      forall j | 0 <= j < |e.pins|
        ensures Matches(e.pins[j], e.answers[j])
      {
        assert !e.answers[j].ProbeRejected?;
      }
    }
  }

  /** The three code-hash flags after `n` events. */
  ghost predicate FlagsTell(s: Safety, trace: seq<GateEvent>, n: nat)
    requires n <= |trace|
  {
    && (s.everVerified <==> VerifiedBefore(trace, n))
    && s.codeHashHaltSeq == |CodeHalts(trace, n)|
    && (s.codeHashHalt <==> CodeHaltStands(trace, n))
  }

  lemma VerifiedNext(trace: seq<GateEvent>, n: nat)
    requires n < |trace|
    ensures VerifiedBefore(trace, n + 1) <==> VerifiedBefore(trace, n) || IsClean(trace[n])
  {
  }

  lemma CodeHaltsNext(trace: seq<GateEvent>, n: nat)
    requires n < |trace|
    ensures |CodeHalts(trace, n + 1)| == |CodeHalts(trace, n)| + if HaltsForCodeAt(trace, n) then 1 else 0
  {
    assert CodeHalts(trace, n + 1) == CodeHalts(trace, n) + if HaltsForCodeAt(trace, n) then {n as int} else {};
  }

  lemma StandsNext(trace: seq<GateEvent>, n: nat)
    requires n < |trace|
    ensures CodeHaltStands(trace, n + 1) <==>
              HaltsForCodeAt(trace, n) || (CodeHaltStands(trace, n) && !RetiresAt(trace, n))
  {
    if HaltsForCodeAt(trace, n) {
      assert NothingRetires(trace, n + 1, n + 1);
    }
    if CodeHaltStands(trace, n) && !RetiresAt(trace, n) {
      var j :| 0 <= j < n && HaltsForCodeAt(trace, j) && NothingRetires(trace, j + 1, n);
      assert NothingRetires(trace, j + 1, n + 1);
    }
    if CodeHaltStands(trace, n + 1) && !HaltsForCodeAt(trace, n) {
      var j :| 0 <= j < n + 1 && HaltsForCodeAt(trace, j) && NothingRetires(trace, j + 1, n + 1);
      assert NothingRetires(trace, j + 1, n) && !RetiresAt(trace, n);
    }
  }

  lemma CleanNeverHalts(trace: seq<GateEvent>, n: nat)
    requires n < |trace| && IsClean(trace[n])
    ensures !HaltsForCodeAt(trace, n)
  {
    PassJudged(trace[n]);
  }

  lemma FlagsStep(g: Gate, cfg: Config, trace: seq<GateEvent>, n: nat)
    requires n < |trace| && FlagsTell(g.safety, trace, n)
    ensures FlagsTell(Step(g, cfg, trace[n]).safety, trace, n + 1)
  {
    VerifiedNext(trace, n);
    CodeHaltsNext(trace, n);
    StandsNext(trace, n);
    if IsPass(trace[n]) {
      PassJudged(trace[n]);
    }
  }

  lemma {:induction false} FlagsTellTheEvents(cfg: Config, trace: seq<GateEvent>, n: nat)
    requires n <= |trace|
    ensures FlagsTell(Before(cfg, trace, n).safety, trace, n)
    decreases n
  {
    if n == 0 {
      assert CodeHalts(trace, 0) == {};
    } else {
      FlagsTellTheEvents(cfg, trace, n - 1);
      BeforeNext(cfg, trace, n - 1);
      FlagsStep(Before(cfg, trace, n - 1), cfg, trace, n - 1);
    }
  }

  lemma TripsExactly(cfg: Config, trace: seq<GateEvent>, i: nat)
    requires i < |trace|
    ensures TripsAt(cfg, trace, i) <==>
              FailsAt(cfg, trace, i) && cfg.maxConsecutiveFailures > 0
              && cfg.maxConsecutiveFailures <= Before(cfg, trace, i).safety.consecutiveFailures + 1
  {
    var upTo := trace[..i + 1];
    assert upTo[..i] == trace[..i];
    ThresholdHalts(cfg, upTo);
    var lo := SomePointCleared(cfg, upTo);
    CounterIsFailuresSinceCleared(cfg, upTo, lo);
    forall l | LastCleared(cfg, upTo, l)
      ensures |FailuresSince(cfg, upTo, l)| == |FailuresSince(cfg, upTo, lo)|
    {
      CounterIsFailuresSinceCleared(cfg, upTo, l);
    }
    assert !FailsAt(cfg, trace, i) || !Clears(Before(cfg, trace, i), trace[i]);
  }

  lemma RunningStep(cfg: Config, trace: seq<GateEvent>, n: nat)
    requires n < |trace|
    ensures Before(cfg, trace, n + 1).safety.running <==>
              ResumesAt(trace, n) || (Before(cfg, trace, n).safety.running && !HaltsAt(cfg, trace, n))
  {
    BeforeNext(cfg, trace, n);
    FlagsTellTheEvents(cfg, trace, n);
    TripsExactly(cfg, trace, n);
    if IsPass(trace[n]) {
      PassJudged(trace[n]);
    }
  }

  lemma ShouldRunNext(cfg: Config, trace: seq<GateEvent>, n: nat)
    requires n < |trace|
    ensures ShouldRun(cfg, trace, n + 1) <==>
              ResumesAt(trace, n) || (ShouldRun(cfg, trace, n) && !HaltsAt(cfg, trace, n))
  {
    if ResumesAt(trace, n) {
      assert SetRunning(cfg, trace, n + 1) && NothingHalts(cfg, trace, n + 1, n + 1);
    }
    if ShouldRun(cfg, trace, n) && !HaltsAt(cfg, trace, n) {
      var from :| 0 <= from <= n && SetRunning(cfg, trace, from) && NothingHalts(cfg, trace, from, n);
      assert NothingHalts(cfg, trace, from, n + 1);
    }
    if ShouldRun(cfg, trace, n + 1) && !ResumesAt(trace, n) {
      var from :| 0 <= from <= n + 1 && SetRunning(cfg, trace, from) && NothingHalts(cfg, trace, from, n + 1);
      assert from <= n && NothingHalts(cfg, trace, from, n) && !HaltsAt(cfg, trace, n);
    }
  }

  /**
   * The gate runs if and only if since it was last set running, by its start or by an accepted resume, nobody
   * has halted it, no failure was one too many and no pass found cause for a code-hash halt.
   */
  lemma {:induction false} RunsExactly(cfg: Config, trace: seq<GateEvent>, n: nat)
    requires n <= |trace|
    ensures Before(cfg, trace, n).safety.running <==> ShouldRun(cfg, trace, n)
    decreases n
  {
    if n == 0 {
      assert NothingHalts(cfg, trace, 0, 0);
    } else {
      RunsExactly(cfg, trace, n - 1);
      RunningStep(cfg, trace, n - 1);
      ShouldRunNext(cfg, trace, n - 1);
    }
  }

  /** Halted at any time, by anyone, the gate admits nothing until a resume is accepted. */
  lemma HaltedAdmitsNothing(cfg: Config, trace: seq<GateEvent>, n: nat, action: Action, now: int)
    requires n <= |trace| && !ShouldRun(cfg, trace, n)
    ensures OpenSlot(Before(cfg, trace, n), cfg, now, action) == Before(cfg, trace, n)
  {
    RunsExactly(cfg, trace, n);
  }
}
