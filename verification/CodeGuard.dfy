/**
 * The code-hash guard while verification passes overlap. Passes read the chain between a begin and an
 * end; halts, resumes and settlements fall anywhere between.
 */
module CodeGuard {
  import opened Common
  import opened RiskGate

  /** A verification pass still reading: the halt count it captured, and the moment it began. */
  datatype Pass = Pass(startSeq: nat, beganAt: nat)

  /** `now`, `lastHaltAt` and `completed` only record history; no operation of the gate reads them. */
  datatype World = World(safety: Safety, passes: map<nat, Pass>, now: nat, lastHaltAt: nat, completed: bool)

  datatype Event =
    | Begin(pass: nat)
    | End(pass: nat, answers: seq<CodeRead>)
    | Halt(reason: string)
    | TryResume
    | Report(outcome: Outcome)

  /** The configured hashes; a gate may have none, and then a pass returns before it reads anything. */
  type Pins = Option<seq<Pin>>

  /** The event is a pass that has read every pinned address and is judged now. */
  predicate Ends(w: World, pins: Pins, e: Event) {
    e.End? && e.pass in w.passes && pins.Some? && |e.answers| == |pins.value|
  }

  predicate Enabled(w: World, pins: Pins, e: Event) {
    match e
    case Begin(p) => p !in w.passes
    case End(p, answers) => p in w.passes && |answers| == if pins.Some? then |pins.value| else 0
    case _ => true
  }

  /** The event is a pass whose judgement halts the gate for bytecode. */
  predicate HaltsForCode(w: World, pins: Pins, e: Event) {
    Ends(w, pins, e) && (AnyCompromised(pins.value, e.answers) || (AnyRejected(e.answers) && !w.safety.everVerified))
  }

  function Judged(s: Safety, cfg: Config, pins: Pins, w: World, e: Event): Safety {
    match e
    case Begin(_) => s
    case End(p, answers) => if Ends(w, pins, e) then FinishVerify(s, pins.value, answers, w.passes[p].startSeq) else s
    case Halt(reason) => HaltWith(s, reason, false)
    case TryResume => Resume(s)
    case Report(o) => Release(s, cfg, o)
  }

  function Step(w: World, cfg: Config, pins: Pins, e: Event): World {
    World(Judged(w.safety, cfg, pins, w, e),
          if e.Begin? then w.passes[e.pass := Pass(w.safety.codeHashHaltSeq, w.now)]
          else if e.End? then w.passes - {e.pass} else w.passes,
          w.now + 1,
          if HaltsForCode(w, pins, e) then w.now else w.lastHaltAt,
          w.completed || Ends(w, pins, e))
  }

  function Start(cfg: Config): World {
    World(Opened(cfg).safety, map[], 1, 0, false)
  }

  function After(cfg: Config, pins: Pins, run: seq<Event>): World {
    if run == [] then Start(cfg) else Step(After(cfg, pins, run[..|run| - 1]), cfg, pins, run[|run| - 1])
  }

  predicate Run(cfg: Config, pins: Pins, run: seq<Event>) {
    run == [] || (Run(cfg, pins, run[..|run| - 1]) && Enabled(After(cfg, pins, run[..|run| - 1]), pins, run[|run| - 1]))
  }

  /** The halt counter tells a pass exactly whether a code-hash halt came after it began. */
  predicate Sound(w: World) {
    && w.lastHaltAt < w.now
    && (w.safety.codeHashHalt ==> !w.safety.running)
    && (w.completed && !w.safety.everVerified ==> w.safety.codeHashHalt)
    && (forall p :: p in w.passes ==>
          && w.passes[p].startSeq <= w.safety.codeHashHaltSeq
          && w.passes[p].beganAt < w.now && w.passes[p].beganAt != w.lastHaltAt
          && (w.passes[p].startSeq == w.safety.codeHashHaltSeq <==> w.lastHaltAt < w.passes[p].beganAt))
  }

  lemma StepKeepsSound(w: World, cfg: Config, pins: Pins, e: Event)
    requires Sound(w) && Enabled(w, pins, e)
    ensures Sound(Step(w, cfg, pins, e))
  {
  }

  lemma {:induction false} RunKeepsSound(cfg: Config, pins: Pins, run: seq<Event>)
    requires Run(cfg, pins, run)
    ensures Sound(After(cfg, pins, run))
    decreases |run|
  {
    if run != [] {
      RunKeepsSound(cfg, pins, run[..|run| - 1]);
      StepKeepsSound(After(cfg, pins, run[..|run| - 1]), cfg, pins, run[|run| - 1]);
    }
  }

  /** Every pinned address answered with exactly the pinned code. */
  predicate Clean(pins: Pins, answers: seq<CodeRead>) {
    && pins.Some? && |pins.value| == |answers|
    && forall i :: 0 <= i < |answers| ==> answers[i].CodeAt? && Lower(answers[i].hash) == Lower(pins.value[i].want)
  }

  /**
   * A standing code-hash halt is cleared by one thing only: a pass that read every pinned address
   * clean and began after the most recent such halt. Such a pass always clears it.
   */
  lemma HaltClearsExactly(cfg: Config, pins: Pins, run: seq<Event>, e: Event)
    requires Run(cfg, pins, run + [e]) && After(cfg, pins, run).safety.codeHashHalt
    ensures var w := After(cfg, pins, run);
            !After(cfg, pins, run + [e]).safety.codeHashHalt
            <==> Ends(w, pins, e) && Clean(pins, e.answers) && w.lastHaltAt < w.passes[e.pass].beganAt
  {
    assert (run + [e])[..|run|] == run;
    RunKeepsSound(cfg, pins, run);
    if Ends(After(cfg, pins, run), pins, e) {
      CleanExactly(pins.value, e.answers);
    }
  }

  lemma CleanExactly(pins: seq<Pin>, answers: seq<CodeRead>)
    requires |pins| == |answers|
    ensures Clean(Some(pins), answers) <==> !AnyCompromised(pins, answers) && !AnyRejected(answers)
  {
    if !AnyCompromised(pins, answers) && !AnyRejected(answers) {
      forall i | 0 <= i < |pins|
        ensures answers[i].CodeAt? && Lower(answers[i].hash) == Lower(pins[i].want)
      {
        assert !Compromised(pins[i], answers[i]) && !answers[i].ProbeRejected?;
      }
    }
  }

  /** Some pass in the run verified every pinned address. */
  predicate VerifiedOnce(pins: Pins, run: seq<Event>) {
    exists i :: 0 <= i < |run| && CleanAt(run, pins, i)
  }

  predicate CleanAt(run: seq<Event>, pins: Pins, i: nat)
    requires i < |run|
  {
    run[i].End? && Clean(pins, run[i].answers)
  }

  lemma {:induction false} VerifiedMeansCleanPass(cfg: Config, pins: Pins, run: seq<Event>)
    requires Run(cfg, pins, run)
    ensures After(cfg, pins, run).safety.everVerified <==> VerifiedOnce(pins, run)
    decreases |run|
  {
    if run != [] {
      var n := |run| - 1;
      VerifiedMeansCleanPass(cfg, pins, run[..n]);
      forall i | 0 <= i < n
        ensures CleanAt(run[..n], pins, i) == CleanAt(run, pins, i)
      {
      }
      if run[n].End? {
        if pins.Some? {
          CleanExactly(pins.value, run[n].answers);
        }
        assert CleanAt(run, pins, n) <==> Clean(pins, run[n].answers);
      }
      if VerifiedOnce(pins, run[..n]) {
        var i :| 0 <= i < n && CleanAt(run[..n], pins, i);
        assert CleanAt(run, pins, i);
      }
    }
  }

  /** Without pins nothing is ever verified and nothing ever halts for bytecode. */
  lemma {:induction false} NoPinsNoGuard(cfg: Config, run: seq<Event>)
    requires Run(cfg, None, run)
    ensures var s := After(cfg, None, run).safety; !s.everVerified && !s.codeHashHalt && s.codeHashHaltSeq == 0
    decreases |run|
  {
    if run != [] {
      NoPinsNoGuard(cfg, run[..|run| - 1]);
    }
  }

  /** With pins, once any pass has come to an end, trading means some pass has verified every address. */
  lemma RunningMeansVerified(cfg: Config, pins: Pins, run: seq<Event>)
    requires Run(cfg, pins, run) && pins.Some?
    requires exists i :: 0 <= i < |run| && run[i].End?
    requires After(cfg, pins, run).safety.running
    ensures VerifiedOnce(pins, run)
  {
    RunKeepsSound(cfg, pins, run);
    VerifiedMeansCleanPass(cfg, pins, run);
    EndedMeansCompleted(cfg, pins, run);
  }

  lemma {:induction false} EndedMeansCompleted(cfg: Config, pins: Pins, run: seq<Event>)
    requires Run(cfg, pins, run) && pins.Some?
    requires exists i :: 0 <= i < |run| && run[i].End?
    ensures After(cfg, pins, run).completed
    decreases |run|
  {
    var n := |run| - 1;
    if !run[n].End? {
      var i :| 0 <= i < |run| && run[i].End?;
      assert run[..n][i].End?;
      EndedMeansCompleted(cfg, pins, run[..n]);
    }
  }

  /**
   * Two passes overlap: one reads clean before an upgrade, the other finds the upgrade and halts, then
   * the first ends. The clean answer is older than the halt and does not clear it.
   */
  lemma OlderCleanPassDoesNotClear()
    ensures var cfg := Config(0, None, None, None, false);
            var pins := Some([Pin("a", "h")]);
            var run := [Begin(0), Begin(1), End(1, [CodeAt("x")]), End(0, [CodeAt("h")])];
            Run(cfg, pins, run) && After(cfg, pins, run).safety.codeHashHalt
            && After(cfg, pins, run).safety.everVerified
  {
    var cfg := Config(0, None, None, None, false);
    var pins := Some([Pin("a", "h")]);
    var run := [Begin(0), Begin(1), End(1, [CodeAt("x")]), End(0, [CodeAt("h")])];
    assert Lower("x")[0] == 'x' && Lower("h")[0] == 'h';
    Extend(cfg, pins, [], Begin(0));
    Extend(cfg, pins, [Begin(0)], Begin(1));
    Extend(cfg, pins, [Begin(0), Begin(1)], run[2]);
    Extend(cfg, pins, run[..3], run[3]);
    assert [Begin(0)] + [Begin(1)] == [Begin(0), Begin(1)];
    assert [Begin(0), Begin(1)] + [run[2]] == run[..3] && run[..3] + [run[3]] == run;
    assert After(cfg, pins, [Begin(0), Begin(1)]).passes == map[0 := Pass(0, 1), 1 := Pass(0, 2)];
    assert Compromised(pins.value[0], [CodeAt("x")][0]);
    assert AnyCompromised(pins.value, [CodeAt("x")]);
    assert After(cfg, pins, run[..3]).passes[0] == Pass(0, 1);
    assert !AnyCompromised(pins.value, [CodeAt("h")]) && !AnyRejected([CodeAt("h")]);
  }

  lemma Extend(cfg: Config, pins: Pins, run: seq<Event>, e: Event)
    ensures After(cfg, pins, run + [e]) == Step(After(cfg, pins, run), cfg, pins, e)
    ensures Run(cfg, pins, run + [e]) <==> Run(cfg, pins, run) && Enabled(After(cfg, pins, run), pins, e)
  {
    assert (run + [e])[..|run|] == run;
  }
}
