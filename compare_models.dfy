/**
 * The comparison driver: from the parsed command-line flags it plans which
 * training scripts to run, with which arguments and time limits, runs each
 * of them once in plan order, and then always goes on to the report.
 *
 * Running a script is not modelled: its outcome is given by `env`, a
 * function from the invocation (command line and time limit) to what the
 * subprocess did.
 */
module CompareModels {
  import opened CommandArgs

  /** The parsed command-line flags (`--verbose` is parsed but never read). */
  datatype Flags = Flags(
    includeRoberta: bool,
    includeAll: bool,
    sampleSize: int,
    timeout: int,
    skipTraining: bool)

  const DefaultSampleSize: int := 20000
  const DefaultTimeout: int := 1800
  const DefaultFlags: Flags := Flags(false, false, DefaultSampleSize, DefaultTimeout, false)

  /** Transformer models never train on more examples than this. */
  const TransformerSampleCap: int := 20000
  /** Scripts built on RoBERTa get at least this many seconds. */
  const TransformerTimeoutFloor: int := 3600

  /** The keys of the driver's script table. */
  datatype Model = MlpBasic | MlpEnhanced | Roberta | Kernel | Pca | Lstm | LstmRoberta

  /** The script file that trains each model. */
  function ScriptName(m: Model): string {
    match m
    case MlpBasic => "mlp_basic_main.py"
    case MlpEnhanced => "mlp_enhanced_main.py"
    case Roberta => "roberta_main.py"
    case Kernel => "kernel_approximation_main.py"
    case Pca => "randomized_pca_main.py"
    case Lstm => "lstm_main.py"
    case LstmRoberta => "lstm_roberta_main.py"
  }

  /** The table maps no two models to the same file. */
  lemma ScriptNameInjective(a: Model, b: Model)
    ensures ScriptName(a) == ScriptName(b) ==> a == b
  {
  }

  /** The scripts that need no transformer, in the order they always run. */
  const Baseline: seq<Model> := [MlpBasic, MlpEnhanced, Kernel, Pca]

  function Min(a: int, b: int): int {
    if a <= b then a else b
  }

  function Max(a: int, b: int): int {
    if a >= b then a else b
  }

  /** Sample size handed to the transformer scripts. */
  function TransformerSampleSize(requested: int): (n: int)
    ensures n <= TransformerSampleCap && n <= requested
    ensures n == requested || n == TransformerSampleCap
    ensures requested <= TransformerSampleCap ==> n == requested
  {
    if requested > TransformerSampleCap then Min(requested, TransformerSampleCap) else requested
  }

  /** One entry of the script list: a file name and its arguments. */
  datatype ScriptEntry = ScriptEntry(name: string, args: seq<Arg>)

  /** The models selected by the flags, in run order. */
  function Selected(f: Flags): seq<Model> {
    Baseline
    + (if f.includeRoberta || f.includeAll then [Roberta] else [])
    + (if f.includeAll then [Lstm, LstmRoberta] else [])
  }

  /** The arguments each model's script is given. */
  function ArgsFor(m: Model, sampleSize: int): seq<Arg> {
    match m
    case Roberta => [SampleSize(TransformerSampleSize(sampleSize))]
    case Lstm => [SampleSize(TransformerSampleSize(sampleSize)), ModeTrain]
    case LstmRoberta => [SampleSize(TransformerSampleSize(sampleSize)), ModeTrain]
    case _ => [SampleSize(sampleSize)]
  }

  /**
   * The script list the driver builds when training is not skipped: the four
   * baseline scripts with the requested sample size, then RoBERTa when asked
   * for, then the two LSTM scripts when everything is asked for.
   */
  function Plan(f: Flags): (p: seq<ScriptEntry>)
    ensures |p| == if f.includeAll then 7 else if f.includeRoberta then 5 else 4
    ensures forall i :: 0 <= i < 4 ==>
      p[i] == ScriptEntry(ScriptName(Baseline[i]), [SampleSize(f.sampleSize)])
    ensures f.includeRoberta || f.includeAll ==>
      p[4] == ScriptEntry(ScriptName(Roberta), [SampleSize(TransformerSampleSize(f.sampleSize))])
    ensures f.includeAll ==>
      p[5] == ScriptEntry(ScriptName(Lstm), [SampleSize(TransformerSampleSize(f.sampleSize)), ModeTrain])
    ensures f.includeAll ==>
      p[6] == ScriptEntry(ScriptName(LstmRoberta), [SampleSize(TransformerSampleSize(f.sampleSize)), ModeTrain])
  {
    var ms := Selected(f);
    seq(|ms|, i requires 0 <= i < |ms| => ScriptEntry(ScriptName(ms[i]), ArgsFor(ms[i], f.sampleSize)))
  }

  /** Some entry of `p` runs the script of `m`. */
  predicate Runs(p: seq<ScriptEntry>, m: Model) {
    exists i :: 0 <= i < |p| && p[i].name == ScriptName(m)
  }

  /**
   * Entry `i` of the plan runs the `i`-th selected model. `Plan`'s own
   * contract already names every entry; this lemma connects plan indices to
   * `Selected`, in whose terms `InvocationTimeout` is stated.
   */
  lemma PlanRunsSelected(f: Flags, i: nat)
    requires i < |Plan(f)|
    ensures |Selected(f)| == |Plan(f)| && Plan(f)[i].name == ScriptName(Selected(f)[i])
  {
  }

  /** RoBERTa is planned exactly when `--include_roberta` or `--include_all` is given. */
  lemma PlanRunsRobertaIff(f: Flags)
    ensures Runs(Plan(f), Roberta) <==> f.includeRoberta || f.includeAll
  {
  }

  /** Both LSTM scripts are planned exactly when `--include_all` is given. */
  lemma PlanRunsLstmIff(f: Flags)
    ensures Runs(Plan(f), Lstm) <==> f.includeAll
    ensures Runs(Plan(f), LstmRoberta) <==> f.includeAll
  {
  }

  /** No script appears twice in a plan. */
  lemma PlanNamesDistinct(f: Flags, i: nat, j: nat)
    requires i < j < |Plan(f)|
    ensures Plan(f)[i].name != Plan(f)[j].name
  {
  }

  /**
   * Builds the script list step by step as the driver does: the baseline list
   * first, then RoBERTa and the two LSTM scripts appended.
   */
  method BuildScripts(f: Flags) returns (scripts: seq<ScriptEntry>)
    ensures scripts == Plan(f)
  {
    var sampleArgs := [SampleSize(f.sampleSize)];
    scripts := [
      ScriptEntry(ScriptName(MlpBasic), sampleArgs),
      ScriptEntry(ScriptName(MlpEnhanced), sampleArgs),
      ScriptEntry(ScriptName(Kernel), sampleArgs),
      ScriptEntry(ScriptName(Pca), sampleArgs)
    ];
    if f.includeRoberta || f.includeAll {
      var transformerSampleSize := if f.sampleSize > TransformerSampleCap
        then Min(f.sampleSize, TransformerSampleCap) else f.sampleSize;
      var robertaArgs := [SampleSize(transformerSampleSize)];
      scripts := scripts + [ScriptEntry(ScriptName(Roberta), robertaArgs)];
      if f.includeAll {
        scripts := scripts + [ScriptEntry(ScriptName(Lstm), [SampleSize(transformerSampleSize), ModeTrain])];
        scripts := scripts + [ScriptEntry(ScriptName(LstmRoberta), [SampleSize(transformerSampleSize), ModeTrain])];
      }
    }
  }

  /** The time limit, in seconds, a script is run with. */
  function ScriptTimeout(name: string, requested: int): (t: int)
    ensures name == ScriptName(Roberta) || name == ScriptName(LstmRoberta) ==>
      t >= TransformerTimeoutFloor && t >= requested && (t == requested || t == TransformerTimeoutFloor)
    ensures !(name == ScriptName(Roberta) || name == ScriptName(LstmRoberta)) ==> t == requested
  {
    if name in [ScriptName(Roberta), ScriptName(LstmRoberta)] then Max(requested, TransformerTimeoutFloor)
    else requested
  }

  /** Only the two RoBERTa-based models get the raised time limit; `lstm_main.py` does not. */
  lemma ModelTimeout(m: Model, requested: int)
    ensures ScriptTimeout(ScriptName(m), requested) ==
      if m == Roberta || m == LstmRoberta then Max(requested, TransformerTimeoutFloor) else requested
  {
  }

  /** A subprocess run: its command line and its time limit in seconds. */
  datatype Invocation = Invocation(cmd: seq<string>, timeout: int)

  /** What a subprocess run came to: an exit status, a timeout, or any other exception. */
  datatype Outcome = Exited(code: int) | TimedOut | Raised

  /** The command line: the interpreter, the script, then the arguments in order. */
  function Command(interpreter: string, script: string, args: seq<Arg>): (cmd: seq<string>)
    ensures |cmd| == 2 + |args|
    ensures cmd[0] == interpreter && cmd[1] == script
    ensures cmd[2..] == RenderAll(args)
  {
    [interpreter, script] + RenderAll(args)
  }

  /** The command line determines the interpreter, the script and every argument. */
  lemma CommandInjective(i1: string, s1: string, a1: seq<Arg>, i2: string, s2: string, a2: seq<Arg>)
    requires Command(i1, s1, a1) == Command(i2, s2, a2)
    ensures i1 == i2 && s1 == s2 && a1 == a2
  {
    RenderAllInjective(a1, a2);
  }

  /**
   * Runs one script: builds its command line, runs it under the time limit,
   * and reports success only for exit status 0.
   */
  method RunScript(interpreter: string, script: string, args: seq<Arg>, timeout: int,
                   env: Invocation -> Outcome)
    returns (inv: Invocation, success: bool)
    ensures inv == Invocation(Command(interpreter, script, args), timeout)
    ensures success <==> env(inv) == Exited(0)
  {
    var cmd := [interpreter, script];
    if |args| > 0 {
      cmd := cmd + RenderAll(args);
    }
    inv := Invocation(cmd, timeout);
    match env(inv)
    case Exited(code) =>
      success := code == 0;
    case TimedOut =>
      success := false;
    case Raised =>
      success := false;
  }

  /** How the driver runs a list entry: its command and its script's time limit. */
  function PlannedInvocation(interpreter: string, e: ScriptEntry, requested: int): Invocation {
    Invocation(Command(interpreter, e.name, e.args), ScriptTimeout(e.name, requested))
  }

  /**
   * One pass of the driver's loop: picks the entry's time limit, raising it
   * for the RoBERTa-based scripts, and runs the entry's script.
   */
  method RunEntry(entry: ScriptEntry, requested: int, interpreter: string, env: Invocation -> Outcome)
    returns (inv: Invocation, success: bool)
    ensures inv == PlannedInvocation(interpreter, entry, requested)
    ensures success <==> env(inv) == Exited(0)
  {
    var scriptTimeout := requested;
    if entry.name in [ScriptName(Roberta), ScriptName(LstmRoberta)] {
      scriptTimeout := Max(scriptTimeout, TransformerTimeoutFloor);
    }
    inv, success := RunScript(interpreter, entry.name, entry.args, scriptTimeout, env);
  }

  /** The names of the entries whose run failed, in order. */
  function FailedNames(scripts: seq<ScriptEntry>, results: seq<bool>): seq<string>
    requires |results| == |scripts|
  {
    if |scripts| == 0 then []
    else
      FailedNames(scripts[..|scripts| - 1], results[..|results| - 1])
      + (if results[|results| - 1] then [] else [scripts[|scripts| - 1].name])
  }

  /** A name is warned about exactly when some entry with that name failed. */
  lemma {:induction false} FailedNamesExactly(scripts: seq<ScriptEntry>, results: seq<bool>, w: string)
    requires |results| == |scripts|
    ensures w in FailedNames(scripts, results) <==>
      exists i :: 0 <= i < |scripts| && !results[i] && scripts[i].name == w
  {
    if |scripts| > 0 {
      var n := |scripts| - 1;
      FailedNamesExactly(scripts[..n], results[..n], w);
      if w in FailedNames(scripts[..n], results[..n]) {
        var i :| 0 <= i < n && !results[..n][i] && scripts[..n][i].name == w;
        assert !results[i] && scripts[i].name == w;
      }
      if exists i :: 0 <= i < |scripts| && !results[i] && scripts[i].name == w {
        var i :| 0 <= i < |scripts| && !results[i] && scripts[i].name == w;
        if i < n {
          assert !results[..n][i] && scripts[..n][i].name == w;
        }
      }
    }
  }

  /** The runs the driver makes for a script list, one per entry, in list order. */
  function PlannedInvocations(interpreter: string, scripts: seq<ScriptEntry>, requested: int): (invs: seq<Invocation>)
    ensures |invs| == |scripts|
    ensures forall i :: 0 <= i < |scripts| ==> invs[i] == PlannedInvocation(interpreter, scripts[i], requested)
  {
    seq(|scripts|, i requires 0 <= i < |scripts| => PlannedInvocation(interpreter, scripts[i], requested))
  }

  /** Whether each run succeeded, that is, exited with status 0. */
  function Successes(env: Invocation -> Outcome, invs: seq<Invocation>): (oks: seq<bool>)
    ensures |oks| == |invs|
    ensures forall i :: 0 <= i < |invs| ==> (oks[i] <==> env(invs[i]) == Exited(0))
  {
    seq(|invs|, i requires 0 <= i < |invs| => env(invs[i]) == Exited(0))
  }

  /**
   * Runs every entry once, in order; a failed run is warned about and the
   * loop goes on with the next entry.
   */
  method RunAll(scripts: seq<ScriptEntry>, requested: int, interpreter: string, env: Invocation -> Outcome)
    returns (attempts: seq<Invocation>, results: seq<bool>, warnings: seq<string>)
    ensures attempts == PlannedInvocations(interpreter, scripts, requested)
    ensures results == Successes(env, attempts)
    ensures warnings == FailedNames(scripts, results)
  {
    attempts, results, warnings := [], [], [];
    var k := 0;
    while k < |scripts|
      invariant k <= |scripts|
      invariant attempts == PlannedInvocations(interpreter, scripts[..k], requested)
      invariant results == Successes(env, attempts)
      invariant warnings == FailedNames(scripts[..k], results)
    {
      var inv, success := RunEntry(scripts[k], requested, interpreter, env);
      assert (results + [success])[..k] == results;
      assert scripts[..k + 1][..k] == scripts[..k];
      attempts := attempts + [inv];
      results := results + [success];
      if !success {
        warnings := warnings + [scripts[k].name];
      }
      k := k + 1;
    }
    assert scripts[..k] == scripts;
  }

  /** Every subprocess run the driver makes for the given flags, in order. */
  function Invocations(f: Flags, interpreter: string): (invs: seq<Invocation>)
    ensures f.skipTraining ==> invs == []
    ensures !f.skipTraining ==> |invs| == |Plan(f)|
  {
    if f.skipTraining then [] else PlannedInvocations(interpreter, Plan(f), f.timeout)
  }

  /** Run `i` gets the raised time limit exactly when it trains a RoBERTa-based model. */
  lemma InvocationTimeout(f: Flags, interpreter: string, i: nat)
    requires !f.skipTraining && i < |Plan(f)|
    ensures i < |Selected(f)|
    ensures Invocations(f, interpreter)[i].timeout ==
      if Selected(f)[i] in {Roberta, LstmRoberta} then Max(f.timeout, TransformerTimeoutFloor) else f.timeout
  {
  }

  /** With every flag at its default, the four baseline scripts run on 20000 examples for 1800 seconds each. */
  lemma DefaultInvocations(interpreter: string)
    ensures Invocations(DefaultFlags, interpreter) == [
      Invocation([interpreter, "mlp_basic_main.py", "--sample_size=20000"], 1800),
      Invocation([interpreter, "mlp_enhanced_main.py", "--sample_size=20000"], 1800),
      Invocation([interpreter, "kernel_approximation_main.py", "--sample_size=20000"], 1800),
      Invocation([interpreter, "randomized_pca_main.py", "--sample_size=20000"], 1800)]
  {
    assert IntToDecimal(20000) == "20000";
    var word := Render(SampleSize(20000));
    assert word == "--sample_size=20000";
    var invs := Invocations(DefaultFlags, interpreter);
    forall i | 0 <= i < 4
      ensures invs[i] == Invocation([interpreter, ScriptName(Baseline[i]), word], 1800)
    {
      ModelTimeout(Baseline[i], 1800);
      assert Command(interpreter, ScriptName(Baseline[i]), [SampleSize(20000)])
        == [interpreter, ScriptName(Baseline[i]), word];
    }
  }

  /** Under `--include_all` the two LSTM scripts run last, on the capped sample, in training mode. */
  lemma IncludeAllLstmInvocations(f: Flags, interpreter: string)
    requires f.includeAll && !f.skipTraining
    ensures |Invocations(f, interpreter)| == 7
    ensures Invocations(f, interpreter)[5] == Invocation(
      [interpreter, "lstm_main.py", SampleSizePrefix + IntToDecimal(Min(f.sampleSize, TransformerSampleCap)), "--mode=train"],
      f.timeout)
    ensures Invocations(f, interpreter)[6] == Invocation(
      [interpreter, "lstm_roberta_main.py", SampleSizePrefix + IntToDecimal(Min(f.sampleSize, TransformerSampleCap)), "--mode=train"],
      Max(f.timeout, TransformerTimeoutFloor))
  {
  }

  /** No two runs of one driver invocation have the same command line and time limit. */
  lemma InvocationsDistinct(f: Flags, interpreter: string, i: nat, j: nat)
    requires !f.skipTraining && i < j < |Invocations(f, interpreter)|
    ensures Invocations(f, interpreter)[i] != Invocations(f, interpreter)[j]
  {
  }

  /** The stages of a driver run after the flags are parsed. */
  datatype Stage = Training | TrainingSkipped | ReportSaved | ResultsDisplayed

  /**
   * The driver's main routine, from parsed flags on: trains every planned
   * model unless training is skipped, then saves the report and shows the
   * results in either case.
   */
  method Compare(f: Flags, interpreter: string, env: Invocation -> Outcome)
    returns (attempts: seq<Invocation>, results: seq<bool>, warnings: seq<string>, stages: seq<Stage>)
    ensures attempts == Invocations(f, interpreter)
    ensures results == Successes(env, attempts)
    ensures warnings == if f.skipTraining then [] else FailedNames(Plan(f), results)
    ensures stages == [if f.skipTraining then TrainingSkipped else Training, ReportSaved, ResultsDisplayed]
  {
    if !f.skipTraining {
      var scripts := BuildScripts(f);
      attempts, results, warnings := RunAll(scripts, f.timeout, interpreter, env);
      stages := [Training];
    } else {
      attempts, results, warnings := [], [], [];
      stages := [TrainingSkipped];
    }
    stages := stages + [ReportSaved];
    stages := stages + [ResultsDisplayed];
  }
}
