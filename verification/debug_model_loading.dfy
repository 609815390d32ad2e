/** The loading debugger: five diagnostic tests run in order, the run
    stops at the first test that fails or raises, and a results map records
    every test that ran. The tests that touch the engine or the GPU are
    outcomes given as parameters; the configuration check, the model-file
    check and the order of the step-by-step loading are modelled. */
module DebugModelLoading {
  import opened Outcomes
  import opened ModelFiles

  /** test_config_loading: False without loading anything when the
      configuration file is absent; otherwise the outcome of loading it
      (`load`: OmegaConf.load returned), any exception being caught. */
  function TestConfigLoading(fs: set<string>, load: bool): (passed: bool)
    ensures ConfigPath !in fs ==> !passed
    ensures passed <==> ConfigPath in fs && load
  {
    if ConfigPath !in fs then false else load
  }

  /** test_model_files: False at the first missing file, True only when all
      seven exist. */
  method TestModelFiles(fs: set<string>) returns (passed: bool)
    ensures passed <==> AllPresent(ModelDir, RequiredFiles, fs)
    ensures !passed ==> FirstMissing(ModelDir, RequiredFiles, fs).Some?
  {
    var missing := FindFirstMissing(ModelDir, RequiredFiles, fs);
    passed := missing.None?;
  }

  /** How a guarded loading step ended: normally, by the 120-second alarm,
      or by another exception. */
  datatype StageOutcome = Completed | TimedOut | Failed

  /** The steps of test_step_by_step_loading, in order. */
  datatype Step = LoadConfig | DetectDevice | LoadGpt | LoadSemantic

  const Steps: seq<Step> := [LoadConfig, DetectDevice, LoadGpt, LoadSemantic]

  /** Whether the test passed and which steps it started. */
  datatype StepReport = StepReport(passed: bool, attempted: seq<Step>)

  /** test_step_by_step_loading. Step 1 loads the configuration without
      checking that it exists (a missing file makes the load raise); step 2
      cannot fail; steps 3 and 4 each run under a timeout and any failure,
      timeout included, returns False at once. */
  function StepByStepLoading(fs: set<string>, configLoad: bool, gpt: StageOutcome, semantic: StageOutcome): (r: StepReport)
    ensures r.passed <==> ConfigPath in fs && configLoad && gpt == Completed && semantic == Completed
    ensures 1 <= |r.attempted| <= |Steps| && r.attempted == Steps[..|r.attempted|]
    // a step is started only when every step before it succeeded
    ensures DetectDevice in r.attempted <==> ConfigPath in fs && configLoad
    ensures LoadGpt in r.attempted <==> ConfigPath in fs && configLoad
    ensures LoadSemantic in r.attempted <==> ConfigPath in fs && configLoad && gpt == Completed
    ensures r.passed ==> r.attempted == Steps
  {
    if !(ConfigPath in fs && configLoad) then StepReport(false, [LoadConfig])
    else if gpt != Completed then StepReport(false, [LoadConfig, DetectDevice, LoadGpt])
    else StepReport(semantic == Completed, Steps)
  }

  /** The names main gives its tests, in the order it runs them. */
  const TestNames: seq<string> := ["基本导入", "配置文件加载", "模型文件检查", "设备初始化", "分步骤加载"]

  /** How many tests main runs: all of them up to and including the first
      one that returns False or raises. */
  function Ran(outcomes: seq<CallOutcome>): (k: nat)
    ensures k <= |outcomes|
    ensures forall i :: 0 <= i < k - 1 ==> outcomes[i].Succeeded()
    ensures k < |outcomes| ==> 1 <= k && !outcomes[k - 1].Succeeded()
    ensures outcomes != [] ==> 1 <= k
    decreases |outcomes|
  {
    if outcomes == [] then 0
    else if !outcomes[0].Succeeded() then 1
    else
      var k := 1 + Ran(outcomes[1..]);
      assert forall i :: 1 <= i < |outcomes| ==> outcomes[i] == outcomes[1..][i - 1];
      k
  }

  /** The loop of main over (name, test) pairs: each test that runs is
      recorded, one that raised as False, and the loop breaks after the
      first that did not pass. The verdict is all(results.values()). */
  method RunTests(names: seq<string>, outcomes: seq<CallOutcome>) returns (allPassed: bool, results: map<string, bool>)
    requires |names| == |outcomes|
    requires forall i, j :: 0 <= i < j < |names| ==> names[i] != names[j]
    // results holds exactly the tests that ran
    ensures results.Keys == set i | 0 <= i < Ran(outcomes) :: names[i]
    ensures forall i :: 0 <= i < Ran(outcomes) ==> results[names[i]] == outcomes[i].Succeeded()
    // because of the break, the verdict is True only if every test ran and passed
    ensures allPassed <==> forall i :: 0 <= i < |outcomes| ==> outcomes[i].Succeeded()
  {
    results := map[];
    var i := 0;
    while i < |names|
      invariant 0 <= i <= |names|
      invariant forall j :: 0 <= j < i ==> outcomes[j].Succeeded()
      invariant results.Keys == set j | 0 <= j < i :: names[j]
      invariant forall j :: 0 <= j < i ==> results[names[j]]
    {
      var passed: bool;
      match outcomes[i] {
        case Raised =>
          passed := false;
        case Returned(value) =>
          passed := value;
      }
      assert (set j | 0 <= j < i + 1 :: names[j]) == (set j | 0 <= j < i :: names[j]) + {names[i]};
      results := results[names[i] := passed];
      if !passed {
        break;
      }
      i := i + 1;
    }
    allPassed := forall name | name in results :: results[name];
  }

  /** main, with every test reduced to its outcome: the import and device
      tests are outcomes; `configLoad` and `stepConfigLoad` say whether
      each of the two configuration loads returned; `gpt` and `semantic`
      how the guarded loading steps ended. */
  method RunDiagnostics(fs: set<string>, imports: CallOutcome, configLoad: bool, device: CallOutcome,
              stepConfigLoad: bool, gpt: StageOutcome, semantic: StageOutcome) returns (passed: bool, results: map<string, bool>)
    ensures passed <==>
      && imports.Succeeded()
      && ConfigPath in fs && configLoad
      && AllPresent(ModelDir, RequiredFiles, fs)
      && device.Succeeded()
      && StepByStepLoading(fs, stepConfigLoad, gpt, semantic).passed
    ensures results.Keys <= set i | 0 <= i < |TestNames| :: TestNames[i]
    ensures TestNames[0] in results
  {
    var filesPassed := TestModelFiles(fs);
    var outcomes := [
      imports,
      Returned(TestConfigLoading(fs, configLoad)),
      Returned(filesPassed),
      device,
      Returned(StepByStepLoading(fs, stepConfigLoad, gpt, semantic).passed)
    ];
    passed, results := RunTests(TestNames, outcomes);
    assert outcomes[1].Succeeded() <==> ConfigPath in fs && configLoad;
    assert outcomes[2].Succeeded() <==> AllPresent(ModelDir, RequiredFiles, fs);
    assert outcomes[4].Succeeded() <==> StepByStepLoading(fs, stepConfigLoad, gpt, semantic).passed;
    assert (forall i :: 0 <= i < |outcomes| ==> outcomes[i].Succeeded()) <==>
      && outcomes[0].Succeeded() && outcomes[1].Succeeded() && outcomes[2].Succeeded()
      && outcomes[3].Succeeded() && outcomes[4].Succeeded();
  }
}
