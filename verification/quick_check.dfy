/** The quick environment check: five groups of checks run in a fixed
    order, each failed check appends one entry to an ordered list of issues,
    and suggestion groups are then chosen by looking for key phrases in the
    issues. Shell commands, the torch probe, the file system and module
    imports are inputs. */
module QuickCheck {
  import opened Outcomes
  import opened ModelFiles

  /** How subprocess.run of a shell command ended: with an exit code, by the
      10-second timeout, or by another exception. */
  datatype CommandResult = Exited(code: int) | TimedOut | Failed

  /** check_command: True exactly when the command exited with code 0. */
  function CheckCommand(run: CommandResult): (ok: bool)
    ensures ok <==> run.Exited? && run.code == 0
    ensures run.TimedOut? || run.Failed? ==> !ok
  {
    match run
    case Exited(code) => code == 0
    case TimedOut => false
    case Failed => false
  }

  /** What the PyTorch block observes: torch cannot be imported, CUDA is
      unavailable, or CUDA is available with a total memory, given as the
      text the issue prints ("{:.1f}") and whether it is below 8 GB. */
  datatype TorchProbe = TorchMissing | CudaUnavailable | CudaAvailable(memoryText: string, belowEightGb: bool)

  const GpuDriverIssue: string := "GPU驱动问题"
  const CudaUnavailableIssue: string := "CUDA不可用"
  const TorchMissingIssue: string := "PyTorch未安装"
  const NetworkIssue: string := "网络连接问题"
  const HubIssue: string := "HuggingFace无法访问"
  const LowMemoryKey: string := "GPU内存不足"
  const MissingFilesKey: string := "缺少模型文件"
  const MissingDependencyKey: string := "缺少依赖"

  /** The modules whose import is checked, in order. */
  const Dependencies: seq<string> := ["transformers", "omegaconf", "torchaudio", "fastapi", "psutil"]

  function LowMemoryIssue(memoryText: string): string {
    LowMemoryKey + " (" + memoryText + " GB < 8 GB)"
  }

  /** ", ".join(names). */
  function JoinNames(names: seq<string>): (joined: string)
    ensures names != [] ==> StartsWith(joined, names[0])
    decreases |names|
  {
    if names == [] then ""
    else if |names| == 1 then names[0]
    else names[0] + ", " + JoinNames(names[1..])
  }

  function MissingFilesIssue(missing: seq<string>): string {
    MissingFilesKey + ": " + JoinNames(missing)
  }

  function MissingDependencyIssue(name: string): string {
    MissingDependencyKey + ": " + name
  }

  /** The issues of the PyTorch block: at most one. When CUDA is unavailable
      the memory threshold is never looked at. */
  function TorchIssues(probe: TorchProbe): (t: seq<string>)
    ensures |t| <= 1
    ensures t == [] <==> probe.CudaAvailable? && !probe.belowEightGb
    ensures probe.CudaUnavailable? ==> t == [CudaUnavailableIssue]
    ensures probe.TorchMissing? ==> t == [TorchMissingIssue]
    ensures probe.CudaAvailable? && probe.belowEightGb ==> t == [LowMemoryIssue(probe.memoryText)]
  {
    match probe
    case TorchMissing => [TorchMissingIssue]
    case CudaUnavailable => [CudaUnavailableIssue]
    case CudaAvailable(memoryText, belowEightGb) =>
      if belowEightGb then [LowMemoryIssue(memoryText)] else []
  }

  /** One issue naming the missing files, if there are any. */
  function FilesIssues(missing: seq<string>): seq<string> {
    if missing == [] then [] else [MissingFilesIssue(missing)]
  }

  /** One issue per module of `deps` that cannot be imported, in order. */
  function DependencyIssues(importable: set<string>, deps: seq<string>): (issues: seq<string>)
    ensures |issues| <= |deps|
    decreases |deps|
  {
    if deps == [] then []
    else
      var last := deps[|deps| - 1];
      DependencyIssues(importable, deps[..|deps| - 1]) + (if last in importable then [] else [MissingDependencyIssue(last)])
  }

  /** The issues of the first three check groups: the GPU driver, the
      PyTorch block and the two network commands, in that order. */
  function HostIssues(nvidiaSmi: CommandResult, torch: TorchProbe, ping: CommandResult, curl: CommandResult): seq<string>
  {
    (if CheckCommand(nvidiaSmi) then [] else [GpuDriverIssue])
    + TorchIssues(torch)
    + (if CheckCommand(ping) then [] else [NetworkIssue])
    + (if CheckCommand(curl) then [] else [HubIssue])
  }

  /** The issue list main builds, check by check in the order it runs them. */
  function Issues(nvidiaSmi: CommandResult, torch: TorchProbe, ping: CommandResult, curl: CommandResult,
                  fs: set<string>, importable: set<string>): seq<string>
  {
    HostIssues(nvidiaSmi, torch, ping, curl)
    + FilesIssues(MissingIn(ModelDir, RequiredFiles, fs))
    + DependencyIssues(importable, Dependencies)
  }

  /** `s` begins with `key`. */
  predicate StartsWith(s: string, key: string) {
    |key| <= |s| && s[..|key|] == key
  }

  /** `key` occurs in `s` as a contiguous substring. */
  predicate ContainsText(s: string, key: string)
    ensures ContainsText(s, key) ==> |key| <= |s|
    decreases |s|
  {
    StartsWith(s, key) || (s != [] && ContainsText(s[1..], key))
  }

  /** Some issue contains `key`. The code tests `key in str(issues)`; the
      keys contain no quote, comma, bracket or backslash, so an occurrence
      in the printed list lies inside one issue, and this is the same test. */
  predicate Mentions(issues: seq<string>, key: string) {
    exists i :: 0 <= i < |issues| && ContainsText(issues[i], key)
  }

  /** The groups of advice printed after the issues. */
  datatype Suggestion = UseCpuOrUpgradeGpu | UseProxyOrOffline | Redownload | InstallDependencies

  /** Either the pass message, or the suggestion groups, in printing order. */
  datatype Summary = Passed | Problems(suggestions: seq<Suggestion>)

  /** The summary at the end of main: the pass message only when there is
      no issue; otherwise every group whose key phrase some issue contains. */
  function Summarize(issues: seq<string>): (s: Summary)
    ensures s.Passed? <==> issues == []
    ensures s.Problems? ==> |s.suggestions| <= 4
  {
    if issues == [] then Passed
    else Problems(
      (if Mentions(issues, LowMemoryKey) then [UseCpuOrUpgradeGpu] else [])
      + (if Mentions(issues, NetworkIssue) || Mentions(issues, HubIssue) then [UseProxyOrOffline] else [])
      + (if Mentions(issues, MissingFilesKey) then [Redownload] else [])
      + (if Mentions(issues, MissingDependencyKey) then [InstallDependencies] else []))
  }

  /** The loop over the required files: the files whose path does not
      exist, in list order. */
  method CollectMissing(dir: string, files: seq<string>, fs: set<string>) returns (missing: seq<string>)
    ensures missing == MissingIn(dir, files, fs)
  {
    missing := [];
    var i := 0;
    while i < |files|
      invariant 0 <= i <= |files|
      invariant missing == MissingIn(dir, files[..i], fs)
    {
      assert files[..i + 1][..i] == files[..i];
      if Join(dir, files[i]) !in fs {
        missing := missing + [files[i]];
      }
      i := i + 1;
    }
    assert files[..i] == files;
  }

  /** The loop over the dependencies: one issue per module that cannot be
      imported, in order. */
  method CollectDependencyIssues(importable: set<string>, deps: seq<string>) returns (issues: seq<string>)
    ensures issues == DependencyIssues(importable, deps)
  {
    issues := [];
    var j := 0;
    while j < |deps|
      invariant 0 <= j <= |deps|
      invariant issues == DependencyIssues(importable, deps[..j])
    {
      assert deps[..j + 1][..j] == deps[..j];
      if deps[j] !in importable {
        issues := issues + [MissingDependencyIssue(deps[j])];
      }
      j := j + 1;
    }
    assert deps[..j] == deps;
  }

  /** With issues present, each group is printed exactly when some issue
      contains its key phrase. */
  lemma SummarizeSuggestions(issues: seq<string>)
    requires issues != []
    ensures var s := Summarize(issues);
      && (UseCpuOrUpgradeGpu in s.suggestions <==> Mentions(issues, LowMemoryKey))
      && (UseProxyOrOffline in s.suggestions <==> Mentions(issues, NetworkIssue) || Mentions(issues, HubIssue))
      && (Redownload in s.suggestions <==> Mentions(issues, MissingFilesKey))
      && (InstallDependencies in s.suggestions <==> Mentions(issues, MissingDependencyKey))
  {
  }

  /** Check groups 1 to 3 of main: each failed check appends one issue. */
  method CollectHostIssues(nvidiaSmi: CommandResult, torch: TorchProbe, ping: CommandResult, curl: CommandResult)
    returns (issues: seq<string>)
    ensures issues == HostIssues(nvidiaSmi, torch, ping, curl)
  {
    issues := [];
    if !CheckCommand(nvidiaSmi) {
      issues := issues + [GpuDriverIssue];
    }
    ghost var driver := issues;
    match torch {
      case TorchMissing =>
        issues := issues + [TorchMissingIssue];
      case CudaUnavailable =>
        issues := issues + [CudaUnavailableIssue];
      case CudaAvailable(memoryText, belowEightGb) =>
        if belowEightGb {
          issues := issues + [LowMemoryIssue(memoryText)];
        }
    }
    assert issues == driver + TorchIssues(torch);
    ghost var probed := issues;
    if !CheckCommand(ping) {
      issues := issues + [NetworkIssue];
    }
    assert issues == probed + (if CheckCommand(ping) then [] else [NetworkIssue]);
    ghost var pinged := issues;
    if !CheckCommand(curl) {
      issues := issues + [HubIssue];
    }
    assert issues == pinged + (if CheckCommand(curl) then [] else [HubIssue]);
  }

  /** main, which collects the issues and then summarises them. */
  method RunChecks(nvidiaSmi: CommandResult, torch: TorchProbe, ping: CommandResult, curl: CommandResult,
              fs: set<string>, importable: set<string>) returns (issues: seq<string>, summary: Summary)
    ensures issues == Issues(nvidiaSmi, torch, ping, curl, fs, importable)
    ensures summary == Summarize(issues)
  {
    issues := CollectHostIssues(nvidiaSmi, torch, ping, curl);
    ghost var host := issues;
    var missingFiles := CollectMissing(ModelDir, RequiredFiles, fs);
    if missingFiles != [] {
      issues := issues + [MissingFilesIssue(missingFiles)];
    }
    assert issues == host + FilesIssues(missingFiles);
    var dependencyIssues := CollectDependencyIssues(importable, Dependencies);
    issues := issues + dependencyIssues;
    summary := Summarize(issues);
  }

  /** A text contains every prefix it starts with. */
  lemma StartsWithKey(key: string, rest: string)
    ensures ContainsText(key + rest, key)
  {
    assert (key + rest)[..|key|] == key;
  }

  /** Text before an occurrence does not hide it. */
  lemma {:induction false} ContainsAfter(a: string, b: string, key: string)
    requires ContainsText(b, key)
    ensures ContainsText(a + b, key)
    decreases |a|
  {
    if a == [] {
      assert a + b == b;
    } else {
      ContainsAfter(a[1..], b, key);
      assert (a + b)[1..] == a[1..] + b;
    }
  }

  /** The joined list of names contains each name. */
  lemma {:induction false} JoinNamesMentions(names: seq<string>, m: string)
    requires m in names
    ensures ContainsText(JoinNames(names), m)
    decreases |names|
  {
    if names[0] == m {
      StartsWithKey(m, JoinNames(names)[|m|..]);
      assert JoinNames(names) == m + JoinNames(names)[|m|..];
    } else {
      JoinNamesMentions(names[1..], m);
      ContainsAfter(names[0] + ", ", JoinNames(names[1..]), m);
    }
  }

  /** The missing-files issue appears exactly when some required file is
      missing, and it names every missing file, and only missing files are
      listed in it. */
  lemma MissingFilesIssueNamesEach(fs: set<string>)
    ensures FilesIssues(MissingIn(ModelDir, RequiredFiles, fs)) == [] <==> AllPresent(ModelDir, RequiredFiles, fs)
    ensures forall f :: f in RequiredFiles && Join(ModelDir, f) !in fs ==>
      ContainsText(MissingFilesIssue(MissingIn(ModelDir, RequiredFiles, fs)), f)
    ensures forall f :: f in MissingIn(ModelDir, RequiredFiles, fs) <==> f in RequiredFiles && Join(ModelDir, f) !in fs
  {
    var missing := MissingIn(ModelDir, RequiredFiles, fs);
    MissingInMembers(ModelDir, RequiredFiles, fs);
    MissingInAgreesWithFirstMissing(ModelDir, RequiredFiles, fs);
    forall f | f in RequiredFiles && Join(ModelDir, f) !in fs
      ensures ContainsText(MissingFilesIssue(missing), f)
    {
      JoinNamesMentions(missing, f);
      ContainsAfter(MissingFilesKey + ": ", JoinNames(missing), f);
    }
  }

  lemma MissingDependencyIssueInjective(a: string, b: string)
    requires MissingDependencyIssue(a) == MissingDependencyIssue(b)
    ensures a == b
  {
    var prefix := MissingDependencyKey + ": ";
    assert a == MissingDependencyIssue(a)[|prefix|..];
    assert b == MissingDependencyIssue(b)[|prefix|..];
  }

  /** "缺少依赖: m" is among the dependency issues exactly when m is one of
      the checked modules and cannot be imported. */
  lemma {:induction false} DependencyIssuesExact(importable: set<string>, deps: seq<string>)
    ensures |DependencyIssues(importable, deps)| <= |deps|
    ensures forall m :: MissingDependencyIssue(m) in DependencyIssues(importable, deps) <==> m in deps && m !in importable
    decreases |deps|
  {
    if deps != [] {
      var init := deps[..|deps| - 1];
      var last := deps[|deps| - 1];
      DependencyIssuesExact(importable, init);
      assert deps == init + [last];
      forall m | MissingDependencyIssue(m) == MissingDependencyIssue(last) ensures m == last {
        MissingDependencyIssueInjective(m, last);
      }
    }
  }

  /** A checked module that cannot be imported is reported. */
  lemma {:induction false} DependencyIssueReported(importable: set<string>, deps: seq<string>, m: string)
    requires m in deps && m !in importable
    ensures MissingDependencyIssue(m) in DependencyIssues(importable, deps)
    decreases |deps|
  {
    var init := deps[..|deps| - 1];
    if m != deps[|deps| - 1] {
      assert deps == init + [deps[|deps| - 1]];
      DependencyIssueReported(importable, init, m);
    }
  }

  /** The issue list is empty exactly when every check passes. */
  lemma IssuesEmptyIffHealthy(nvidiaSmi: CommandResult, torch: TorchProbe, ping: CommandResult, curl: CommandResult,
                              fs: set<string>, importable: set<string>)
    ensures Issues(nvidiaSmi, torch, ping, curl, fs, importable) == [] <==>
      && CheckCommand(nvidiaSmi)
      && torch.CudaAvailable? && !torch.belowEightGb
      && CheckCommand(ping) && CheckCommand(curl)
      && AllPresent(ModelDir, RequiredFiles, fs)
      && (forall m :: m in Dependencies ==> m in importable)
  {
    MissingInAgreesWithFirstMissing(ModelDir, RequiredFiles, fs);
    DependencyIssuesEmpty(importable, Dependencies);
  }

  /** No dependency issue exactly when every checked module can be imported. */
  lemma {:induction false} DependencyIssuesEmpty(importable: set<string>, deps: seq<string>)
    ensures DependencyIssues(importable, deps) == [] <==> forall m :: m in deps ==> m in importable
    decreases |deps|
  {
    if deps != [] {
      var init := deps[..|deps| - 1];
      DependencyIssuesEmpty(importable, init);
      assert deps == init + [deps[|deps| - 1]];
    }
  }

  /** Every dependency issue names a checked module that cannot be imported. */
  lemma {:induction false} DependencyIssuesMembers(importable: set<string>, deps: seq<string>, x: string)
    requires x in DependencyIssues(importable, deps)
    ensures exists m :: m in deps && m !in importable && x == MissingDependencyIssue(m)
    decreases |deps|
  {
    var init := deps[..|deps| - 1];
    var last := deps[|deps| - 1];
    if x in DependencyIssues(importable, init) {
      DependencyIssuesMembers(importable, init, x);
      var m :| m in init && m !in importable && x == MissingDependencyIssue(m);
      assert m in deps;
    } else {
      assert last in deps;
    }
  }

  /** An issue that starts with a key phrase makes the list mention it. */
  lemma MentionedBy(issues: seq<string>, key: string, rest: string)
    requires key + rest in issues
    ensures Mentions(issues, key)
  {
    var i :| 0 <= i < |issues| && issues[i] == key + rest;
    StartsWithKey(key, rest);
  }

  /** Issues listed before others do not hide a mention among them. */
  lemma MentionsInSuffix(a: seq<string>, b: seq<string>, key: string)
    requires Mentions(b, key)
    ensures Mentions(a + b, key)
  {
    var i :| 0 <= i < |b| && ContainsText(b[i], key);
    assert (a + b)[|a| + i] == b[i];
  }

  /** A checked module that cannot be imported makes the dependency issues
      mention the missing-dependency key. */
  lemma DependencyMentioned(importable: set<string>, deps: seq<string>, m: string)
    requires m in deps && m !in importable
    ensures Mentions(DependencyIssues(importable, deps), MissingDependencyKey)
  {
    DependencyIssueReported(importable, deps, m);
    var rest := ": " + m;
    assert MissingDependencyIssue(m) == MissingDependencyKey + rest;
    MentionedBy(DependencyIssues(importable, deps), MissingDependencyKey, rest);
  }

  /** GPU memory below 8 GB brings the advice to use the CPU or a larger GPU. */
  lemma LowMemorySuggestsCpu(nvidiaSmi: CommandResult, torch: TorchProbe, ping: CommandResult, curl: CommandResult,
                             fs: set<string>, importable: set<string>)
    requires torch.CudaAvailable? && torch.belowEightGb
    ensures Summarize(Issues(nvidiaSmi, torch, ping, curl, fs, importable)).Problems?
    ensures UseCpuOrUpgradeGpu in Summarize(Issues(nvidiaSmi, torch, ping, curl, fs, importable)).suggestions
  {
    var issues := Issues(nvidiaSmi, torch, ping, curl, fs, importable);
    var rest := " (" + torch.memoryText + " GB < 8 GB)";
    assert LowMemoryIssue(torch.memoryText) == LowMemoryKey + rest;
    assert LowMemoryIssue(torch.memoryText) in HostIssues(nvidiaSmi, torch, ping, curl);
    MentionedBy(issues, LowMemoryKey, rest);
    SummarizeSuggestions(issues);
  }

  /** A failed ping or an unreachable hub brings the proxy advice. */
  lemma NetworkFailureSuggestsProxy(nvidiaSmi: CommandResult, torch: TorchProbe, ping: CommandResult, curl: CommandResult,
                                    fs: set<string>, importable: set<string>)
    requires !CheckCommand(ping) || !CheckCommand(curl)
    ensures Summarize(Issues(nvidiaSmi, torch, ping, curl, fs, importable)).Problems?
    ensures UseProxyOrOffline in Summarize(Issues(nvidiaSmi, torch, ping, curl, fs, importable)).suggestions
  {
    var issues := Issues(nvidiaSmi, torch, ping, curl, fs, importable);
    var key := if !CheckCommand(ping) then NetworkIssue else HubIssue;
    assert key + "" == key;
    assert key in HostIssues(nvidiaSmi, torch, ping, curl);
    MentionedBy(issues, key, "");
    SummarizeSuggestions(issues);
  }

  /** A missing model file brings the advice to download the model again. */
  lemma MissingFileSuggestsRedownload(nvidiaSmi: CommandResult, torch: TorchProbe, ping: CommandResult, curl: CommandResult,
                                      fs: set<string>, importable: set<string>)
    requires !AllPresent(ModelDir, RequiredFiles, fs)
    ensures Summarize(Issues(nvidiaSmi, torch, ping, curl, fs, importable)).Problems?
    ensures Redownload in Summarize(Issues(nvidiaSmi, torch, ping, curl, fs, importable)).suggestions
  {
    var issues := Issues(nvidiaSmi, torch, ping, curl, fs, importable);
    var missing := MissingIn(ModelDir, RequiredFiles, fs);
    MissingInAgreesWithFirstMissing(ModelDir, RequiredFiles, fs);
    var rest := ": " + JoinNames(missing);
    assert MissingFilesIssue(missing) == MissingFilesKey + rest;
    assert MissingFilesIssue(missing) in FilesIssues(missing);
    MentionedBy(issues, MissingFilesKey, rest);
    SummarizeSuggestions(issues);
  }

  /** A module that cannot be imported brings the advice to install it. */
  lemma MissingDependencySuggestsInstall(nvidiaSmi: CommandResult, torch: TorchProbe, ping: CommandResult, curl: CommandResult,
                                         fs: set<string>, importable: set<string>, m: string)
    requires m in Dependencies && m !in importable
    ensures Summarize(Issues(nvidiaSmi, torch, ping, curl, fs, importable)).Problems?
    ensures InstallDependencies in Summarize(Issues(nvidiaSmi, torch, ping, curl, fs, importable)).suggestions
  {
    var issues := Issues(nvidiaSmi, torch, ping, curl, fs, importable);
    var before := HostIssues(nvidiaSmi, torch, ping, curl) + FilesIssues(MissingIn(ModelDir, RequiredFiles, fs));
    DependencyMentioned(importable, Dependencies, m);
    MentionsInSuffix(before, DependencyIssues(importable, Dependencies), MissingDependencyKey);
    SummarizeSuggestions(issues);
  }
}
