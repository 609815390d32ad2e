/** The model pre-downloader: a network pre-check, then the four download
    tasks run one after another, each whatever the earlier ones did, and the
    run succeeds only if every task succeeded. The downloads themselves are
    outcomes given as parameters. */
module PredownloadModels {
  import opened Outcomes
  import opened ModelFiles

  /** How download_bigvgan ends: `configLoad` says whether everything
      before the download returned (loading the configuration, reading the
      vocoder name from it and importing the BigVGAN module), and `fetch`
      whether BigVGAN.from_pretrained returned. */
  datatype BigVganRun = BigVganRun(passed: bool, downloadAttempted: bool)

  /** download_bigvgan: the vocoder name comes from the configuration file,
      so a missing file gives False without any download; every exception
      is caught and gives False. */
  function DownloadBigVgan(fs: set<string>, configLoad: bool, fetch: bool): (r: BigVganRun)
    ensures ConfigPath !in fs ==> !r.passed && !r.downloadAttempted
    ensures r.downloadAttempted <==> ConfigPath in fs && configLoad
    ensures r.passed <==> r.downloadAttempted && fetch
  {
    if ConfigPath !in fs then BigVganRun(false, false)
    else if !configLoad then BigVganRun(false, false)
    else BigVganRun(fetch, true)
  }

  /** The path download_bigvgan tests is the configuration file of the
      model directory. */
  lemma BigVganConfigIsModelConfig()
    ensures ConfigPath == "models/IndexTTS-2/config.yaml"
  {
  }

  /** The number of tasks that returned True. */
  function Successes(tasks: seq<CallOutcome>): (count: nat)
    ensures count <= |tasks|
    ensures tasks != [] && count == |tasks| ==> tasks[|tasks| - 1].Succeeded()
    decreases |tasks|
  {
    if tasks == [] then 0
    else Successes(tasks[..|tasks| - 1]) + (if tasks[|tasks| - 1].Succeeded() then 1 else 0)
  }

  /** The count never exceeds the number of tasks, and reaches it exactly
      when every task returned True. */
  lemma {:induction false} SuccessesBounds(tasks: seq<CallOutcome>)
    ensures Successes(tasks) <= |tasks|
    ensures Successes(tasks) == |tasks| <==> forall i :: 0 <= i < |tasks| ==> tasks[i].Succeeded()
    decreases |tasks|
  {
    if tasks != [] {
      var init := tasks[..|tasks| - 1];
      SuccessesBounds(init);
      assert forall i :: 0 <= i < |init| ==> init[i] == tasks[i];
    }
  }

  /** A task that fails does not stop the run: appending one task changes
      the count by one exactly when that task returned True. */
  lemma SuccessesAppend(tasks: seq<CallOutcome>, t: CallOutcome)
    ensures Successes(tasks + [t]) == Successes(tasks) + (if t.Succeeded() then 1 else 0)
  {
    assert (tasks + [t])[..|tasks|] == tasks;
  }

  /** What main reports: the network pre-check failed, or how many of how
      many tasks succeeded. */
  datatype DownloadReport = NetworkUnavailable | Finished(successCount: nat, totalCount: nat)

  /** main, over the outcomes of its four tasks (SeamlessM4T, the MaskGCT
      semantic codec, CAMPPlus, BigVGAN) in order. `networkReachable` says whether the GET of the Hugging Face
      front page returned (any status code counts: the response is not
      inspected). */
  method DownloadAll(networkReachable: bool, tasks: seq<CallOutcome>) returns (ok: bool, report: DownloadReport)
    ensures !networkReachable ==> !ok && report == NetworkUnavailable
    ensures networkReachable ==> report == Finished(Successes(tasks), |tasks|)
    ensures report.Finished? ==> 0 <= report.successCount <= report.totalCount
    ensures ok <==> networkReachable && forall i :: 0 <= i < |tasks| ==> tasks[i].Succeeded()
  {
    if !networkReachable {
      return false, NetworkUnavailable;
    }
    var successCount := 0;
    var totalCount := |tasks|;
    var i := 0;
    while i < |tasks|
      invariant 0 <= i <= |tasks|
      invariant successCount == Successes(tasks[..i])
    {
      assert tasks[..i + 1] == tasks[..i] + [tasks[i]];
      SuccessesAppend(tasks[..i], tasks[i]);
      match tasks[i] {
        case Returned(value) =>
          if value {
            successCount := successCount + 1;
          }
        case Raised =>
      }
      i := i + 1;
    }
    assert tasks[..i] == tasks;
    SuccessesBounds(tasks);
    report := Finished(successCount, totalCount);
    ok := successCount == totalCount;
  }
}
