# IndexTTS2 service layer: a Dafny model

This project models the orchestration code that wraps the IndexTTS2
speech engine. That code comes in five parts.

- **The HTTP service (`api_server.py`).**
  - A start-up gate loads the engine only when the seven model files exist.
  - The health report.
  - Three synthesis endpoints, each with its own order of checks, its temporary upload files and the error codes it answers with.
  - Parsing of the eight-value emotion vector.
- **The loading debugger (`debug_model_loading.py`).** It runs five diagnostic tests in order. It stops at the first one that fails or raises and records every test that ran.
- **The model pre-downloader (`predownload_models.py`).** It runs every download task, counts the successes and succeeds only if all of them did.
- **The quick environment check (`quick_check.py`).** It collects one issue per failed check, in check order, and chooses advice groups by key phrases in the issues.
- **The initialisation monitor (`monitor_init.py`).**
  - The flags of its resource monitor.
  - The monitor's sampling loop.
  - The initialisation test, which stops the monitor again on every way out.

## How the outside world is modelled

Everything outside this code is an input.

- **File system.** A set of path strings; a path exists exactly when it is in the set. `os.path.join` is modelled as on POSIX (`ModelFiles.Join`).
- **Engine.**
  - Constructing it is a `Construction` outcome: built or raised.
  - Running it is an `InferOutcome`: a result path or raised.
- **Other calls.** Shell commands, downloads, imports, pipeline stages and the torch probe are each an outcome datatype.
- **Randomness and the clock.** The uuid4 hex strings and the clock are parameters.
- **`float()`.** It is a function parameter `string -> Option<real>`: either a value, or a failure standing for `ValueError`.
- **Threads.** The monitor's background thread is not modelled as a thread. What the other thread does to the `monitoring` flag while the loop sleeps is part of each loop pass's input (`MonitorInit.Tick`).

## Modules

- `ModelFiles`, shared:
  - the model directory and the seven required files, in the order every script checks them;
  - the first-missing-file loop;
  - the ordered list of missing files.
- `EmoVector`: `str.split(",")`, `str.strip()`, conversion of every part, and the eight-value rule.
- `ApiServer`: pure functions for the decisions, and a `Server` class holding:
  - the global engine handle `tts_model`;
  - the file system;
  - the model directory;
  - the temporary directory.
- `DebugModelLoading`, `PredownloadModels`, `QuickCheck` and `MonitorInit`: one module per script.

## Where the design text and the code differ

The model follows the code.

- **The 400 errors never reach the client.** Every `HTTPException(400)` raised inside a handler's `try` is caught by the handler's own `except Exception` and re-raised as a 500. This covers:
  - a missing voice path;
  - a missing emotion path;
  - a malformed emotion vector.

  The design promises 400 for invalid input. In the model these cases are `Rewrapped(BadRequest(..))`, status 500.
- **Upload temp files are removed only after a successful `infer`.** Every failure path leaves them behind. The design promises cleanup on every exit path.
- **No admission gate or concurrency bound** exists around the engine.
- **`emo_alpha` is passed through unchanged.** It is neither clamped nor rejected.
- **Only the upload endpoint checks the emotion vector.** `/api/v1/tts` passes `emo_vector` to the engine whatever its length (api_server.py:69, :230). The upload endpoint refuses the field unless every stripped part converts with `float()` and there are exactly eight parts; a part that does not convert is reported first, whatever the count. Neither endpoint checks that the values are finite. The design asks for any vector whose length is not eight to be refused before the engine runs.
- **The download name is not collision-resistant.** It is `speech_<int(time.time())>.wav` (api_server.py:192), so two answers in the same second carry the same name. The design asks for a collision-resistant name.
- **Audio is always served as `audio/wav`.** The request's `response_format` is ignored.
- **The step-by-step loader has no rollback.** It returns False at the first failed step.

## Model

| member | source | states |
|---|---|---|
| ModelFiles.JoinInjective | api_server.py:269-270 | Within one directory, two relative file names that join to the same path are the same name |
| ModelFiles.JoinShape | api_server.py:110 | `os.path.join` (`Join`) keeps the name at the end of the path. A relative name is put under the directory, which is a prefix of the path |
| ModelFiles.FirstMissingIsFirst | debug_model_loading.py:115-124 | The search over the required files finds nothing exactly when every file exists. Otherwise it finds a file that is missing, and every file before it exists |
| ModelFiles.FindFirstMissing | api_server.py:109-112 | The loop over the files stops at the first path that does not exist. It returns None exactly when all exist |
| ModelFiles.FirstMissing | api_server.py:109-112 | The first-missing search gives an index inside the file list, and the file at that index is missing |
| ModelFiles.MissingInMembers | quick_check.py:85-93 | A name is in the missing list exactly when it is a required file whose path does not exist. The list is no longer than the file list |
| ModelFiles.MissingIn | quick_check.py:85-93 | The missing list never holds more names than the file list |
| ModelFiles.MissingInAgreesWithFirstMissing | quick_check.py:85-96 | The missing list is empty exactly when every file exists. Otherwise its first entry is the file at which the first-missing loop stops |
| EmoVector.Split | api_server.py:290 | `str.split` always yields at least one part |
| EmoVector.SplitShape | api_server.py:290 | Splitting yields one part more than there are commas, and no part contains a comma |
| EmoVector.JoinSplit | api_server.py:290 | Joining the parts with the separator gives back the original text |
| EmoVector.SplitJoin | api_server.py:290 | Splitting a join of separator-free parts gives back the parts |
| EmoVector.StripLeftMeaning | api_server.py:290 | `lstrip` (`StripLeft`) leaves a suffix that does not start with whitespace, and it drops only whitespace |
| EmoVector.StripRightMeaning | api_server.py:290 | `rstrip` (`StripRight`) leaves a prefix that does not end with whitespace, and it drops only whitespace |
| EmoVector.StripMeaning | api_server.py:290 | `strip` (`Strip`) keeps a contiguous middle slice that neither starts nor ends with whitespace, and only whitespace lies outside it |
| EmoVector.ConvertParts | api_server.py:290 | The conversion of the parts gives one value per part, or the index of a part inside the list |
| EmoVector.ConvertPartsMeaning | api_server.py:290 | The list comprehension either converts every stripped part in order, or fails at the first part `float()` rejects, all parts before it having converted |
| EmoVector.ParseEmoVector | api_server.py:287-294 | An absent or empty field gives no vector. Otherwise a vector is accepted exactly when there are seven commas and every stripped part converts; each value is `float()` of its part. A wrong count is reported as count ≠ 8. The parts are converted before they are counted: the first part `float()` rejects is reported, whatever the count |
| ApiServer.InitDecision | api_server.py:91-129 | The engine is initialised exactly when every required file exists and the constructor returns. A missing file is reported exactly when some file is missing, and it names the first missing path in list order |
| ApiServer.MissingFileNeverConstructs | api_server.py:109-122 | When a file is missing, the outcome does not depend on the constructor: it is never reached |
| ApiServer.Decimal | api_server.py:192 | `str(n)` is never empty and has no leading zero, except for 0 itself |
| ApiServer.DecimalRoundTrip | api_server.py:192 | `str(n)` is a non-empty string of digits that reads back as n |
| ApiServer.DownloadName | api_server.py:192 | The offered download name is `speech_`, then exactly the digits `str(now)` writes for the clock value (no leading zero; they read back as that value), then `.wav` |
| ApiServer.OutputName | api_server.py:175 | The output file name starts with `s` and carries the uuid hex between `speech_` and `.wav` |
| ApiServer.VoiceName | api_server.py:269 | The uploaded voice file name starts with `v` and carries the uuid hex between `voice_` and `.wav` |
| ApiServer.EmoName | api_server.py:279 | The uploaded emotion file name starts with `e` and carries the uuid hex between `emo_` and `.wav` |
| ApiServer.TempPathsDistinct | api_server.py:269-298 | The voice temp file, the emotion temp file and the output file of one request are three different paths, for any uuid hex strings |
| ApiServer.CleanUp | api_server.py:316-322 | Clean-up removes nothing but the two temp files. The voice file goes exactly when its removal works, and a failed voice removal leaves everything in place, the emotion file included. After the voice file, the emotion file goes exactly when its own removal works |
| ApiServer.Upload | api_server.py:249-333 | 503 exactly without an engine, nothing written; a malformed vector gives the rewrapped 400 (a 500) without an engine call; the engine gets the temp copies, the text, the parsed vector and every other form field unchanged; success is served as `audio/wav` under the clock-based name; on failure the temp files remain; on success the voice file is gone iff its removal worked, the emotion file iff both removals worked; the handler touches no other path (the engine's own output file is not modelled); an engine raise is answered with the rewrapped engine error |
| ApiServer.Server.constructor | api_server.py:39 | The service starts with no engine loaded |
| ApiServer.Server.InitializeModel | api_server.py:91-129 | Returns True exactly when all files exist and construction returns. On True the handle is the new engine; on False the handle is unchanged |
| ApiServer.Server.Startup | api_server.py:133-138 | Start-up makes one attempt. A failure leaves the handle as it was and the service up |
| ApiServer.Server.HealthCheck | api_server.py:151-158 | `model_loaded` is true exactly when an engine is loaded. The status is "healthy" exactly when it is loaded and "unhealthy" otherwise. The device is the CUDA device name or "cpu". The timestamp is the clock value |
| ApiServer.Server.CreateSpeechOpenAICompatible | api_server.py:161-197 | 503 exactly without an engine, before any check; a missing voice gives the rewrapped 400 (a 500); the engine runs iff there is one and the voice exists, with `verbose` = `speed != 1.0`; the result is served as `audio/wav` under the clock-based name; an engine raise is answered with the rewrapped engine error |
| ApiServer.Server.CreateSpeech | api_server.py:200-246 | 503 exactly without an engine; the voice path is checked before the emotion path, which is checked only when given and non-empty; both errors surface as 500; the engine runs iff both checks pass, with all emotion arguments unchanged; an engine raise is answered with the rewrapped engine error |
| ApiServer.Server.CreateSpeechWithUpload | api_server.py:249-333 | Its answer and the new file system are exactly those of `Upload`, given the handle and the file system before the request |
| ApiServer.Server.ReadinessAgreement | api_server.py:153-265 | Each of the three endpoints answers 503 exactly when the health report says the model is not loaded |
| DebugModelLoading.TestConfigLoading | debug_model_loading.py:84-103 | A missing configuration file gives False, whatever loading would do. Otherwise the result is True exactly when loading returns |
| DebugModelLoading.TestModelFiles | debug_model_loading.py:105-124 | True exactly when all seven files exist. False means a first missing file exists |
| DebugModelLoading.StepByStepLoading | debug_model_loading.py:153-243 | The steps started are a prefix of config, device, GPT, semantic; device detection and GPT are started iff the configuration loaded; the semantic step iff GPT also completed; passes iff every step completed |
| DebugModelLoading.Ran | debug_model_loading.py:264-283 | Counts the tests main runs, up to and including the first that does not pass. Every test before the last one run passed, and if the count stops short, the last one run did not pass |
| DebugModelLoading.RunTests | debug_model_loading.py:262-298 | The results map holds exactly the tests that ran, each recorded with whether it passed (a raise is recorded as False). The verdict `all(results.values())` is true exactly when every test ran and passed |
| DebugModelLoading.RunDiagnostics | debug_model_loading.py:245-298 | True exactly when all five tests pass: imports, config load, files, device and step-by-step loading. The results map only uses the five test names, and it always holds the first |
| PredownloadModels.DownloadBigVgan | predownload_models.py:81-109 | A missing configuration file gives False without a download attempt. A download is attempted exactly when the file exists and loads, and the result is True exactly when that download returns |
| PredownloadModels.BigVganConfigIsModelConfig | predownload_models.py:88 | The path the BigVGAN task tests is the model directory's `config.yaml` |
| PredownloadModels.Successes | predownload_models.py:162-173 | The success count never exceeds the number of tasks, and it reaches it only if the last task returned True |
| PredownloadModels.SuccessesBounds | predownload_models.py:162-193 | The success count is at most the number of tasks, and equals it exactly when every task returned True |
| PredownloadModels.SuccessesAppend | predownload_models.py:165-173 | Running one more task raises the count by one exactly when that task returned True. False or a raise adds nothing |
| PredownloadModels.DownloadAll | predownload_models.py:130-193 | A failed pre-check returns False before any task; otherwise every task runs and the count is the number that returned True, 0 ≤ count ≤ total; True iff the network answered and every task returned True |
| QuickCheck.CheckCommand | quick_check.py:17-32 | True exactly when the command exits with code 0. A timeout or another exception gives False |
| QuickCheck.TorchIssues | quick_check.py:47-66 | The PyTorch block adds at most one issue, and none exactly when CUDA is available with at least 8 GB. A failed torch import gives "PyTorch未安装", CUDA unavailable gives "CUDA不可用" without a memory test, and low memory gives the "GPU内存不足" issue with the memory text |
| QuickCheck.CollectHostIssues | quick_check.py:38-75 | Checks 1 to 3 append, in order, one issue per failed check |
| QuickCheck.CollectMissing | quick_check.py:85-93 | The loop collects exactly the missing required files, in list order |
| QuickCheck.CollectDependencyIssues | quick_check.py:108-114 | The loop appends one "缺少依赖: <module>" per module that cannot be imported, in order |
| QuickCheck.RunChecks | quick_check.py:34-157 | The issues are, in order, the GPU driver, PyTorch, network, missing-files and dependency issues of the failed checks; the summary is that of exactly this list |
| QuickCheck.Summarize | quick_check.py:131-157 | The pass message appears exactly when there is no issue; at most four advice groups |
| QuickCheck.SummarizeSuggestions | quick_check.py:143-157 | With issues present, each advice group is printed exactly when some issue contains its key phrase |
| QuickCheck.ContainsText | quick_check.py:143-155 | A key phrase found in a text is no longer than the text |
| QuickCheck.JoinNamesMentions | quick_check.py:96 | `", ".join(names)` contains every name |
| QuickCheck.JoinNames | quick_check.py:96 | `", ".join(names)` starts with the first name |
| QuickCheck.MissingFilesIssueNamesEach | quick_check.py:85-96 | The missing-files issue is absent exactly when all files exist. It names every missing file, and lists exactly the missing files |
| QuickCheck.DependencyIssuesExact | quick_check.py:108-114 | "缺少依赖: m" is among the issues exactly when m is a checked module that cannot be imported. There are no more issues than modules |
| QuickCheck.DependencyIssuesMembers | quick_check.py:108-114 | Every dependency issue names a checked module that cannot be imported |
| QuickCheck.DependencyIssues | quick_check.py:108-114 | There is at most one dependency issue per checked module |
| QuickCheck.DependencyIssuesEmpty | quick_check.py:108-114 | There is no dependency issue exactly when every checked module can be imported |
| QuickCheck.DependencyIssueReported | quick_check.py:108-114 | A checked module that cannot be imported is reported as "缺少依赖: <module>" |
| QuickCheck.DependencyMentioned | quick_check.py:108-114 | A checked module that cannot be imported makes the dependency issues mention the missing-dependency key |
| QuickCheck.IssuesEmptyIffHealthy | quick_check.py:38-133 | The issue list (`Issues`, with the host checks of `HostIssues` first) is empty exactly when every check passes: `nvidia-smi`; CUDA with at least 8 GB; `ping`; `curl`; all files present; all modules importable |
| QuickCheck.LowMemorySuggestsCpu | quick_check.py:57-145 | GPU memory below 8 GB always brings the CPU-or-upgrade advice |
| QuickCheck.NetworkFailureSuggestsProxy | quick_check.py:70-149 | A failed ping or an unreachable hub always brings the proxy advice |
| QuickCheck.MissingFileSuggestsRedownload | quick_check.py:95-153 | A missing model file always brings the re-download advice |
| QuickCheck.MissingDependencySuggestsInstall | quick_check.py:108-157 | A module that cannot be imported always brings the install advice |
| MonitorInit.RunLoop | monitor_init.py:56-78 | A flag that is already cleared stops the loop before any pass. The loop never makes more passes than it is given |
| MonitorInit.RunLoopMeaning | monitor_init.py:56-78 | Every pass but the last sampled and was not stopped. A raising sample ends the loop after that pass with the flag still set. A cleared flag ends it before any pass only if the flag was clear from the start, and otherwise right after a pass that sampled and was stopped. When the passes run out, the flag is set and every pass was clean |
| MonitorInit.RunLoopAfterCleanPrefix | monitor_init.py:58-78 | Passes that sampled successfully and were not stopped only add to the count. The loop continues unchanged after them |
| MonitorInit.SystemMonitor.constructor | monitor_init.py:37-39 | A new monitor is not monitoring and has no thread |
| MonitorInit.SystemMonitor.StartMonitoring | monitor_init.py:41-47 | Sets the flag and records the new thread |
| MonitorInit.SystemMonitor.StopMonitoring | monitor_init.py:49-54 | Clears the flag and joins the thread only if there is one (none after no start). The handle is kept |
| MonitorInit.SystemMonitor.MonitorLoop | monitor_init.py:56-78 | The loop's pass count, its way out and the final flag are exactly those `RunLoop` describes |
| MonitorInit.TestModelInitialization | monitor_init.py:107-166 | A missing file returns False with no monitor; otherwise a fresh monitor is started and then stopped, its thread joined, whichever way construction ends; True iff construction returns; a BaseException propagates |

## Left out

- `network_debug.py` and `test_imports.py` are not part of this model. They only probe the network and import modules, and they make no decisions of their own.
- Torch and GPU queries, the GB conversions and their formatting are not modelled. The 8 GB comparison in the quick check is an input: the flag `belowEightGb` together with the text the issue prints. These are floating-point values from a foreign library.
- `float()` is a parameter that may fail. The vector values, `speed` and `emo_alpha` are reals, not IEEE doubles: a JSON `NaN` for `speed`, which makes `speed != 1.0` true and so turns `verbose` on, cannot be expressed.
- The signal-based `timeout` context manager is left out. A timed-out loading step is just another failure outcome.
- MonitorInit.RunLoop: a stop that lands during a pass whose sample then raises is not modelled; such a pass counts as raising with the flag still set. In the code the flag would already be clear by then, though the loop breaks either way.
- The monitor's real thread, `psutil` sampling and `sleep` are left out, because they are concurrency and foreign calls. The other thread's effect on the flag is an input of each loop pass, and the loop is run over a finite list of passes. The concurrent sampling loop is not run inside `test_model_initialization`.
- `hook_model_methods` is left out. It only wraps the constructor with logging and re-raises, which changes no outcome.
- FastAPI, CORS, uvicorn and argparse are left out. So are the static `/` and `/api/v1/models` and `/api/v1/voices` listings, and all log text.
- ApiServer.Upload: the engine's own write of its output file (`speech_<hex>.wav` in the temporary directory) is not part of the file-system model, and nothing in the service removes that file. The frame therefore speaks only of what the handler itself writes and removes.
- Reading and writing the uploaded bytes is left out: the uploaded temp files are created as paths. A failure while writing them is not modelled either; it would be one more rewrapped 500.
- `check_downloads`, the `HF_ENDPOINT` check and the environment-variable checks of the quick check are left out. They only log.
- DebugModelLoading.RunDiagnostics: the five test functions are evaluated as outcomes handed to the runner, rather than called lazily. Tests after a failure are therefore still given as inputs; they are never recorded.
- DebugModelLoading.StepByStepLoading: the device-detection step cannot fail and is always counted as started after the configuration loads.
- QuickCheck.TorchIssues: only `ImportError` from the torch import is modelled. Another exception from the CUDA queries, which would end the script, is left out. Likewise, an import of a dependency that raises something other than `ImportError` is left out.
- QuickCheck.Mentions: the code tests `key in str(issues)`. The model tests whether some issue contains the key. The keys hold no quote, comma, bracket or backslash, so a match in the printed list lies inside one issue.
- PredownloadModels.DownloadAll: any response to the network pre-check counts as reachable, whatever its status, as in the code. An exception from `check_downloads` is not modelled.
