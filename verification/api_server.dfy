/** The HTTP service around the speech engine: the start-up gate that
    loads the engine only when the seven model files exist, the health
    report, and the three synthesis endpoints with their order of checks,
    their temporary files and the errors they answer with.

    The engine (IndexTTS2) is opaque. Constructing it is a `Construction`
    outcome and running it is an `InferOutcome`; the random uuid4 hex
    strings, the clock and os.remove are parameters as well. The file
    system is the set of paths that exist. */
module ApiServer {
  import opened Outcomes
  import opened ModelFiles
  import opened EmoVector

  /** A constructed engine instance. */
  datatype Engine = Engine(id: nat)

  /** What calling the engine constructor did. */
  datatype Construction = Built(engine: Engine) | ConstructorRaised

  /** What engine.infer(...) did: returned the path of the audio it wrote,
      or raised. */
  datatype InferOutcome = Produced(resultPath: string) | InferRaised

  const StatusServerError: int := 500
  const StatusUnavailable: int := 503

  /** Every produced file is served with this media type, whatever the
      request's response_format says. */
  const MediaType: string := "audio/wav"

  // ---------------------------------------------------------------------
  // Start-up gate

  /** How far initialize_model got. */
  datatype InitResult = MissingFile(path: string) | ConstructionFailed | Initialized(engine: Engine)

  /** initialize_model: the required files are checked in list order and
      the first missing one raises FileNotFoundError before the engine is
      constructed; otherwise the constructor runs and either raises or
      yields the engine. */
  function InitDecision(dir: string, fs: set<string>, ctor: Construction): (r: InitResult)
    ensures r.Initialized? <==> AllPresent(dir, RequiredFiles, fs) && ctor.Built?
    ensures r.Initialized? ==> r.engine == ctor.engine
    ensures r.MissingFile? <==> !AllPresent(dir, RequiredFiles, fs)
    ensures r.MissingFile? ==>
      exists k ::
        && 0 <= k < |RequiredFiles| && r.path == Join(dir, RequiredFiles[k]) && r.path !in fs
        && forall i :: 0 <= i < k ==> Join(dir, RequiredFiles[i]) in fs
  {
    FirstMissingIsFirst(dir, RequiredFiles, fs);
    match FirstMissing(dir, RequiredFiles, fs)
    case Some(k) => MissingFile(Join(dir, RequiredFiles[k]))
    case None =>
      match ctor
      case Built(e) => Initialized(e)
      case ConstructorRaised => ConstructionFailed
  }

  /** A missing file decides the outcome whatever the constructor would
      have done: the constructor is never reached. */
  lemma MissingFileNeverConstructs(dir: string, fs: set<string>, c1: Construction, c2: Construction)
    requires !AllPresent(dir, RequiredFiles, fs)
    ensures InitDecision(dir, fs, c1) == InitDecision(dir, fs, c2)
    ensures InitDecision(dir, fs, c1).MissingFile?
  {
  }

  // ---------------------------------------------------------------------
  // Responses and engine calls

  /** A request field that failed validation inside the handler. */
  datatype BadInput = VoiceMissing(path: string) | EmoAudioMissing(path: string) | EmoVectorMalformed(error: VectorError)

  /** What the handler's outer `except Exception` caught: an
      HTTPException(400) raised by the handler itself, or the engine's
      exception. */
  datatype Raised = BadRequest(input: BadInput) | EngineRaised

  datatype Cause = ModelNotLoaded | SynthesisFailed(raised: Raised)

  datatype Response =
    | Audio(path: string, mediaType: string, filename: string)
    | HttpError(status: int, cause: Cause)

  /** The outer handler: whatever was raised inside `try`, including an
      HTTPException(400), is re-raised as a 500. */
  function Rewrapped(e: Raised): Response {
    HttpError(StatusServerError, SynthesisFailed(e))
  }

  /** The keyword arguments about emotion that the full endpoints pass on. */
  datatype EmotionArgs = EmotionArgs(
    audioPrompt: Option<string>, alpha: real, vector: Option<seq<real>>,
    useEmoText: bool, emoText: Option<string>, useRandom: bool)

  /** One call of engine.infer; `emotion` is None where the endpoint leaves
      the emotion arguments to the engine's defaults. */
  datatype InferCall = InferCall(
    speakerPrompt: string, text: string, outputPath: string,
    emotion: Option<EmotionArgs>, verbose: bool)

  /** The answer of an endpoint and the engine call it made, if any. */
  datatype Handled = Handled(response: Response, call: Option<InferCall>)

  // ---------------------------------------------------------------------
  // File names

  /** The file the engine is asked to write: speech_<hex>.wav. */
  function OutputName(hex: string): (name: string)
    ensures |name| == |hex| + 11 && name[0] == 's' && name[7..|name| - 4] == hex
    ensures name[..7] == "speech_" && name[|name| - 4..] == ".wav"
  {
    "speech_" + hex + ".wav"
  }

  /** The uploaded voice reference: voice_<hex>.wav. */
  function VoiceName(hex: string): (name: string)
    ensures |name| == |hex| + 10 && name[0] == 'v' && name[6..|name| - 4] == hex
    ensures name[..6] == "voice_" && name[|name| - 4..] == ".wav"
  {
    "voice_" + hex + ".wav"
  }

  /** The uploaded emotion reference: emo_<hex>.wav. */
  function EmoName(hex: string): (name: string)
    ensures |name| == |hex| + 8 && name[0] == 'e' && name[4..|name| - 4] == hex
    ensures name[..4] == "emo_" && name[|name| - 4..] == ".wav"
  {
    "emo_" + hex + ".wav"
  }

  /** The decimal digits of n, as str(n) writes them. */
  function Decimal(n: nat): (s: string)
    // never empty, and no leading zero except for 0 itself
    ensures |s| >= 1
    ensures n > 0 ==> s[0] != '0'
    decreases n
  {
    if n < 10 then [DigitChar(n)] else Decimal(n / 10) + [DigitChar(n % 10)]
  }

  function DigitChar(d: nat): char
    requires d < 10
  {
    ('0' as int + d) as char
  }

  predicate IsDigit(c: char) { '0' <= c <= '9' }

  /** int(s) for a string of decimal digits. */
  function DecimalValue(s: string): nat
    requires forall i :: 0 <= i < |s| ==> IsDigit(s[i])
    decreases |s|
  {
    if s == [] then 0
    else
      assert IsDigit(s[|s| - 1]);
      DecimalValue(s[..|s| - 1]) * 10 + ((s[|s| - 1] as int) - ('0' as int)) as nat
  }

  /** str(n) is a non-empty run of digits that reads back as n. */
  lemma {:induction false} DecimalRoundTrip(n: nat)
    ensures |Decimal(n)| >= 1
    ensures forall i :: 0 <= i < |Decimal(n)| ==> IsDigit(Decimal(n)[i])
    ensures DecimalValue(Decimal(n)) == n
    decreases n
  {
    if n >= 10 {
      DecimalRoundTrip(n / 10);
      var s := Decimal(n);
      assert s[..|s| - 1] == Decimal(n / 10);
    }
  }

  /** The file name offered to the client: speech_<int(time.time())>.wav.
      It depends on the clock only, never on the request. */
  function DownloadName(now: nat): (name: string)
    ensures |name| > |"speech_.wav"|
    ensures name[..7] == "speech_" && name[|name| - 4..] == ".wav"
    // between them, the decimal digits of the clock value
    ensures forall i :: 7 <= i < |name| - 4 ==> IsDigit(name[i])
    ensures DecimalValue(name[7..|name| - 4]) == now
    // exactly as str(now) writes it: no leading zero
    ensures name[7..|name| - 4] == Decimal(now)
  {
    DecimalRoundTrip(now);
    "speech_" + Decimal(now) + ".wav"
  }

  /** The temporary voice file, emotion file and output file of one request
      are three different paths, whatever hex strings uuid4 produced: their
      names start with different letters. */
  lemma TempPathsDistinct(dir: string, voiceHex: string, emoHex: string, outHex: string)
    ensures Join(dir, VoiceName(voiceHex)) != Join(dir, EmoName(emoHex))
    ensures Join(dir, VoiceName(voiceHex)) != Join(dir, OutputName(outHex))
    ensures Join(dir, EmoName(emoHex)) != Join(dir, OutputName(outHex))
  {
    var v, e, o := VoiceName(voiceHex), EmoName(emoHex), OutputName(outHex);
    assert v[0] == 'v' && e[0] == 'e' && o[0] == 's';
    if Join(dir, v) == Join(dir, e) { JoinInjective(dir, v, e); }
    if Join(dir, v) == Join(dir, o) { JoinInjective(dir, v, o); }
    if Join(dir, e) == Join(dir, o) { JoinInjective(dir, e, o); }
  }

  // ---------------------------------------------------------------------
  // Requests

  /** The body of POST /v1/audio/speech. */
  datatype SpeechRequest = SpeechRequest(text: string, voice: string, model: string, responseFormat: string, speed: real)

  /** The body of POST /api/v1/tts. */
  datatype TtsRequest = TtsRequest(
    text: string, voice: string, model: string, responseFormat: string, speed: real,
    emoAudioPrompt: Option<string>, emoAlpha: real, emoVector: Option<seq<real>>,
    useEmoText: bool, emoText: Option<string>, useRandom: bool, verbose: bool)

  /** The form of POST /api/v1/tts/upload; the uploaded bytes themselves
      are not modelled, only whether an emotion file came with it. */
  datatype UploadForm = UploadForm(
    text: string, hasEmoAudioFile: bool, emoAlpha: real, emoVector: Option<string>,
    useEmoText: bool, emoText: Option<string>, useRandom: bool, verbose: bool)

  /** `if request.emo_audio_prompt`: given and not the empty string. */
  predicate EmoPromptGiven(req: TtsRequest) {
    req.emoAudioPrompt.Some? && req.emoAudioPrompt.value != ""
  }

  /** The hex strings uuid4 yields, in the order the upload handler draws them. */
  datatype UploadHexes = UploadHexes(voice: string, emo: string, output: string)

  /** Whether each os.remove during the upload handler's clean-up succeeds. */
  datatype Removal = Removal(voiceRemoved: bool, emoRemoved: bool)

  function VoiceTemp(tempDir: string, hexes: UploadHexes): string { Join(tempDir, VoiceName(hexes.voice)) }
  function EmoTemp(tempDir: string, hexes: UploadHexes): string { Join(tempDir, EmoName(hexes.emo)) }

  function VectorArgument(v: VectorParse): Option<seq<real>> {
    if v.Vector? then Some(v.values) else None
  }

  /** The clean-up after a successful infer: removing the voice file, then
      the emotion file if there is one, inside one try whose bare except
      swallows the error; a failed voice removal therefore skips the
      emotion removal. */
  function CleanUp(fs: set<string>, voicePath: string, emoPath: Option<string>, removal: Removal): (after: set<string>)
    // only the two temp files can go, and the voice file goes exactly when its removal works
    ensures after <= fs
    ensures forall p :: p in fs && p !in after ==> p == voicePath || (emoPath.Some? && p == emoPath.value)
    ensures voicePath in fs ==> (voicePath !in after <==> removal.voiceRemoved)
    // a failed voice removal skips the emotion removal
    ensures !removal.voiceRemoved ==> after == fs
    // after the voice file, the emotion file goes exactly when its own removal works
    ensures removal.voiceRemoved && emoPath.Some? && emoPath.value in fs && emoPath.value != voicePath ==>
      (emoPath.value !in after <==> removal.emoRemoved)
  {
    if !removal.voiceRemoved then fs
    else if emoPath.Some? && removal.emoRemoved then fs - {voicePath} - {emoPath.value}
    else fs - {voicePath}
  }

  datatype UploadResult = UploadResult(handled: Handled, fs: set<string>)

  /** POST /api/v1/tts/upload, with the engine `model` and the file system
      before the request. */
  function Upload(model: Option<Engine>, tempDir: string, fs: set<string>, form: UploadForm,
                  hexes: UploadHexes, parseFloat: string -> Option<real>,
                  infer: InferOutcome, removal: Removal, now: nat): (u: UploadResult)
    // no engine: 503, raised before anything is written
    ensures model.None? <==> u.handled.response == HttpError(StatusUnavailable, ModelNotLoaded)
    ensures model.None? ==> u.handled.call.None? && u.fs == fs
    // with an engine, every failure surfaces as a 500
    ensures model.Some? ==> u.handled.response.Audio? || u.handled.response.status == StatusServerError
    // a malformed vector is refused before the engine is called
    ensures model.Some? && ParseEmoVector(form.emoVector, parseFloat).Malformed? ==>
      u.handled == Handled(Rewrapped(BadRequest(EmoVectorMalformed(ParseEmoVector(form.emoVector, parseFloat).error))), None)
    ensures u.handled.call.Some? <==> model.Some? && !ParseEmoVector(form.emoVector, parseFloat).Malformed?
    // the engine reads the uploaded copies, never a client-supplied path
    ensures u.handled.call.Some? ==>
      && u.handled.call.value.speakerPrompt == VoiceTemp(tempDir, hexes)
      && u.handled.call.value.outputPath == Join(tempDir, OutputName(hexes.output))
      && u.handled.call.value.text == form.text
      && u.handled.call.value.verbose == form.verbose
      // the form's other fields reach the engine unchanged: no clamping of emo_alpha
      && u.handled.call.value.emotion == Some(EmotionArgs(
           if form.hasEmoAudioFile then Some(EmoTemp(tempDir, hexes)) else None,
           form.emoAlpha, VectorArgument(ParseEmoVector(form.emoVector, parseFloat)),
           form.useEmoText, form.emoText, form.useRandom))
    ensures u.handled.response.Audio? <==> u.handled.call.Some? && infer.Produced?
    ensures u.handled.call.Some? && infer.InferRaised? ==> u.handled.response == Rewrapped(EngineRaised)
    ensures u.handled.response.Audio? ==> u.handled.response == Audio(infer.resultPath, MediaType, DownloadName(now))
    // clean-up only on success: every failure after the writes leaves the temporary files behind
    ensures model.Some? && !u.handled.response.Audio? ==>
      VoiceTemp(tempDir, hexes) in u.fs && (form.hasEmoAudioFile ==> EmoTemp(tempDir, hexes) in u.fs)
    // on success the voice file is gone exactly when its removal worked, and
    // the emotion file exactly when both removals worked
    ensures u.handled.response.Audio? ==> (VoiceTemp(tempDir, hexes) !in u.fs <==> removal.voiceRemoved)
    ensures u.handled.response.Audio? && form.hasEmoAudioFile ==>
      (EmoTemp(tempDir, hexes) !in u.fs <==> removal.voiceRemoved && removal.emoRemoved)
    // no other path is touched by the handler itself (the emotion path only when a file came)
    ensures forall p :: p != VoiceTemp(tempDir, hexes) && (p != EmoTemp(tempDir, hexes) || !form.hasEmoAudioFile) ==>
      (p in u.fs <==> p in fs)
  {
    if model.None? then UploadResult(Handled(HttpError(StatusUnavailable, ModelNotLoaded), None), fs)
    else
      var voicePath := VoiceTemp(tempDir, hexes);
      var emoPath := if form.hasEmoAudioFile then Some(EmoTemp(tempDir, hexes)) else None;
      var written := if form.hasEmoAudioFile then fs + {voicePath} + {emoPath.value} else fs + {voicePath};
      var vector := ParseEmoVector(form.emoVector, parseFloat);
      if vector.Malformed? then
        UploadResult(Handled(Rewrapped(BadRequest(EmoVectorMalformed(vector.error))), None), written)
      else
        TempPathsDistinct(tempDir, hexes.voice, hexes.emo, hexes.output);
        var call := InferCall(voicePath, form.text, Join(tempDir, OutputName(hexes.output)),
          Some(EmotionArgs(emoPath, form.emoAlpha, VectorArgument(vector), form.useEmoText, form.emoText, form.useRandom)),
          form.verbose);
        match infer
        case InferRaised => UploadResult(Handled(Rewrapped(EngineRaised), Some(call)), written)
        case Produced(path) =>
          UploadResult(Handled(Audio(path, MediaType, DownloadName(now)), Some(call)),
                       CleanUp(written, voicePath, emoPath, removal))
  }

  // ---------------------------------------------------------------------
  // The running service

  datatype Health = Health(status: string, modelLoaded: bool, device: string, timestamp: real)

  /** The process-wide state of the service: the global engine handle
      `tts_model`, the file system it sees, the model directory and the
      system temporary directory. */
  class Server {
    var ttsModel: Option<Engine>
    var fs: set<string>
    const modelDir: string
    const tempDir: string

    /** The module is imported: no engine yet. */
    constructor (modelDir: string, tempDir: string, fs: set<string>)
      ensures this.modelDir == modelDir && this.tempDir == tempDir
      ensures this.fs == fs && ttsModel.None?
    {
      this.modelDir := modelDir;
      this.tempDir := tempDir;
      this.fs := fs;
      ttsModel := None;
    }

    /** initialize_model: True, with the engine stored, only when every
      required file exists and the constructor returns; on False the old
      handle is left as it was. */
    method InitializeModel(ctor: Construction) returns (ok: bool)
      modifies this`ttsModel
      ensures ok <==> InitDecision(modelDir, fs, ctor).Initialized?
      ensures ok <==> AllPresent(modelDir, RequiredFiles, fs) && ctor.Built?
      ensures ttsModel == if ok then Some(ctor.engine) else old(ttsModel)
    {
      var missing := FindFirstMissing(modelDir, RequiredFiles, fs);
      if missing.Some? {
        // FileNotFoundError, caught by the function's own except
        return false;
      }
      match ctor
      case ConstructorRaised =>
        ok := false;
      case Built(engine) =>
        ttsModel := Some(engine);
        ok := true;
    }

    /** The start-up hook: one attempt; a failure is logged and the service
      stays up. */
    method Startup(ctor: Construction)
      modifies this`ttsModel
      ensures ttsModel == if AllPresent(modelDir, RequiredFiles, fs) && ctor.Built? then Some(ctor.engine) else old(ttsModel)
    {
      var _ := InitializeModel(ctor);
    }

    /** GET /health. `cudaDevice` is the name of device 0 when CUDA is
      available, and `now` the clock. */
    function HealthCheck(cudaDevice: Option<string>, now: real): (h: Health)
      reads this
      ensures h.modelLoaded <==> ttsModel.Some?
      ensures h.status == "healthy" <==> h.modelLoaded
      ensures h.status == "unhealthy" <==> !h.modelLoaded
      ensures h.device == (if cudaDevice.Some? then cudaDevice.value else "cpu")
      ensures h.timestamp == now
    {
      Health(if ttsModel.Some? then "healthy" else "unhealthy", ttsModel.Some?,
             if cudaDevice.Some? then cudaDevice.value else "cpu", now)
    }

    /** POST /v1/audio/speech. */
    function CreateSpeechOpenAICompatible(req: SpeechRequest, outHex: string, infer: InferOutcome, now: nat): (h: Handled)
      reads this
      // 503 exactly when there is no engine, raised outside try and before any check
      ensures ttsModel.None? <==> h.response == HttpError(StatusUnavailable, ModelNotLoaded)
      ensures ttsModel.None? ==> h.call.None?
      // inside try every failure, the 400 for a missing voice included, is a 500
      ensures ttsModel.Some? ==> h.response.Audio? || h.response.status == StatusServerError
      ensures ttsModel.Some? && req.voice !in fs ==>
        h.response == Rewrapped(BadRequest(VoiceMissing(req.voice)))
      // the engine runs exactly when there is one and the voice file exists
      ensures h.call.Some? <==> ttsModel.Some? && req.voice in fs
      ensures h.call.Some? ==>
        h.call.value == InferCall(req.voice, req.text, Join(tempDir, OutputName(outHex)), None, req.speed != 1.0 as real)
      ensures h.response.Audio? <==> h.call.Some? && infer.Produced?
      ensures h.call.Some? && infer.InferRaised? ==> h.response == Rewrapped(EngineRaised)
      // the audio is served as WAV whatever response_format asked for
      ensures h.response.Audio? ==> h.response == Audio(infer.resultPath, MediaType, DownloadName(now))
    {
      if ttsModel.None? then Handled(HttpError(StatusUnavailable, ModelNotLoaded), None)
      else if req.voice !in fs then Handled(Rewrapped(BadRequest(VoiceMissing(req.voice))), None)
      else
        var call := InferCall(req.voice, req.text, Join(tempDir, OutputName(outHex)), None, req.speed != 1.0);
        match infer
        case InferRaised => Handled(Rewrapped(EngineRaised), Some(call))
        case Produced(path) => Handled(Audio(path, MediaType, DownloadName(now)), Some(call))
    }

    /** POST /api/v1/tts. */
    function CreateSpeech(req: TtsRequest, outHex: string, infer: InferOutcome, now: nat): (h: Handled)
      reads this
      ensures ttsModel.None? <==> h.response == HttpError(StatusUnavailable, ModelNotLoaded)
      ensures ttsModel.None? ==> h.call.None?
      ensures ttsModel.Some? ==> h.response.Audio? || h.response.status == StatusServerError
      // the voice path is checked first
      ensures ttsModel.Some? && req.voice !in fs ==>
        h.response == Rewrapped(BadRequest(VoiceMissing(req.voice)))
      // the emotion path only when it is given and not empty
      ensures ttsModel.Some? && req.voice in fs && EmoPromptGiven(req) && req.emoAudioPrompt.value !in fs ==>
        h.response == Rewrapped(BadRequest(EmoAudioMissing(req.emoAudioPrompt.value)))
      ensures h.call.Some? <==>
        ttsModel.Some? && req.voice in fs && (EmoPromptGiven(req) ==> req.emoAudioPrompt.value in fs)
      // the emotion arguments reach the engine unchanged: no clamping of emo_alpha, no check of the vector
      ensures h.call.Some? ==>
        h.call.value == InferCall(req.voice, req.text, Join(tempDir, OutputName(outHex)),
          Some(EmotionArgs(req.emoAudioPrompt, req.emoAlpha, req.emoVector, req.useEmoText, req.emoText, req.useRandom)),
          req.verbose)
      ensures h.response.Audio? <==> h.call.Some? && infer.Produced?
      ensures h.call.Some? && infer.InferRaised? ==> h.response == Rewrapped(EngineRaised)
      ensures h.response.Audio? ==> h.response == Audio(infer.resultPath, MediaType, DownloadName(now))
    {
      if ttsModel.None? then Handled(HttpError(StatusUnavailable, ModelNotLoaded), None)
      else if req.voice !in fs then Handled(Rewrapped(BadRequest(VoiceMissing(req.voice))), None)
      else if EmoPromptGiven(req) && req.emoAudioPrompt.value !in fs then
        Handled(Rewrapped(BadRequest(EmoAudioMissing(req.emoAudioPrompt.value))), None)
      else
        var call := InferCall(req.voice, req.text, Join(tempDir, OutputName(outHex)),
          Some(EmotionArgs(req.emoAudioPrompt, req.emoAlpha, req.emoVector, req.useEmoText, req.emoText, req.useRandom)),
          req.verbose);
        match infer
        case InferRaised => Handled(Rewrapped(EngineRaised), Some(call))
        case Produced(path) => Handled(Audio(path, MediaType, DownloadName(now)), Some(call))
    }

    /** POST /api/v1/tts/upload: writes the uploaded files, parses the
      vector, runs the engine and removes the files, changing `fs` as
      Upload describes. */
    method CreateSpeechWithUpload(form: UploadForm, hexes: UploadHexes, parseFloat: string -> Option<real>,
                                  infer: InferOutcome, removal: Removal, now: nat) returns (h: Handled)
      modifies this`fs
      ensures h == Upload(ttsModel, tempDir, old(fs), form, hexes, parseFloat, infer, removal, now).handled
      ensures fs == Upload(ttsModel, tempDir, old(fs), form, hexes, parseFloat, infer, removal, now).fs
    {
      if ttsModel.None? {
        return Handled(HttpError(StatusUnavailable, ModelNotLoaded), None);
      }
      var voicePath := Join(tempDir, VoiceName(hexes.voice));
      fs := fs + {voicePath};
      var emoAudioPath: Option<string> := None;
      if form.hasEmoAudioFile {
        emoAudioPath := Some(Join(tempDir, EmoName(hexes.emo)));
        fs := fs + {emoAudioPath.value};
      }
      var vector := ParseEmoVector(form.emoVector, parseFloat);
      if vector.Malformed? {
        return Handled(Rewrapped(BadRequest(EmoVectorMalformed(vector.error))), None);
      }
      var outputPath := Join(tempDir, OutputName(hexes.output));
      var call := InferCall(voicePath, form.text, outputPath,
        Some(EmotionArgs(emoAudioPath, form.emoAlpha, VectorArgument(vector), form.useEmoText, form.emoText, form.useRandom)),
        form.verbose);
      if infer.InferRaised? {
        return Handled(Rewrapped(EngineRaised), Some(call));
      }
      if removal.voiceRemoved {
        fs := fs - {voicePath};
        if emoAudioPath.Some? && removal.emoRemoved {
          fs := fs - {emoAudioPath.value};
        }
      }
      h := Handled(Audio(infer.resultPath, MediaType, DownloadName(now)), Some(call));
    }

    /** The three synthesis endpoints refuse with 503 exactly when the
      health report says the model is not loaded. */
    lemma ReadinessAgreement(speech: SpeechRequest, tts: TtsRequest, form: UploadForm, hexes: UploadHexes,
                             parseFloat: string -> Option<real>, infer: InferOutcome, removal: Removal,
                             cudaDevice: Option<string>, now: nat)
      ensures var unavailable := HttpError(StatusUnavailable, ModelNotLoaded);
        && (!HealthCheck(cudaDevice, now as real).modelLoaded <==> CreateSpeechOpenAICompatible(speech, hexes.output, infer, now).response == unavailable)
        && (!HealthCheck(cudaDevice, now as real).modelLoaded <==> CreateSpeech(tts, hexes.output, infer, now).response == unavailable)
        && (!HealthCheck(cudaDevice, now as real).modelLoaded <==>
              Upload(ttsModel, tempDir, fs, form, hexes, parseFloat, infer, removal, now).handled.response == unavailable)
    {
    }
  }
}
