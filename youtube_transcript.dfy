/**
 * The model-selection state of `YouTubeTranscriptTool`: the chosen Whisper
 * size and the lazily loaded model, `change_model`, the lazy-load guard of
 * `load_whisper_model`, the arithmetic of `estimate_processing_time`, and the
 * ten-minute gate of `get_transcript_mcp`. Downloading, the speech
 * recogniser and the video lookup are inputs: what they returned or raised
 * is passed in.
 */
module Transcript {
  import opened Wrappers

  /** The `supported_models` table: model size to the name handed to `whisper.load_model`. */
  const SupportedModels: seq<(string, string)> := [
    ("tiny", "tiny.en"), ("base", "base"), ("small", "small"), ("medium", "medium"), ("large", "large")]

  /** The table's keys, in order. */
  const ModelSizes: seq<string> := ["tiny", "base", "small", "medium", "large"]

  /** `self.supported_models.get(size)`. */
  function SupportedLoader(size: string): (r: Option<string>)
    ensures r.Some? <==> size in ModelSizes
  {
    if size == "tiny" then Some("tiny.en")
    else if size == "base" then Some("base")
    else if size == "small" then Some("small")
    else if size == "medium" then Some("medium")
    else if size == "large" then Some("large")
    else None
  }

  /** The table lookup agrees with the table. */
  lemma SupportedLoaderIsTable(i: nat)
    requires i < |SupportedModels|
    ensures SupportedModels[i].0 == ModelSizes[i]
    ensures SupportedLoader(SupportedModels[i].0) == Some(SupportedModels[i].1)
  {
  }

  /** `self.supported_models.get(self.model_size, 'base')`: the name the loader is given. */
  function LoaderName(size: string): string {
    match SupportedLoader(size)
    case Some(name) => name
    case None => "base"
  }

  /** `tiny` loads the English-only `tiny.en`, other supported sizes load themselves, unknown sizes load `base`. */
  lemma LoaderNames(size: string)
    ensures size == "tiny" ==> LoaderName(size) == "tiny.en"
    ensures size in ModelSizes && size != "tiny" ==> LoaderName(size) == size
    ensures size !in ModelSizes ==> LoaderName(size) == "base"
  {
  }

  /** A loaded Whisper model, identified by what `whisper.load_model` was called with. */
  datatype WhisperModel = WhisperModel(name: string, device: string)

  /** The reply of `change_model`. */
  datatype ChangeReply = ChangeAccepted(message: string, newModel: string) | ChangeRejected(error: string)

  const UnsupportedSizeMessage: string :=
    "Unsupported model size. Available: ['tiny', 'base', 'small', 'medium', 'large']"

  /** What the speech recogniser returned for the downloaded audio, or the text of what it raised. */
  datatype Recognition = Recognised(text: string, language: string, confidence: real) | RecogniserFailed(message: string)

  /**
   * The outside world during one `get_transcript` call: the download's error
   * (if it raised), the loader's error (if it raised), the recogniser's
   * outcome and the measured processing time.
   */
  datatype Pipeline = Pipeline(
    downloadError: Option<string>,
    loaderError: Option<string>,
    recognition: Recognition,
    elapsed: real)

  datatype TranscriptResult = TranscriptResult(
    videoUrl: string,
    videoTitle: string,
    transcript: string,
    language: string,
    confidence: real,
    processingTime: real,
    success: bool,
    errorMessage: string)

  /** A failed `get_transcript`: empty fields, zero confidence and the exception's text. */
  function TranscriptFailure(url: string, elapsed: real, message: string): TranscriptResult {
    TranscriptResult(url, "", "", "", 0.0, elapsed, false, message)
  }

  /** What `get_video_info` reports; `duration` is `None` when the site gives no duration. */
  datatype VideoInfo = InfoOk(duration: Option<real>) | InfoFailed(error: string)

  /** The reply of `get_transcript_mcp`. */
  datatype McpReply =
    | TooLong(error: string, estimatedMinutes: real)
    | Transcribed(transcript: string, title: string, language: string, confidence: real,
                  processingTime: real, success: bool)
    | McpFailed(error: string)

  /** Longest video `get_transcript_mcp` accepts, in seconds. */
  const MaxDuration: real := 600.0

  const TooLongMessage: string :=
    "Video too long (>10 minutes). Consider using a shorter video or smaller model."

  /** What the duration check decides before anything is downloaded. */
  datatype Gate = Block(minutes: real) | Proceed | Crash(message: string)

  /**
   * The check in `get_transcript_mcp`: only a successful lookup is checked;
   * a missing duration makes the comparison with 600 raise `TypeError`.
   */
  function DurationGate(info: VideoInfo): (g: Gate)
    ensures g.Block? <==> info.InfoOk? && info.duration.Some? && info.duration.value > MaxDuration
    ensures g.Block? ==> g.minutes * 60.0 == info.duration.value
    ensures g.Proceed? <==> info.InfoFailed? || (info.duration.Some? && info.duration.value <= MaxDuration)
  {
    match info
    case InfoFailed(_) => Proceed
    case InfoOk(None) => Crash("'>' not supported between instances of 'NoneType' and 'int'")
    case InfoOk(Some(d)) => if d > MaxDuration then Block(d / 60.0) else Proceed
  }

  /** One row of `model_times` in `estimate_processing_time`. */
  datatype ModelTime = ModelTime(size: string, download: real, transcribe: real)

  const ModelTimes: seq<ModelTime> := [
    ModelTime("tiny", 0.1, 0.5), ModelTime("base", 0.1, 1.0), ModelTime("small", 0.1, 2.0),
    ModelTime("medium", 0.1, 4.0), ModelTime("large", 0.1, 8.0)]

  /**
   * `min(model_times.keys(), key=transcribe_factor)`: a left-to-right scan
   * that keeps the earlier row on a tie, so the result is the first row with
   * the smallest factor.
   */
  function Fastest(rows: seq<ModelTime>): (k: nat)
    requires |rows| > 0
    ensures k < |rows|
    ensures forall j :: 0 <= j < |rows| ==> rows[k].transcribe <= rows[j].transcribe
    ensures forall j :: 0 <= j < k ==> rows[j].transcribe > rows[k].transcribe
  {
    if |rows| == 1 then 0
    else
      var k := Fastest(rows[..|rows| - 1]);
      assert forall j :: 0 <= j < |rows| - 1 ==> rows[..|rows| - 1][j] == rows[j];
      if rows[|rows| - 1].transcribe < rows[k].transcribe then |rows| - 1 else k
  }

  /** The row for a model size, if it has one. */
  function TimeRow(size: string): (r: Option<ModelTime>)
    ensures r.Some? <==> size in ModelSizes
    ensures r.Some? ==> r.value in ModelTimes && r.value.size == size
  {
    if size == "tiny" then Some(ModelTimes[0])
    else if size == "base" then Some(ModelTimes[1])
    else if size == "small" then Some(ModelTimes[2])
    else if size == "medium" then Some(ModelTimes[3])
    else if size == "large" then Some(ModelTimes[4])
    else None
  }

  /** The reply of `estimate_processing_time`. */
  datatype EstimateReply =
    | Estimate(videoDuration: real, currentModel: string, estimatedTime: real,
               fastestModel: string, fastestTime: real, recommendation: string)
    | EstimateFailed(error: string)

  function Recommendation(fastest: string, current: string): string {
    if fastest != current then "Use '" + fastest + "' model for fastest processing"
    else "'" + current + "' model is optimal for speed"
  }

  /**
   * `estimate_processing_time` for the tool's current `model_size`. A size
   * missing from `model_times` raises `KeyError` (its text is the quoted key)
   * and a missing duration raises `TypeError`; both come back as failures.
   */
  function EstimateProcessingTime(modelSize: string, info: VideoInfo): EstimateReply {
    match info
    case InfoFailed(e) => EstimateFailed(e)
    case InfoOk(duration) =>
      match TimeRow(modelSize)
      case None => EstimateFailed("'" + modelSize + "'")
      case Some(row) =>
        match duration
        case None => EstimateFailed("unsupported operand type(s) for *: 'NoneType' and 'float'")
        case Some(d) =>
          var fastest := ModelTimes[Fastest(ModelTimes)];
          Estimate(d, modelSize, d * row.download + d * row.transcribe,
                   fastest.size, d * fastest.download + d * fastest.transcribe,
                   Recommendation(fastest.size, modelSize))
  }

  /** The fastest model is `tiny`, with factor 0.5, the smallest in the table. */
  lemma FastestIsTiny()
    ensures ModelTimes[Fastest(ModelTimes)] == ModelTime("tiny", 0.1, 0.5)
  {
    var k := Fastest(ModelTimes);
    assert ModelTimes[k].transcribe <= ModelTimes[0].transcribe;
  }

  /**
   * For a known size and duration `d`: the estimate is `d * (0.1 + factor)`,
   * the fastest model is `tiny` at `0.6 * d`, never slower than the current
   * one, and the current model is called optimal exactly when it is `tiny`.
   */
  lemma EstimateFormula(modelSize: string, d: real)
    requires modelSize in ModelSizes && d >= 0.0
    ensures var r := EstimateProcessingTime(modelSize, InfoOk(Some(d)));
      r.Estimate? &&
      r.estimatedTime == d * (0.1 + TimeRow(modelSize).value.transcribe) &&
      r.fastestModel == "tiny" && r.fastestTime == d * 0.6 &&
      r.fastestTime <= r.estimatedTime &&
      (r.recommendation == "'" + modelSize + "' model is optimal for speed" <==> modelSize == "tiny")
  {
    FastestIsTiny();
    var row := TimeRow(modelSize).value;
    assert row.transcribe >= 0.5;
    assert d * 0.6 <= d * (0.1 + row.transcribe);
    if modelSize != "tiny" {
      assert ("Use '" + "tiny" + "' model for fastest processing")[0] == 'U';
    }
  }

  /** A size outside the table (the constructor does not check it) makes the estimate fail. */
  lemma UnknownSizeEstimateFails(modelSize: string, info: VideoInfo)
    requires modelSize !in ModelSizes
    ensures EstimateProcessingTime(modelSize, info).EstimateFailed?
  {
  }

  /** The tool's mutable state: the chosen size and the cached model. */
  class TranscriptTool {
    var modelSize: string
    var whisperModel: Option<WhisperModel>
    const device: string

    /** A cached model was always loaded for the current size on this tool's device. */
    ghost predicate Valid()
      reads this
    {
      whisperModel.Some? ==> whisperModel.value == WhisperModel(LoaderName(modelSize), device)
    }

    /** `__init__(model_size)`: the size is stored unchecked, nothing is loaded yet. */
    constructor (modelSize: string, cudaAvailable: bool)
      ensures Valid()
      ensures this.modelSize == modelSize && whisperModel == None
      ensures device == if cudaAvailable then "cuda" else "cpu"
    {
      this.modelSize := modelSize;
      whisperModel := None;
      device := if cudaAvailable then "cuda" else "cpu";
    }

    /**
     * `load_whisper_model`: load only when nothing is cached. `loaderError`
     * is what `whisper.load_model` raises, if anything; the exception is
     * re-raised, reported here as `raised`.
     */
    method LoadWhisperModel(loaderError: Option<string>) returns (raised: Option<string>)
      requires Valid()
      modifies this`whisperModel
      ensures Valid()
      ensures old(whisperModel).Some? ==> whisperModel == old(whisperModel) && raised == None
      ensures old(whisperModel).None? ==> raised == loaderError
      ensures old(whisperModel).None? ==>
        whisperModel == if loaderError.None? then Some(WhisperModel(LoaderName(modelSize), device)) else None
    {
      raised := None;
      if whisperModel == None {
        if loaderError.Some? {
          raised := loaderError;
        } else {
          whisperModel := Some(WhisperModel(LoaderName(modelSize), device));
        }
      }
    }

    /** `change_model`: a supported size replaces the current one and drops the cached model. */
    method ChangeModel(newSize: string) returns (reply: ChangeReply)
      requires Valid()
      modifies this`modelSize, this`whisperModel
      ensures Valid()
      ensures newSize !in ModelSizes ==>
        reply == ChangeRejected(UnsupportedSizeMessage) &&
        modelSize == old(modelSize) && whisperModel == old(whisperModel)
      ensures newSize in ModelSizes ==>
        reply == ChangeAccepted("Model changed to " + newSize, newSize) &&
        modelSize == newSize && whisperModel == None
    {
      if SupportedLoader(newSize).None? {
        return ChangeRejected(UnsupportedSizeMessage);
      }
      modelSize := newSize;
      whisperModel := None;
      reply := ChangeAccepted("Model changed to " + newSize, newSize);
    }

    /**
     * `get_transcript`: download, load the model if needed, recognise. Any
     * exception becomes a failed result carrying its text. The source fills
     * `video_title` with the recognised text.
     */
    method GetTranscript(url: string, p: Pipeline) returns (result: TranscriptResult)
      requires Valid()
      modifies this`whisperModel
      ensures Valid()
      ensures p.downloadError.Some? ==>
        result == TranscriptFailure(url, p.elapsed, p.downloadError.value) && whisperModel == old(whisperModel)
      ensures p.downloadError.None? && old(whisperModel).Some? ==> whisperModel == old(whisperModel)
      ensures p.downloadError.None? && old(whisperModel).None? ==>
        whisperModel == if p.loaderError.None? then Some(WhisperModel(LoaderName(modelSize), device)) else None
      ensures p.downloadError.None? && old(whisperModel).None? && p.loaderError.Some? ==>
        result == TranscriptFailure(url, p.elapsed, p.loaderError.value)
      ensures p.downloadError.None? && (old(whisperModel).Some? || p.loaderError.None?) &&
              p.recognition.RecogniserFailed? ==>
        result == TranscriptFailure(url, p.elapsed, p.recognition.message)
      ensures result.success <==>
        p.downloadError.None? && (old(whisperModel).Some? || p.loaderError.None?) && p.recognition.Recognised?
      ensures result.success ==>
        result == TranscriptResult(url, p.recognition.text, p.recognition.text, p.recognition.language,
                                   p.recognition.confidence, p.elapsed, true, "")
    {
      if p.downloadError.Some? {
        return TranscriptFailure(url, p.elapsed, p.downloadError.value);
      }
      var raised := LoadWhisperModel(p.loaderError);
      if raised.Some? {
        return TranscriptFailure(url, p.elapsed, raised.value);
      }
      match p.recognition
      case RecogniserFailed(m) =>
        result := TranscriptFailure(url, p.elapsed, m);
      case Recognised(text, language, confidence) =>
        result := TranscriptResult(url, text, text, language, confidence, p.elapsed, true, "");
    }

    /**
     * `get_transcript_mcp`: refuse a video over ten minutes before anything is
     * downloaded or loaded; otherwise transcribe and reshape the result.
     */
    method GetTranscriptMcp(url: string, info: VideoInfo, p: Pipeline) returns (reply: McpReply)
      requires Valid()
      modifies this`whisperModel
      ensures Valid()
      ensures DurationGate(info).Block? ==>
        reply == TooLong(TooLongMessage, DurationGate(info).minutes) && whisperModel == old(whisperModel)
      ensures DurationGate(info).Crash? ==>
        reply == McpFailed("Failed to process video: " + DurationGate(info).message) &&
        whisperModel == old(whisperModel)
      ensures DurationGate(info).Proceed? ==>
        reply.Transcribed? && reply.title == reply.transcript && reply.processingTime == p.elapsed &&
        (reply.success <==>
          p.downloadError.None? && (old(whisperModel).Some? || p.loaderError.None?) && p.recognition.Recognised?) &&
        (reply.success ==>
          reply.transcript == p.recognition.text && reply.language == p.recognition.language &&
          reply.confidence == p.recognition.confidence) &&
        (!reply.success ==> reply.transcript == "" && reply.language == "" && reply.confidence == 0.0)
      ensures DurationGate(info).Proceed? && (p.downloadError.Some? || old(whisperModel).Some?) ==>
        whisperModel == old(whisperModel)
      ensures DurationGate(info).Proceed? && p.downloadError.None? && old(whisperModel).None? ==>
        whisperModel == if p.loaderError.None? then Some(WhisperModel(LoaderName(modelSize), device)) else None
    {
      match DurationGate(info)
      case Block(minutes) =>
        reply := TooLong(TooLongMessage, minutes);
      case Crash(m) =>
        reply := McpFailed("Failed to process video: " + m);
      case Proceed =>
        var r := GetTranscript(url, p);
        reply := Transcribed(r.transcript, r.videoTitle, r.language, r.confidence, r.processingTime, r.success);
    }
  }

  /** A rejected size leaves the tool as it was; an accepted one forces the next load to reload. */
  method ChangeThenLoad(tool: TranscriptTool, newSize: string) returns (loaded: Option<WhisperModel>)
    requires tool.Valid()
    modifies tool
    ensures newSize in ModelSizes ==> loaded == Some(WhisperModel(LoaderName(newSize), tool.device))
    ensures newSize !in ModelSizes && old(tool.whisperModel).Some? ==> loaded == old(tool.whisperModel)
  {
    var reply := tool.ChangeModel(newSize);
    var raised := tool.LoadWhisperModel(None);
    loaded := tool.whisperModel;
  }
}
