/** The WhisperX subtitle service: where it reads and writes, the models it loads once
    per process, and generate_word_level_srt with its skip rule. */
module WhisperX {
  import opened Wrappers
  import opened Paths
  import opened Files
  import opened Srt

  /** whisperx.load_model(name, device, compute_type=...) */
  datatype AsrModel = AsrModel(name: string, device: string, computeType: string)

  /** whisperx.load_align_model(language_code=..., device=...) with its metadata */
  datatype AlignModel = AlignModel(languageCode: string, device: string)

  /** The transcriber itself is opaque: given the two models and the audio file it
      returns the aligned transcription or raises. */
  type Transcriber = (AsrModel, AlignModel, Blob) -> Result<Transcription>

  /** What whisperx.load_model and whisperx.load_align_model raise in this process, if
      anything; the loaders are otherwise opaque. */
  datatype LoadFaults = LoadFaults(asr: Option<Error>, align: Option<Error>)

  /** The class attributes _model and _align_model: one pair for the whole process,
      shared by every generator. */
  /** The pair of class attributes at one moment. */
  datatype Models = Models(model: Option<AsrModel>, alignModel: Option<AlignModel>)

  /** The settings every generator is built with. */
  const Device := "cpu"
  const ComputeType := "int8"

  class ModelCache {
    var model: Option<AsrModel>
    var alignModel: Option<AlignModel>

    constructor ()
      ensures model == None && alignModel == None && Valid()
    {
      model := None;
      alignModel := None;
    }

    /** _align_model is assigned only after _model, so the speech model can be there
        without the alignment model (when load_align_model raised), never the reverse. */
    predicate Valid()
      reads this
    {
      model.None? ==> alignModel.None?
    }

    function State(): Models
      reads this
    {
      Models(model, alignModel)
    }
  }

  /** What _load_models raises: nothing once _model is set, whatever the alignment
      model is; otherwise the first loader that fails. */
  function LoadOutcome(model: Option<AsrModel>, faults: LoadFaults): Outcome {
    if model.Some? then Pass
    else if faults.asr.Some? then Fail(faults.asr.value)
    else if faults.align.Some? then Fail(faults.align.value)
    else Pass
  }

  /** What _load_models leaves in the class attributes: nothing changes once _model
      is set; otherwise _model is assigned as soon as load_model returns, and
      _align_model only when load_align_model returns too. */
  function LoadedModels(m: Models, modelName: string, faults: LoadFaults): (r: Models)
    ensures m.model.Some? ==> r == m
    ensures LoadOutcome(m.model, faults).Pass? ==> r.model.Some?
    ensures (m.model.None? ==> m.alignModel.None?) ==> (r.model.None? ==> r.alignModel.None?)
    ensures m.model.None? && faults.asr.None? ==> r.model == Some(AsrModel(modelName, Device, ComputeType))
  {
    if m.model.Some? || faults.asr.Some? then m
    else if faults.align.Some? then Models(Some(AsrModel(modelName, Device, ComputeType)), m.alignModel)
    else Models(Some(AsrModel(modelName, Device, ComputeType)), Some(AlignModel("en", Device)))
  }

  /** What Python says when _align_model is still None where transcribe() unpacks it. */
  const UnpackNone := "cannot unpack non-iterable NoneType object"

  /** What transcribe() returns: the speech model reads the audio file first (a
      missing one raises), then the alignment model is unpacked, then both run. */
  function TranscriptionAt(model: AsrModel, alignModel: Option<AlignModel>, audio: Path,
                           files: map<Path, Blob>, transcriber: Transcriber): Result<Transcription>
  {
    if audio !in files then Err(LibraryError("whisperx", audio.ToString()))
    else if alignModel.None? then Err(TypeError(UnpackNone))
    else transcriber(model, alignModel.value, files[audio])
  }

  function AudioPath(cwd: Path, scriptUuid: string): Path {
    ScriptDir(cwd, scriptUuid).Join("full_script_audio.wav")
  }

  function OutputSrtPath(cwd: Path, scriptUuid: string): Path {
    ScriptDir(cwd, scriptUuid).Join("full_sub_words.srt")
  }

  /** Both paths sit side by side in the script's directory, and they differ. */
  lemma {:induction false} PathsOfScript(cwd: Path, scriptUuid: string)
    ensures AudioPath(cwd, scriptUuid).Parent() == OutputSrtPath(cwd, scriptUuid).Parent() == ScriptDir(cwd, scriptUuid)
    ensures AudioPath(cwd, scriptUuid) != OutputSrtPath(cwd, scriptUuid)
    ensures OutputSrtPath(cwd, scriptUuid).Name() == "full_sub_words.srt"
  {
    var a := AudioPath(cwd, scriptUuid);
    var o := OutputSrtPath(cwd, scriptUuid);
    assert a.Name() == "full_script_audio.wav" && o.Name() == "full_sub_words.srt";
  }

  /** The SubRip text generate_word_level_srt writes for a transcription: the word
      captions only (a segment without a word list adds nothing). */
  function SrtText(t: Transcription): string {
    Document(Captions(TranscriptCues(SegmentsOf(t), false)))
  }

  /** What generate_word_level_srt returns and leaves, for the models it finds: an
      existing output is returned untouched; otherwise the transcription's error, or
      the mkdir's, is raised with nothing written; otherwise the captions are written
      to the output after its directories are made. */
  function WordLevelSrt(audioPath: Path, outputSrtPath: Path, m: Models, s: Snapshot, transcriber: Transcriber)
    : (Result<Path>, Snapshot)
    requires m.model.Some?
  {
    if ExistsIn(s.files, s.dirs, outputSrtPath) then (Ok(outputSrtPath), s)
    else match TranscriptionAt(m.model.value, m.alignModel, audioPath, s.files, transcriber)
      case Err(e) => (Err(e), s)
      case Ok(t) =>
        var made := MakeDirsOutcome(s.files, outputSrtPath.Parent());
        if made.Fail? then (Err(made.error), s)
        else (Ok(outputSrtPath), Snapshot(s.files[outputSrtPath := TextFile(SrtText(t))],
                                          s.dirs + AncestorsAndSelf(outputSrtPath.Parent())))
  }

  /** An existing output is returned untouched; an error writes nothing; only the
      output file changes, only its directories are made, and a transcription error
      is raised as it is while a written output holds the transcription's captions. */
  lemma WordLevelSrtEffects(audioPath: Path, outputSrtPath: Path, m: Models, s: Snapshot, transcriber: Transcriber)
    requires m.model.Some?
    ensures var r := WordLevelSrt(audioPath, outputSrtPath, m, s, transcriber);
      && (r.0.Ok? ==> r.0.value == outputSrtPath)
      && (r.0.Err? ==> r.1 == s)
      && (ExistsIn(s.files, s.dirs, outputSrtPath) ==> r == (Ok(outputSrtPath), s))
      && SameExcept(s.files, r.1.files, {outputSrtPath})
      && r.1.dirs - s.dirs <= AncestorsAndSelf(outputSrtPath.Parent())
      && (!ExistsIn(s.files, s.dirs, outputSrtPath) ==>
            match TranscriptionAt(m.model.value, m.alignModel, audioPath, s.files, transcriber)
            case Err(e) => r.0 == Err(e)
            case Ok(t) => r.0.Ok? ==> outputSrtPath in r.1.files && r.1.files[outputSrtPath] == TextFile(SrtText(t)))
  {
  }

  class SubtitleGenerator {
    const audioPath: Path
    const modelName: string
    const outputSrtPath: Path
    const device: string := Device
    const computeType: string := ComputeType
    const models: ModelCache

    /** The speech model is there; every generator after the first one that set it
        skips loading, whatever model name it is given. */
    predicate Loaded()
      reads this, models
    {
      models.model.Some?
    }

    /** __init__ up to its last line, the call of _load_models, which is LoadModels. */
    constructor (cwd: Path, scriptUuid: string, modelName: string, models: ModelCache)
      ensures audioPath == AudioPath(cwd, scriptUuid) && outputSrtPath == OutputSrtPath(cwd, scriptUuid)
      ensures this.modelName == modelName && device == "cpu" && computeType == "int8"
      ensures this.models == models
    {
      audioPath := AudioPath(cwd, scriptUuid);
      outputSrtPath := OutputSrtPath(cwd, scriptUuid);
      this.modelName := modelName;
      this.models := models;
    }

    /** _load_models: only while _model is None. _model is assigned before the
        alignment model is loaded, so a failing load_align_model leaves _model set and
        _align_model None, and no later generator loads again. */
    method LoadModels(faults: LoadFaults) returns (o: Outcome)
      requires models.Valid()
      modifies models
      ensures models.Valid()
      ensures o == LoadOutcome(old(models.model), faults)
      ensures models.State() == LoadedModels(old(models.State()), modelName, faults)
    {
      if models.model.None? {
        if faults.asr.Some? {
          return Fail(faults.asr.value);
        }
        models.model := Some(AsrModel(modelName, device, computeType));
        if faults.align.Some? {
          return Fail(faults.align.value);
        }
        models.alignModel := Some(AlignModel("en", device));
      }
      o := Pass;
    }

    /** transcribe(): the shared models run on the audio file. */
    method Transcribe(fs: FileSystem, transcriber: Transcriber) returns (r: Result<Transcription>)
      requires Loaded()
      ensures r == TranscriptionAt(models.model.value, models.alignModel, audioPath, fs.files, transcriber)
      ensures audioPath !in fs.files ==> r == Err(LibraryError("whisperx", audioPath.ToString()))
    {
      if audioPath !in fs.files {
        return Err(LibraryError("whisperx", audioPath.ToString()));
      }
      if models.alignModel.None? {
        return Err(TypeError(UnpackNone));
      }
      r := transcriber(models.model.value, models.alignModel.value, fs.files[audioPath]);
    }

    /** generate_word_level_srt: nothing is done when the output already exists;
        otherwise the transcription's word captions are written there, after the
        directory is made. */
    method GenerateWordLevelSrt(fs: FileSystem, transcriber: Transcriber) returns (r: Result<Path>)
      requires Loaded() && fs.Valid()
      modifies fs
      ensures fs.Valid()
      ensures (r, fs.State()) == WordLevelSrt(audioPath, outputSrtPath, models.State(), old(fs.State()), transcriber)
    {
      if fs.Exists(outputSrtPath) {
        return Ok(outputSrtPath);
      }
      var result := Transcribe(fs, transcriber);
      if result.Err? {
        return Err(result.error);
      }
      var content := CollectCaptions(SegmentsOf(result.value), false);
      var made := fs.MakeDirs(outputSrtPath.Parent());
      if made.Fail? {
        return Err(made.error);
      }
      assert outputSrtPath !in AncestorsAndSelf(outputSrtPath.Parent());
      // The output is neither a directory nor missing its directory, so open() succeeds.
      var written := fs.Write(outputSrtPath, TextFile(Document(content)));
      assert written.Pass?;
      r := Ok(outputSrtPath);
    }
  }

  /** The half-loaded state: after load_align_model raised once, the next generator
      loads nothing and its transcription fails at the unpacking, even with the audio
      file there. */
  method StuckAfterAlignFailure(cwd: Path, scriptUuid: string, modelName: string, e: Error,
                                fs: FileSystem, transcriber: Transcriber)
    returns (first: Outcome, second: Outcome, r: Result<Transcription>)
    requires AudioPath(cwd, scriptUuid) in fs.files
    ensures first == Fail(e) && second == Pass
    ensures r == Err(TypeError(UnpackNone))
  {
    var models := new ModelCache();
    var g1 := new SubtitleGenerator(cwd, scriptUuid, modelName, models);
    first := g1.LoadModels(LoadFaults(None, Some(e)));
    var g2 := new SubtitleGenerator(cwd, scriptUuid, modelName, models);
    second := g2.LoadModels(LoadFaults(None, None));
    r := g2.Transcribe(fs, transcriber);
  }
}
