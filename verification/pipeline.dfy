/** The orchestrator: speech, then subtitles, then video, each stage re-raising what
    fails, and a result record built from the stages' outputs. The stages are the
    models of the voice, WhisperX and video services, run on one file system. */
module Pipeline {
  import opened Wrappers
  import opened Paths
  import opened Files
  import Kokoro
  import WhisperX
  import VideoGen
  import Srt

  /** add_pauses: imported by the orchestrator but defined in no file of this model,
      so it is an uninterpreted text transformation. */
  type TextFilter = string -> string

  /** What the Kokoro pipeline yields for (text, voice, speed, split pattern). */
  type Synthesizer = (string, string, real, string) -> seq<Kokoro.Chunk>

  /** The three logged steps, "Step 1/3" to "Step 3/3". */
  datatype Stage = Speech | Subtitles | Video

  datatype TtsSrtResult = TtsSrtResult(scriptUuid: string, audioPath: string, srtPath: string, status: string)

  datatype VideoResult = VideoResult(videoPath: string, status: string)

  datatype PipelineResult = PipelineResult(
    status: string, scriptUuid: string, audioPath: string, srtPath: string, videoPath: string, message: string)

  /** Everything the stages depend on that lies outside this model: add_pauses, the
      Kokoro pipeline, whether the WhisperX loaders raise, the transcriber, and the
      random draw for the clip's start point. */
  datatype Externals = Externals(
    addPauses: TextFilter, synthesizer: Synthesizer, faults: WhisperX.LoadFaults,
    transcriber: WhisperX.Transcriber, draw: VideoGen.Draw)

  /** What a step returns and leaves behind: its result, the file system, the shared
      WhisperX models, and the steps it started. */
  datatype SubtitleRun = SubtitleRun(result: Result<Path>, disk: Snapshot, models: WhisperX.Models)
  datatype TtsRun = TtsRun(result: Result<TtsSrtResult>, disk: Snapshot, models: WhisperX.Models, stages: seq<Stage>)
  datatype VideoRun = VideoRun(result: Result<VideoResult>, disk: Snapshot)
  datatype PipelineRun = PipelineRun(
    result: Result<PipelineResult>, disk: Snapshot, models: WhisperX.Models, stages: seq<Stage>)

  /** The defaults of generate_tts_and_srt and run_complete_pipeline; the stock clip
      defaults to none (a random pick). */
  const DefaultVoice := "am_liam"
  const DefaultModelName := "tiny"
  const DefaultSpeed := 1.0

  const Completed := "Complete pipeline executed successfully"

  /** What Python raises when KokoroVoice is given the keyword script_uuid. */
  const KokoroArgumentError := "KokoroVoice.__init__() got an unexpected keyword argument 'script_uuid'"

  class VideoPipeline {
    const scriptUuid: string
    const scriptContent: string
    const parentDir: Path
    /** The steps started so far, in order. */
    var stages: seq<Stage>

    constructor (scriptUuid: string, scriptContent: string, cwd: Path)
      ensures this.scriptUuid == scriptUuid && this.scriptContent == scriptContent && parentDir == cwd
      ensures stages == []
    {
      this.scriptUuid := scriptUuid;
      this.scriptContent := scriptContent;
      parentDir := cwd;
      stages := [];
    }

    /** The chunks the voice stage synthesises: always from add_pauses(script), never
        from the raw script. */
    function Chunks(voice: string, speed: real, ext: Externals): seq<Kokoro.Chunk> {
      ext.synthesizer(ext.addPauses(scriptContent), voice, speed, "\\n+")
    }

    /** final.wav, where the voice stage writes. */
    function SpeechPath(): Path {
      Kokoro.OutputPath(parentDir, scriptUuid)
    }

    /** full_sub_words.srt, where the subtitle stage writes. */
    function SubtitlePath(): Path {
      WhisperX.OutputSrtPath(parentDir, scriptUuid)
    }

    /** full_script_audio.wav, which the subtitle and video stages read. */
    function InputAudioPath(): Path {
      WhisperX.AudioPath(parentDir, scriptUuid)
    }

    /** final_sub_words.srt, which the video stage burns in when it exists. */
    function BurnedSrtPath(): Path {
      VideoGen.SrtPath(parentDir, scriptUuid)
    }

    function VideoPath(): Path {
      VideoGen.OutputPath(parentDir, scriptUuid)
    }

    /** output/, made by the video stage. */
    function OutputDir(): Path {
      parentDir.Join("output")
    }

    function StockDir(): Path {
      parentDir.Join("stock_videos")
    }

    // -------------------------------------------------------------------------
    // What each step does, as a function of the state it starts from

    /** What the voice step raises, if anything. */
    function SpeechOutcome(voice: string, speed: real, ext: Externals, s: Snapshot): Outcome {
      Kokoro.SaveOutcome(parentDir, scriptUuid, Chunks(voice, speed, ext), s.files, s.dirs)
    }

    /** The file system the voice step leaves. */
    function SpeechState(voice: string, speed: real, ext: Externals, s: Snapshot): Snapshot {
      Kokoro.SaveState(parentDir, scriptUuid, Chunks(voice, speed, ext), s)
    }

    /** The subtitle step: the generator's __init__ loads the models when they are
        missing, then generate_word_level_srt runs on full_script_audio.wav. */
    function SubtitleSpec(modelName: string, ext: Externals, s: Snapshot, m: WhisperX.Models): SubtitleRun {
      var load := WhisperX.LoadOutcome(m.model, ext.faults);
      var loaded := WhisperX.LoadedModels(m, modelName, ext.faults);
      if load.Fail? then SubtitleRun(Err(load.error), s, loaded)
      else
        var srt := WhisperX.WordLevelSrt(InputAudioPath(), SubtitlePath(), loaded, s, ext.transcriber);
        SubtitleRun(srt.0, srt.1, loaded)
    }

    /** generate_tts_and_srt: the voice step, then, when it returned, the subtitle
        step on what it left; either step's error is the result. */
    function TtsSpec(voice: string, modelName: string, speed: real, ext: Externals, s: Snapshot,
                     m: WhisperX.Models): TtsRun {
      var spoken := SpeechOutcome(voice, speed, ext, s);
      var s1 := SpeechState(voice, speed, ext, s);
      if spoken.Fail? then TtsRun(Err(spoken.error), s1, m, [Speech])
      else
        var sub := SubtitleSpec(modelName, ext, s1, m);
        TtsRun(if sub.result.Err? then Err(sub.result.error)
               else Ok(TtsSrtResult(scriptUuid, SpeechPath().ToString(), sub.result.value.ToString(), "success")),
               sub.disk, sub.models, [Speech, Subtitles])
    }

    /** generate_video with `source` as the clip generate() picks: the output
        directory is made, then the video is generated. */
    function VideoSpec(stockVideoPath: Option<Path>, d: VideoGen.Draw, s: Snapshot, source: Path): VideoRun {
      var made := MakeDirsOutcome(s.files, OutputDir());
      if made.Fail? then VideoRun(Err(made.error), s)
      else
        var dirs := s.dirs + AncestorsAndSelf(OutputDir());
        var generated := VideoGen.GenerateEffect(InputAudioPath(), VideoPath(), StockDir(), BurnedSrtPath(),
                                                 stockVideoPath, d, s.files, dirs, source);
        VideoRun(if generated.0.Fail? then Err(generated.0.error) else Ok(VideoResult(VideoPath().ToString(), "success")),
                 Snapshot(generated.1, dirs))
    }

    /** `source` is a clip generate() may pick, whenever it gets as far as picking. */
    predicate ClipChoice(stockVideoPath: Option<Path>, s: Snapshot, source: Path) {
      var dirs := s.dirs + AncestorsAndSelf(OutputDir());
      MakeDirsOutcome(s.files, OutputDir()).Pass? && VideoGen.AudioReadable(s.files, InputAudioPath())
      && (stockVideoPath.Some? || VideoGen.StockCandidates(s.files, dirs, StockDir()) != {})
      ==> VideoGen.Picks(stockVideoPath, s.files, dirs, StockDir(), source)
    }

    /** run_complete_pipeline: steps 1 and 2, then, when they returned, step 3 on what
        they left; the first error is the result. */
    function PipelineSpec(voice: string, modelName: string, speed: real, stockVideoPath: Option<Path>,
                          ext: Externals, s: Snapshot, m: WhisperX.Models, source: Path): PipelineRun {
      var tts := TtsSpec(voice, modelName, speed, ext, s, m);
      if tts.result.Err? then PipelineRun(Err(tts.result.error), tts.disk, tts.models, tts.stages)
      else
        var video := VideoSpec(stockVideoPath, ext.draw, tts.disk, source);
        PipelineRun(if video.result.Err? then Err(video.result.error)
                    else Ok(PipelineResult("success", scriptUuid, tts.result.value.audioPath, tts.result.value.srtPath,
                                           video.result.value.videoPath, Completed)),
                    video.disk, tts.models, [Speech, Subtitles, Video])
    }

    /** generate_tts_and_srt as written: the voice is constructed with a keyword its
        constructor does not take, so the step fails before anything is synthesised. */
    method GenerateTtsAndSrtAsWritten(voice: string, modelName: string, speed: real) returns (r: Result<TtsSrtResult>)
      modifies this
      ensures stages == old(stages) + [Speech]
      ensures r == Err(TypeError(KokoroArgumentError))
    {
      stages := stages + [Speech];
      r := Err(TypeError(KokoroArgumentError));
    }

    /** run_complete_pipeline as written: it always re-raises the voice step's error. */
    method RunCompletePipelineAsWritten(voice: string, modelName: string, speed: real,
                                        stockVideoPath: Option<Path>) returns (r: Result<PipelineResult>)
      modifies this
      ensures stages == old(stages) + [Speech]
      ensures r == Err(TypeError(KokoroArgumentError))
    {
      var tts := GenerateTtsAndSrtAsWritten(voice, modelName, speed);
      r := Err(tts.error);
    }

    // -------------------------------------------------------------------------
    // The steps

    /** The voice half of generate_tts_and_srt: the voice is built from the step's
        own arguments, and save_audio is given the script id. */
    method SpeechStep(fs: FileSystem, cls: Kokoro.VoiceClass, ext: Externals, voice: string, speed: real)
      returns (o: Outcome)
      requires fs.Valid()
      modifies fs
      ensures fs.Valid()
      ensures o == SpeechOutcome(voice, speed, ext, old(fs.State()))
      ensures fs.State() == SpeechState(voice, speed, ext, old(fs.State()))
    {
      var text := ext.addPauses(scriptContent);
      var kokoro := new Kokoro.KokoroVoice(text, voice, "a", speed, cls);
      var call := kokoro.Synthesize();
      var chunks := ext.synthesizer(call.text, call.voice, call.speed, call.splitPattern);
      o := kokoro.SaveAudio(parentDir, scriptUuid, chunks, fs);
    }

    /** The subtitle half of generate_tts_and_srt: a WhisperX generator for the script,
        which loads the shared models when they are missing, then writes
        full_sub_words.srt from full_script_audio.wav unless it already exists. */
    method SubtitleStep(fs: FileSystem, models: WhisperX.ModelCache, ext: Externals, modelName: string)
      returns (r: Result<Path>)
      requires models.Valid() && fs.Valid()
      modifies fs, models
      ensures models.Valid() && fs.Valid()
      ensures SubtitleRun(r, fs.State(), models.State()) == SubtitleSpec(modelName, ext, old(fs.State()), old(models.State()))
    {
      var generator := new WhisperX.SubtitleGenerator(parentDir, scriptUuid, modelName, models);
      var loaded := generator.LoadModels(ext.faults);
      if loaded.Fail? {
        return Err(loaded.error);
      }
      r := generator.GenerateWordLevelSrt(fs, ext.transcriber);
    }

    /** generate_tts_and_srt with the voice built from its own arguments and
        save_audio given the script id, returning the path it wrote. */
    method GenerateTtsAndSrt(fs: FileSystem, cls: Kokoro.VoiceClass, models: WhisperX.ModelCache, ext: Externals,
                             voice: string := DefaultVoice, modelName: string := DefaultModelName,
                             speed: real := DefaultSpeed)
      returns (r: Result<TtsSrtResult>)
      requires models.Valid() && fs.Valid()
      modifies this, fs, models
      ensures models.Valid() && fs.Valid()
      ensures var run := TtsSpec(voice, modelName, speed, ext, old(fs.State()), old(models.State()));
        && r == run.result && fs.State() == run.disk && models.State() == run.models
        && stages == old(stages) + run.stages
    {
      stages := stages + [Speech];
      var saved := SpeechStep(fs, cls, ext, voice, speed);
      if saved.Fail? {
        return Err(saved.error);
      }
      var audioPath := Kokoro.OutputPath(parentDir, scriptUuid);
      stages := stages + [Subtitles];
      assert stages == old(stages) + [Speech, Subtitles];
      var srt := SubtitleStep(fs, models, ext, modelName);
      if srt.Err? {
        return Err(srt.error);
      }
      r := Ok(TtsSrtResult(scriptUuid, audioPath.ToString(), srt.value.ToString(), "success"));
    }

    /** generate_video: the generator's __init__ makes the output directory, then
        generate() renders; `source` is the clip it picked. */
    method GenerateVideo(fs: FileSystem, ext: Externals, stockVideoPath: Option<Path>)
      returns (r: Result<VideoResult>, ghost source: Path)
      requires fs.Valid()
      modifies this, fs
      ensures fs.Valid()
      ensures VideoRun(r, fs.State()) == VideoSpec(stockVideoPath, ext.draw, old(fs.State()), source)
      ensures ClipChoice(stockVideoPath, old(fs.State()), source)
      ensures stages == old(stages) + [Video]
    {
      stages := stages + [Video];
      source := InputAudioPath();
      var generation := new VideoGen.VideoGeneration(parentDir, scriptUuid);
      assert generation.outputPath.Parent() == OutputDir();
      var made := generation.MakeOutputDir(fs);
      if made.Fail? {
        return Err(made.error), source;
      }
      var o;
      o, source := generation.Generate(fs, stockVideoPath, ext.draw);
      if o.Fail? {
        return Err(o.error), source;
      }
      r := Ok(VideoResult(generation.outputPath.ToString(), "success"));
    }

    /** run_complete_pipeline: steps 1 and 2, then step 3, and the record of both. */
    method RunCompletePipeline(fs: FileSystem, cls: Kokoro.VoiceClass, models: WhisperX.ModelCache, ext: Externals,
                               voice: string := DefaultVoice, modelName: string := DefaultModelName,
                               speed: real := DefaultSpeed, stockVideoPath: Option<Path> := None)
      returns (r: Result<PipelineResult>, ghost source: Path)
      requires models.Valid() && fs.Valid()
      modifies this, fs, models
      ensures models.Valid() && fs.Valid()
      ensures var run := PipelineSpec(voice, modelName, speed, stockVideoPath, ext, old(fs.State()), old(models.State()), source);
        && r == run.result && fs.State() == run.disk && models.State() == run.models
        && stages == old(stages) + run.stages
      ensures var tts := TtsSpec(voice, modelName, speed, ext, old(fs.State()), old(models.State()));
        tts.result.Ok? ==> ClipChoice(stockVideoPath, tts.disk, source)
    {
      source := InputAudioPath();
      ghost var tts := TtsSpec(voice, modelName, speed, ext, fs.State(), models.State());
      var speech := GenerateTtsAndSrt(fs, cls, models, ext, voice, modelName, speed);
      if speech.Err? {
        return Err(speech.error), source;
      }
      var result;
      assert tts.stages == [Speech, Subtitles];
      result, source := GenerateVideo(fs, ext, stockVideoPath);
      assert stages == old(stages) + [Speech, Subtitles, Video];
      if result.Err? {
        return Err(result.error), source;
      }
      r := Ok(PipelineResult("success", scriptUuid, speech.value.audioPath, speech.value.srtPath,
                             result.value.videoPath, Completed));
    }

    // -------------------------------------------------------------------------
    // What the steps promise

    /** Steps 1 and 2: a failing voice step ends the call with its error and leaves
        the files and the models alone; otherwise its audio is in final.wav. Only the
        two written files change, and only the script's directories are made. */
    lemma TtsStages(voice: string, modelName: string, speed: real, ext: Externals, s: Snapshot, m: WhisperX.Models)
      ensures var run := TtsSpec(voice, modelName, speed, ext, s, m);
        var spoken := SpeechOutcome(voice, speed, ext, s);
        && (spoken.Fail? ==> run.result == Err(spoken.error) && run.stages == [Speech] && run.models == m
                             && run.disk.files == s.files)
        && (spoken.Pass? ==> run.stages == [Speech, Subtitles] && SpeechPath() in run.disk.files
                             && run.disk.files[SpeechPath()] == AudioFile(Kokoro.Merge(Chunks(voice, speed, ext)), Kokoro.SampleRate))
        && SameExcept(s.files, run.disk.files, {SpeechPath(), SubtitlePath()})
        && run.disk.dirs - s.dirs <= AncestorsAndSelf(ScriptDir(parentDir, scriptUuid))
        && (run.result.Ok? ==> run.result.value == TtsSrtResult(scriptUuid, SpeechPath().ToString(), SubtitlePath().ToString(), "success"))
    {
      var s1 := SpeechState(voice, speed, ext, s);
      var dir := ScriptDir(parentDir, scriptUuid);
      Kokoro.SaveStateFrame(parentDir, scriptUuid, Chunks(voice, speed, ext), s);
      Distinct();
      assert dir in AncestorsAndSelf(dir);
      if SpeechOutcome(voice, speed, ext, s).Pass? {
        var sub := SubtitleSpec(modelName, ext, s1, m);
        var loaded := WhisperX.LoadedModels(m, modelName, ext.faults);
        if WhisperX.LoadOutcome(m.model, ext.faults).Pass? {
          WhisperX.WordLevelSrtEffects(InputAudioPath(), SubtitlePath(), loaded, s1, ext.transcriber);
        }
        assert SubtitlePath().Parent() == dir;
        SameExceptCompose(s.files, s1.files, sub.disk.files, {SpeechPath()}, {SubtitlePath()});
        assert {SpeechPath()} + {SubtitlePath()} == {SpeechPath(), SubtitlePath()};
      } else {
        assert SameExcept(s.files, s1.files, {SpeechPath(), SubtitlePath()});
      }
    }

    /** After a voice step that returned: a failing model load is re-raised; an
        existing full_sub_words.srt is reused and nothing more is written; otherwise
        full_script_audio.wav, as it was before step 1, is transcribed, and the
        transcription's error is re-raised or its captions are what the SRT holds. */
    lemma TtsSubtitles(voice: string, modelName: string, speed: real, ext: Externals, s: Snapshot, m: WhisperX.Models)
      requires SpeechOutcome(voice, speed, ext, s).Pass?
      ensures var run := TtsSpec(voice, modelName, speed, ext, s, m);
        var load := WhisperX.LoadOutcome(m.model, ext.faults);
        var loaded := WhisperX.LoadedModels(m, modelName, ext.faults);
        && run.models == loaded
        && (load.Fail? ==> run.result == Err(load.error) && run.disk == SpeechState(voice, speed, ext, s))
        && (load.Pass? && ExistsIn(s.files, s.dirs, SubtitlePath()) ==>
              run.result.Ok? && run.disk == SpeechState(voice, speed, ext, s))
        && (load.Pass? && !ExistsIn(s.files, s.dirs, SubtitlePath()) ==>
              match WhisperX.TranscriptionAt(loaded.model.value, loaded.alignModel, InputAudioPath(), s.files, ext.transcriber)
              case Err(e) => run.result == Err(e)
              case Ok(t) => run.result.Ok? ==> run.disk.files[SubtitlePath()] == TextFile(WhisperX.SrtText(t)))
    {
      var s1 := SpeechState(voice, speed, ext, s);
      Distinct();
      assert SubtitlePath() !in {SpeechPath()};
      assert ExistsIn(s1.files, s1.dirs, SubtitlePath()) == ExistsIn(s.files, s.dirs, SubtitlePath());
      Kokoro.SaveStateFrame(parentDir, scriptUuid, Chunks(voice, speed, ext), s);
      var loaded := WhisperX.LoadedModels(m, modelName, ext.faults);
      if WhisperX.LoadOutcome(m.model, ext.faults).Pass? {
        SameAudio(s.files, s1.files, loaded.model.value, loaded.alignModel, ext.transcriber);
        WhisperX.WordLevelSrtEffects(InputAudioPath(), SubtitlePath(), loaded, s1, ext.transcriber);
      }
    }

    /** Steps 1 and 2 succeed when the voice step and the model load return and the
        SRT is there already or the transcription returns: the script's directory the
        voice step made is where the SRT goes. */
    lemma TtsSucceeds(voice: string, modelName: string, speed: real, ext: Externals, s: Snapshot, m: WhisperX.Models)
      requires Tree(s.files, s.dirs)
      requires SpeechOutcome(voice, speed, ext, s).Pass? && WhisperX.LoadOutcome(m.model, ext.faults).Pass?
      requires var loaded := WhisperX.LoadedModels(m, modelName, ext.faults);
        !ExistsIn(s.files, s.dirs, SubtitlePath()) ==>
          WhisperX.TranscriptionAt(loaded.model.value, loaded.alignModel, InputAudioPath(), s.files, ext.transcriber).Ok?
      ensures TtsSpec(voice, modelName, speed, ext, s, m).result.Ok?
    {
      var s1 := SpeechState(voice, speed, ext, s);
      var dir := ScriptDir(parentDir, scriptUuid);
      TtsSubtitles(voice, modelName, speed, ext, s, m);
      assert SubtitlePath().Parent() == dir;
      Distinct();
      JoinDistinct(dir, "final.wav", "");
      assert dir !in s.files && (IsDirIn(s.dirs, dir) || IsDirIn(s.dirs, dir.Parent()));
      if IsDirIn(s.dirs, dir) {
        NoFileAboveDir(s.files, s.dirs, dir);
      } else {
        NoFileAboveDir(s.files, s.dirs, dir.Parent());
        AncestorsAndSelfParent(dir);
      }
      assert AncestorsAndSelf(dir) * s.files.Keys == {};
      ScriptDirsAreShort(SpeechPath());
      assert AncestorsAndSelf(dir) * s1.files.Keys == {};
    }

    /** Step 3: a failing mkdir of the output directory ends it with that error and
        changes nothing; an unreadable full_script_audio.wav is the next error; only
        the video file changes, and a written video has the picked clip, that audio
        and the subtitles of final_sub_words.srt exactly when it existed before. */
    lemma VideoStage(stockVideoPath: Option<Path>, d: VideoGen.Draw, s: Snapshot, source: Path)
      ensures var run := VideoSpec(stockVideoPath, d, s, source);
        var made := MakeDirsOutcome(s.files, OutputDir());
        && (made.Fail? ==> run.result == Err(made.error) && run.disk == s)
        && (made.Pass? && !VideoGen.AudioReadable(s.files, InputAudioPath()) ==>
              run.result == Err(LibraryError("moviepy", InputAudioPath().ToString())))
        && SameExcept(s.files, run.disk.files, {VideoPath()})
        && run.disk.dirs - s.dirs <= AncestorsAndSelf(OutputDir())
        && (run.result.Ok? ==>
              && run.result.value == VideoResult(VideoPath().ToString(), "success")
              && VideoPath() in run.disk.files && run.disk.files[VideoPath()].VideoFile?
              && run.disk.files[VideoPath()].render.source == source
              && run.disk.files[VideoPath()].render.audio == InputAudioPath()
              && run.disk.files[VideoPath()].render.filter
                 == VideoGen.ExportFilter(ExistsIn(s.files, s.dirs, BurnedSrtPath()), BurnedSrtPath()))
    {
      if MakeDirsOutcome(s.files, OutputDir()).Pass? {
        var dirs := s.dirs + AncestorsAndSelf(OutputDir());
        VideoGen.GenerateEffectCases(InputAudioPath(), VideoPath(), StockDir(), BurnedSrtPath(), stockVideoPath, d,
                                     s.files, dirs, source);
        OutputDirsAreShort(BurnedSrtPath());
        assert IsDirIn(dirs, BurnedSrtPath()) == IsDirIn(s.dirs, BurnedSrtPath());
      }
    }

    /** The whole run stops at the first failing step and re-raises its error: the
        voice step's (after step 1 alone), the model load's or the transcription's
        (after steps 1 and 2), or the video step's (after all three). */
    lemma PipelineStopsAtFirstFailure(voice: string, modelName: string, speed: real, stockVideoPath: Option<Path>,
                                      ext: Externals, s: Snapshot, m: WhisperX.Models, source: Path)
      ensures var run := PipelineSpec(voice, modelName, speed, stockVideoPath, ext, s, m, source);
        var spoken := SpeechOutcome(voice, speed, ext, s);
        var load := WhisperX.LoadOutcome(m.model, ext.faults);
        var loaded := WhisperX.LoadedModels(m, modelName, ext.faults);
        var tts := TtsSpec(voice, modelName, speed, ext, s, m);
        && (spoken.Fail? ==> run.result == Err(spoken.error) && run.stages == [Speech] && run.models == m)
        && (spoken.Pass? && load.Fail? ==> run.result == Err(load.error) && run.stages == [Speech, Subtitles])
        && (spoken.Pass? && load.Pass? && !ExistsIn(s.files, s.dirs, SubtitlePath()) &&
            WhisperX.TranscriptionAt(loaded.model.value, loaded.alignModel, InputAudioPath(), s.files, ext.transcriber).Err? ==>
              && run.result == Err(WhisperX.TranscriptionAt(loaded.model.value, loaded.alignModel, InputAudioPath(), s.files, ext.transcriber).error)
              && run.stages == [Speech, Subtitles])
        && (tts.result.Ok? ==> run.stages == [Speech, Subtitles, Video])
        && (tts.result.Ok? && VideoSpec(stockVideoPath, ext.draw, tts.disk, source).result.Err? ==>
              run.result == Err(VideoSpec(stockVideoPath, ext.draw, tts.disk, source).result.error))
    {
      TtsStages(voice, modelName, speed, ext, s, m);
      if SpeechOutcome(voice, speed, ext, s).Pass? {
        TtsSubtitles(voice, modelName, speed, ext, s, m);
      }
    }

    /** Steps 1 and 2 neither make nor remove final_sub_words.srt, the file step 3
        burns in. */
    lemma TtsLeavesBurnedSrt(voice: string, modelName: string, speed: real, ext: Externals, s: Snapshot, m: WhisperX.Models)
      ensures var tts := TtsSpec(voice, modelName, speed, ext, s, m);
        ExistsIn(tts.disk.files, tts.disk.dirs, BurnedSrtPath()) == ExistsIn(s.files, s.dirs, BurnedSrtPath())
    {
      var tts := TtsSpec(voice, modelName, speed, ext, s, m);
      TtsStages(voice, modelName, speed, ext, s, m);
      Distinct();
      assert BurnedSrtPath() !in {SpeechPath(), SubtitlePath()};
      assert BurnedSrtPath() in tts.disk.files <==> BurnedSrtPath() in s.files;
      ScriptDirsAreShort(BurnedSrtPath());
      assert BurnedSrtPath() in tts.disk.dirs <==> BurnedSrtPath() in s.dirs;
    }

    /** A successful run: all three steps ran and the record names the three files. */
    lemma PipelineSuccess(voice: string, modelName: string, speed: real, stockVideoPath: Option<Path>,
                          ext: Externals, s: Snapshot, m: WhisperX.Models, source: Path)
      requires PipelineSpec(voice, modelName, speed, stockVideoPath, ext, s, m, source).result.Ok?
      ensures var run := PipelineSpec(voice, modelName, speed, stockVideoPath, ext, s, m, source);
        && run.stages == [Speech, Subtitles, Video]
        && run.result.value == PipelineResult("success", scriptUuid, SpeechPath().ToString(), SubtitlePath().ToString(),
                                              VideoPath().ToString(), Completed)
    {
      var tts := TtsSpec(voice, modelName, speed, ext, s, m);
      TtsStages(voice, modelName, speed, ext, s, m);
      VideoStage(stockVideoPath, ext.draw, tts.disk, source);
    }

    /** After a successful run final.wav holds the speech of add_pauses(script). */
    lemma PipelineSpeech(voice: string, modelName: string, speed: real, stockVideoPath: Option<Path>,
                         ext: Externals, s: Snapshot, m: WhisperX.Models, source: Path)
      requires PipelineSpec(voice, modelName, speed, stockVideoPath, ext, s, m, source).result.Ok?
      ensures var run := PipelineSpec(voice, modelName, speed, stockVideoPath, ext, s, m, source);
        && SpeechPath() in run.disk.files
        && run.disk.files[SpeechPath()] == AudioFile(Kokoro.Merge(Chunks(voice, speed, ext)), Kokoro.SampleRate)
    {
      var tts := TtsSpec(voice, modelName, speed, ext, s, m);
      TtsStages(voice, modelName, speed, ext, s, m);
      VideoStage(stockVideoPath, ext.draw, tts.disk, source);
      Distinct();
      assert SpeechPath() !in {VideoPath()};
    }

    /** The video of a successful run has the picked clip, the audio of
        full_script_audio.wav and the subtitles of final_sub_words.srt exactly when
        that existed before the run. */
    lemma PipelineVideo(voice: string, modelName: string, speed: real, stockVideoPath: Option<Path>,
                        ext: Externals, s: Snapshot, m: WhisperX.Models, source: Path)
      requires PipelineSpec(voice, modelName, speed, stockVideoPath, ext, s, m, source).result.Ok?
      ensures var run := PipelineSpec(voice, modelName, speed, stockVideoPath, ext, s, m, source);
        && VideoPath() in run.disk.files && run.disk.files[VideoPath()].VideoFile?
        && run.disk.files[VideoPath()].render.source == source
        && run.disk.files[VideoPath()].render.audio == InputAudioPath()
        && run.disk.files[VideoPath()].render.filter
           == VideoGen.ExportFilter(ExistsIn(s.files, s.dirs, BurnedSrtPath()), BurnedSrtPath())
    {
      var tts := TtsSpec(voice, modelName, speed, ext, s, m);
      VideoStage(stockVideoPath, ext.draw, tts.disk, source);
      TtsLeavesBurnedSrt(voice, modelName, speed, ext, s, m);
    }

    /** No run succeeds unless full_script_audio.wav was there before it: neither
        step 1 nor step 2 writes it. */
    lemma PipelineNeedsInputAudio(voice: string, modelName: string, speed: real, stockVideoPath: Option<Path>,
                                  ext: Externals, s: Snapshot, m: WhisperX.Models, source: Path)
      requires InputAudioPath() !in s.files
      ensures PipelineSpec(voice, modelName, speed, stockVideoPath, ext, s, m, source).result.Err?
    {
      TtsStages(voice, modelName, speed, ext, s, m);
      Distinct();
      assert InputAudioPath() !in {SpeechPath(), SubtitlePath()};
    }

    /** A run changes no file but final.wav, full_sub_words.srt and the video. */
    lemma PipelineFrame(voice: string, modelName: string, speed: real, stockVideoPath: Option<Path>,
                        ext: Externals, s: Snapshot, m: WhisperX.Models, source: Path)
      ensures SameExcept(s.files, PipelineSpec(voice, modelName, speed, stockVideoPath, ext, s, m, source).disk.files,
                         {SpeechPath(), SubtitlePath(), VideoPath()})
    {
      var tts := TtsSpec(voice, modelName, speed, ext, s, m);
      TtsStages(voice, modelName, speed, ext, s, m);
      if tts.result.Ok? {
        var video := VideoSpec(stockVideoPath, ext.draw, tts.disk, source);
        VideoStage(stockVideoPath, ext.draw, tts.disk, source);
        SameExceptCompose(s.files, tts.disk.files, video.disk.files, {SpeechPath(), SubtitlePath()}, {VideoPath()});
        assert {SpeechPath(), SubtitlePath()} + {VideoPath()} == {SpeechPath(), SubtitlePath(), VideoPath()};
      }
    }

    /** The transcription does not see a change that leaves full_script_audio.wav alone. */
    lemma SameAudio(files0: map<Path, Blob>, files1: map<Path, Blob>, model: WhisperX.AsrModel,
                    alignModel: Option<WhisperX.AlignModel>, transcriber: WhisperX.Transcriber)
      requires SameExcept(files0, files1, {SpeechPath()}) && SpeechPath() != InputAudioPath()
      ensures WhisperX.TranscriptionAt(model, alignModel, InputAudioPath(), files1, transcriber)
           == WhisperX.TranscriptionAt(model, alignModel, InputAudioPath(), files0, transcriber)
    {
      assert InputAudioPath() !in {SpeechPath()};
    }

    /** The five paths the stages touch are pairwise different where it matters. */
    lemma Distinct()
      ensures SpeechPath() != SubtitlePath() && SpeechPath() != InputAudioPath() && SubtitlePath() != InputAudioPath()
      ensures BurnedSrtPath() != SpeechPath() && BurnedSrtPath() != SubtitlePath()
      ensures VideoPath() != SpeechPath() && VideoPath() != InputAudioPath()
      ensures ScriptDir(parentDir, scriptUuid) != SubtitlePath()
    {
      var dir := ScriptDir(parentDir, scriptUuid);
      JoinDistinct(dir, "final.wav", "full_sub_words.srt");
      JoinDistinct(dir, "final.wav", "full_script_audio.wav");
      JoinDistinct(dir, "full_sub_words.srt", "full_script_audio.wav");
      JoinDistinct(dir, "final_sub_words.srt", "final.wav");
      JoinDistinct(dir, "final_sub_words.srt", "full_sub_words.srt");
      JoinDistinct(dir, "full_sub_words.srt", "final.wav");
      assert |VideoPath().parts| == |parentDir.parts| + 2 && |SpeechPath().parts| == |parentDir.parts| + 3;
    }

    /** The directories the voice and subtitle steps make lie above a script's files. */
    lemma ScriptDirsAreShort(p: Path)
      requires |p.parts| > |parentDir.parts| + 2
      ensures p !in AncestorsAndSelf(ScriptDir(parentDir, scriptUuid))
    {
    }

    /** The directories the video step makes lie above a script's files. */
    lemma OutputDirsAreShort(p: Path)
      requires |p.parts| > |parentDir.parts| + 1
      ensures p !in AncestorsAndSelf(parentDir.Join("output"))
    {
    }
  }
}
