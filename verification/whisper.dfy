/** The older Whisper subtitle service: the model is loaded on every transcription,
    a segment without a word list becomes one caption, and the output defaults to
    "<audio stem>_words.srt" beside the audio. */
module Whisper {
  import opened Wrappers
  import opened Paths
  import opened Files
  import opened Srt

  /** whisper.load_model(name) */
  datatype WhisperModel = WhisperModel(name: string)

  /** model.transcribe(audio, language="en", ...) is opaque. */
  type Transcriber = (WhisperModel, Blob) -> Result<Transcription>

  /** The default output: "<stem>_words.srt" in the audio file's directory. */
  function DefaultSrtPath(audio: Path): (r: Path)
    ensures r.Parent() == audio.Parent() && r.Name() == audio.Stem() + "_words.srt"
  {
    audio.Parent().Join(audio.Stem() + "_words.srt")
  }

  /** The default output never overwrites the audio it was derived from. */
  lemma {:induction false} DefaultSrtPathIsNotAudio(audio: Path)
    ensures DefaultSrtPath(audio) != audio
  {
    // Equal paths would give the audio name a '_' where Stem's contract puts its '.'.
  }

  /** The SubRip text for a transcription: word captions, and one caption for each
      segment that has no word list. */
  function SrtText(t: Transcription): string {
    Document(Captions(TranscriptCues(SegmentsOf(t), true)))
  }

  class SubtitleGenerator {
    const audioPath: Path
    var model: Option<WhisperModel>

    constructor (audioPath: Path)
      ensures this.audioPath == audioPath && model == None
    {
      this.audioPath := audioPath;
      model := None;
    }

    /** transcribe(model_name): loads the named model afresh on every call. What
        whisper.load_model raises, if anything (an unknown name, say), is loadFault;
        then self.model keeps its old value and the audio is never read. */
    method Transcribe(modelName: string, loadFault: Option<Error>, fs: FileSystem, transcriber: Transcriber)
      returns (r: Result<Transcription>)
      modifies this
      ensures model == if loadFault.Some? then old(model) else Some(WhisperModel(modelName))
      ensures loadFault.Some? ==> r == Err(loadFault.value)
      ensures loadFault.None? && audioPath !in fs.files ==> r == Err(LibraryError("whisper", audioPath.ToString()))
      ensures loadFault.None? && audioPath in fs.files ==> r == transcriber(WhisperModel(modelName), fs.files[audioPath])
    {
      if loadFault.Some? {
        return Err(loadFault.value);
      }
      model := Some(WhisperModel(modelName));
      if audioPath !in fs.files {
        return Err(LibraryError("whisper", audioPath.ToString()));
      }
      r := transcriber(model.value, fs.files[audioPath]);
    }

    /** generate_word_level_srt: always transcribes; writes the captions to the given
        path, or to the default one, after making its directory, and returns the path
        written. */
    method GenerateWordLevelSrt(outputPath: Option<Path>, modelName: string, loadFault: Option<Error>,
                                fs: FileSystem, transcriber: Transcriber)
      returns (r: Result<Path>)
      requires fs.Valid()
      modifies this, fs
      ensures fs.Valid()
      ensures model == if loadFault.Some? then old(model) else Some(WhisperModel(modelName))
      ensures r.Err? ==> fs.files == old(fs.files)
      ensures
        var target := outputPath.GetOr(DefaultSrtPath(audioPath));
        match old(TranscriptionOf(modelName, loadFault, fs, transcriber))
        case Err(e) => r == Err(e) && fs.dirs == old(fs.dirs)
        case Ok(t) =>
          var made := MakeDirsOutcome(old(fs.files), target.Parent());
          if made.Fail? then r == Err(made.error) && fs.dirs == old(fs.dirs)
          else
            var dirs := old(fs.dirs) + AncestorsAndSelf(target.Parent());
            var written := WriteOutcome(old(fs.files), dirs, target);
            && fs.dirs == dirs
            && (written.Fail? ==> r == Err(written.error))
            && (written.Pass? ==> r == Ok(target) && fs.files == old(fs.files)[target := TextFile(SrtText(t))])
    {
      var target := if outputPath.None? then DefaultSrtPath(audioPath) else outputPath.value;
      var result := Transcribe(modelName, loadFault, fs, transcriber);
      if result.Err? {
        return Err(result.error);
      }
      var content := CollectCaptions(SegmentsOf(result.value), true);
      var made := fs.MakeDirs(target.Parent());
      if made.Fail? {
        return Err(made.error);
      }
      var written := fs.Write(target, TextFile(Document(content)));
      if written.Fail? {
        return Err(written.error);
      }
      r := Ok(target);
    }

    /** What Transcribe returns in a given file system. */
    ghost function TranscriptionOf(modelName: string, loadFault: Option<Error>, fs: FileSystem,
                                   transcriber: Transcriber): Result<Transcription>
      reads this, fs
    {
      if loadFault.Some? then Err(loadFault.value)
      else if audioPath !in fs.files then Err(LibraryError("whisper", audioPath.ToString()))
      else transcriber(WhisperModel(modelName), fs.files[audioPath])
    }
  }

  /** For transcriptions where every segment has a word list, both services write the
      same text. */
  lemma {:induction false} AgreesWithWhisperX(t: Transcription)
    requires forall i :: 0 <= i < |SegmentsOf(t)| ==> SegmentsOf(t)[i].words.Some?
    ensures SrtText(t) == Document(Captions(TranscriptCues(SegmentsOf(t), false)))
  {
    FallbackOnlyForWordless(SegmentsOf(t));
  }
}
