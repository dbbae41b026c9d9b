/** The Kokoro voice service: a lazily built synthesis pipeline and save_audio, which
    joins the chunks the pipeline yields into one waveform written at 24 kHz. */
module Kokoro {
  import opened Wrappers
  import opened Paths
  import opened Files

  /** KPipeline(lang_code=...): an object, so that which pipeline is used is a matter
      of identity. */
  class KPipeline {
    const langCode: string

    constructor (langCode: string)
      ensures this.langCode == langCode
    {
      this.langCode := langCode;
    }
  }

  /** The class attribute KokoroVoice._pipeline, shared by all instances. */
  class VoiceClass {
    var pipeline: Option<KPipeline>

    constructor ()
      ensures pipeline == None
    {
      pipeline := None;
    }
  }

  /** pipeline(text, voice=..., speed=..., split_pattern=...): what synthesize asks
      for; the chunks it yields are opaque. */
  datatype SynthesisCall = SynthesisCall(
    pipeline: KPipeline, text: string, voice: string, speed: real, splitPattern: string)

  /** One item the pipeline yields: graphemes, phonemes and a chunk of audio. */
  datatype Chunk = Chunk(graphemes: string, phonemes: string, audio: seq<real>)

  /** np.concatenate of the chunks' audio, in the order they were yielded. */
  function Merge(chunks: seq<Chunk>): seq<real> {
    if chunks == [] then [] else Merge(chunks[..|chunks| - 1]) + chunks[|chunks| - 1].audio
  }

  /** The sum of the chunk lengths. */
  function TotalLength(chunks: seq<Chunk>): nat {
    if chunks == [] then 0 else TotalLength(chunks[..|chunks| - 1]) + |chunks[|chunks| - 1].audio|
  }

  const SampleRate := 24000

  function OutputPath(cwd: Path, uuid: string): Path {
    ScriptDir(cwd, uuid).Join("final.wav")
  }

  /** What save_audio raises, in order: the mkdir of the script's directory, the
      concatenation of no chunk at all, and the sound file writer given a directory
      for final.wav. */
  function SaveOutcome(cwd: Path, uuid: string, chunks: seq<Chunk>, files: map<Path, Blob>, dirs: set<Path>): Outcome {
    var made := MakeDirOutcome(files, dirs, ScriptDir(cwd, uuid));
    if made.Fail? then made
    else if chunks == [] then Fail(ValueError("need at least one array to concatenate"))
    else if IsDirIn(dirs, OutputPath(cwd, uuid)) then Fail(LibraryError("soundfile", OutputPath(cwd, uuid).ToString()))
    else Pass
  }

  /** What save_audio leaves: the script's directory once its mkdir returned, even
      when a later line raises, and final.wav only when nothing raised. */
  function SaveState(cwd: Path, uuid: string, chunks: seq<Chunk>, s: Snapshot): Snapshot
  {
    Snapshot(
      if SaveOutcome(cwd, uuid, chunks, s.files, s.dirs).Pass?
      then s.files[OutputPath(cwd, uuid) := AudioFile(Merge(chunks), SampleRate)] else s.files,
      if MakeDirOutcome(s.files, s.dirs, ScriptDir(cwd, uuid)).Pass? then s.dirs + {ScriptDir(cwd, uuid)} else s.dirs)
  }

  /** save_audio writes only final.wav and makes only the script directory; a failure
      writes nothing, and a success leaves the merged chunks at 24000 Hz. */
  lemma SaveStateFrame(cwd: Path, uuid: string, chunks: seq<Chunk>, s: Snapshot)
    ensures var r := SaveState(cwd, uuid, chunks, s);
      && SameExcept(s.files, r.files, {OutputPath(cwd, uuid)})
      && r.dirs - s.dirs <= {ScriptDir(cwd, uuid)}
      && (SaveOutcome(cwd, uuid, chunks, s.files, s.dirs).Fail? ==> r.files == s.files)
      && (SaveOutcome(cwd, uuid, chunks, s.files, s.dirs).Pass? ==>
            && OutputPath(cwd, uuid) in r.files
            && r.files[OutputPath(cwd, uuid)] == AudioFile(Merge(chunks), SampleRate)
            && ScriptDir(cwd, uuid) in r.dirs)
  {
  }

  /** The merged buffer is exactly as long as all the chunks together. */
  lemma {:induction false} MergeLength(chunks: seq<Chunk>)
    ensures |Merge(chunks)| == TotalLength(chunks)
    decreases |chunks|
  {
    if chunks != [] {
      MergeLength(chunks[..|chunks| - 1]);
    }
  }

  /** Merging a prefix gives a prefix of the merge. */
  lemma {:induction false} MergePrefix(chunks: seq<Chunk>, i: nat)
    requires i <= |chunks|
    ensures |Merge(chunks[..i])| <= |Merge(chunks)|
    ensures Merge(chunks)[..|Merge(chunks[..i])|] == Merge(chunks[..i])
    decreases |chunks| - i
  {
    if i < |chunks| {
      var p := chunks[..|chunks| - 1];
      assert chunks[..i] == p[..i];
      MergePrefix(p, i);
      var m := Merge(p);
      assert Merge(chunks) == m + chunks[|chunks| - 1].audio;
      assert Merge(chunks)[..|m|] == m;
    } else {
      assert chunks[..i] == chunks;
    }
  }

  /** Chunk i occupies the samples right after those of chunks 0..i-1. */
  lemma {:induction false} ChunkPlacement(chunks: seq<Chunk>, i: nat)
    requires i < |chunks|
    ensures var at := TotalLength(chunks[..i]);
      && at + |chunks[i].audio| <= |Merge(chunks)|
      && Merge(chunks)[at..at + |chunks[i].audio|] == chunks[i].audio
  {
    var at := TotalLength(chunks[..i]);
    var q := chunks[..i + 1];
    assert q[..i] == chunks[..i] && q[i] == chunks[i];
    var head := Merge(chunks[..i]);
    assert Merge(q) == head + chunks[i].audio;
    MergeLength(chunks[..i]);
    MergePrefix(chunks, i + 1);
    assert Merge(q)[at..at + |chunks[i].audio|] == chunks[i].audio;
  }

  class KokoroVoice {
    const text: string
    const voice: string
    const langCode: string
    const speed: real
    const cls: VoiceClass
    /** The instance attribute _pipeline: absent until get_pipeline first assigns it. */
    var own: Option<KPipeline>

    /** KokoroVoice(text, voice="am_liam", lang_code="a", speed=1). */
    constructor (text: string, voice: string, langCode: string, speed: real, cls: VoiceClass)
      ensures this.text == text && this.voice == voice && this.langCode == langCode && this.speed == speed
      ensures this.cls == cls && own == None
    {
      this.text := text;
      this.voice := voice;
      this.langCode := langCode;
      this.speed := speed;
      this.cls := cls;
      own := None;
    }

    /** self._pipeline: the instance attribute when it has been set, else the class one. */
    function Pipeline(): Option<KPipeline>
      reads this, cls
    {
      if own.Some? then own else cls.pipeline
    }

    /** get_pipeline: builds a pipeline only while none is visible, and stores it on the
        instance; the class attribute is not written. */
    method GetPipeline() returns (p: KPipeline)
      modifies this
      ensures old(Pipeline()).Some? ==> p == old(Pipeline()).value && own == old(own)
      ensures old(Pipeline()).None? ==> fresh(p) && p.langCode == langCode && own == Some(p)
      ensures Pipeline() == Some(p) && cls.pipeline == old(cls.pipeline)
    {
      if Pipeline().None? {
        p := new KPipeline(langCode);
        own := Some(p);
      } else {
        p := Pipeline().value;
      }
    }

    /** synthesize: the pipeline runs on the stored text, voice and speed, split at runs
        of newlines. */
    method Synthesize() returns (c: SynthesisCall)
      modifies this
      ensures Pipeline() == Some(c.pipeline)
      ensures old(Pipeline()).Some? ==> c.pipeline == old(Pipeline()).value
      ensures c.text == text && c.voice == voice && c.speed == speed && c.splitPattern == "\\n+"
    {
      var p := GetPipeline();
      c := SynthesisCall(p, text, voice, speed, "\\n+");
    }

    /** save_audio(uuid, generator): makes the script's directory (its parent must
        exist), joins the chunks in order and writes them as final.wav at 24 kHz. */
    method SaveAudio(cwd: Path, uuid: string, chunks: seq<Chunk>, fs: FileSystem) returns (o: Outcome)
      requires fs.Valid()
      modifies fs
      ensures fs.Valid()
      ensures o == SaveOutcome(cwd, uuid, chunks, old(fs.files), old(fs.dirs))
      ensures fs.State() == SaveState(cwd, uuid, chunks, old(fs.State()))
    {
      var dir := ScriptDir(cwd, uuid);
      o := fs.MakeDir(dir);
      if o.Fail? {
        return;
      }
      var merged: seq<real> := [];
      var i := 0;
      while i < |chunks|
        invariant 0 <= i <= |chunks|
        invariant merged == Merge(chunks[..i])
      {
        assert chunks[..i + 1][..i] == chunks[..i];
        merged := merged + chunks[i].audio;
        i := i + 1;
      }
      assert chunks[..|chunks|] == chunks;
      if |chunks| == 0 {
        return Fail(ValueError("need at least one array to concatenate"));
      }
      JoinDistinct(dir, "final.wav", "");
      o := fs.Write(dir.Join("final.wav"), AudioFile(merged, SampleRate));
      if o.Fail? {
        o := Fail(LibraryError("soundfile", OutputPath(cwd, uuid).ToString()));
      }
    }
  }

  /** Two voices built on the same class each build their own pipeline, because the
      cache is stored on the instance. */
  method SeparateInstances(text: string) returns (p1: KPipeline, p2: KPipeline)
    ensures p1 != p2
  {
    var cls := new VoiceClass();
    var v1 := new KokoroVoice(text, "am_liam", "a", 1.0, cls);
    var v2 := new KokoroVoice(text, "am_liam", "a", 1.0, cls);
    p1 := v1.GetPipeline();
    p2 := v2.GetPipeline();
  }

  /** Later calls on one voice reuse its pipeline. */
  method SameInstance(text: string) returns (p1: KPipeline, p2: KPipeline)
    ensures p1 == p2
  {
    var cls := new VoiceClass();
    var v := new KokoroVoice(text, "am_liam", "a", 1.0, cls);
    p1 := v.GetPipeline();
    p2 := v.GetPipeline();
  }
}
