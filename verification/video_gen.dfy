/** The compositing service: which window of a stock clip is used, how it is cropped
    to 9:16, the ffmpeg arguments that burn the subtitles in, and generate(), which
    ties these together. The media library is opaque: it only reads durations and
    frame sizes from files and is asked to render a window of a clip. */
module VideoGen {
  import opened Wrappers
  import opened Paths
  import opened Files
  import Text

  // ---------------------------------------------------------------------------
  // The trim window

  /** What random.random() returns. */
  type Draw = r: real | 0.0 <= r < 1.0

  /** random.uniform(lo, hi) for the draw d. */
  function Uniform(lo: real, hi: real, d: Draw): real {
    lo + (hi - lo) * d
  }

  /** The start of the window: 0 when the clip is no longer than the audio, otherwise
      a uniform draw in [0, video - audio]. */
  function StartPoint(videoDuration: real, audioLength: real, d: Draw): (s: real)
    ensures videoDuration <= audioLength ==> s == 0.0
    ensures videoDuration > audioLength ==> 0.0 <= s < videoDuration - audioLength
  {
    if videoDuration <= audioLength then 0.0
    else
      ScaleBelow(videoDuration - audioLength, d);
      Uniform(0.0, videoDuration - audioLength, d)
  }

  lemma {:induction false} ScaleBelow(m: real, d: Draw)
    requires m > 0.0
    ensures 0.0 <= Uniform(0.0, m, d) < m
  {
    var u := Uniform(0.0, m, d);
    assert m - u == m * (1.0 - d);
    PositiveProduct(m, 1.0 - d);
  }

  lemma {:induction false} QuotientBelowOne(s: real, m: real)
    requires 0.0 <= s < m
    ensures 0.0 <= s / m < 1.0
  {
  }

  lemma {:induction false} PositiveProduct(x: real, y: real)
    requires x > 0.0 && y > 0.0
    ensures x * y > 0.0
  {
  }

  /** Every start in [0, video - audio) is the start for some draw. */
  lemma {:induction false} StartPointReachable(videoDuration: real, audioLength: real, s: real)
    requires videoDuration > audioLength && 0.0 <= s < videoDuration - audioLength
    ensures exists d: Draw :: StartPoint(videoDuration, audioLength, d) == s
  {
    var m := videoDuration - audioLength;
    var q := s / m;
    assert q * m == s;
    QuotientBelowOne(s, m);
    var d: Draw := q;
    assert StartPoint(videoDuration, audioLength, d) == q * m;
  }

  // ---------------------------------------------------------------------------
  // The 9:16 centre crop

  /** The crop get_stock_video_and_cut_to_length applies to a w x h frame: a frame wider
      than 9:16 loses columns, any other loses rows, and the kept part is centred. The
      float expressions of the source are restated over integers; AspectTest and
      CropSizes show the two agree. */
  function Crop(w: Dim, h: Dim): (r: Rect)
    ensures 0 <= r.x1 <= r.x2 <= w && 0 <= r.y1 <= r.y2 <= h
    ensures 16 * w > 9 * h ==> r.y1 == 0 && r.y2 == h
    ensures 16 * w <= 9 * h ==> r.x1 == 0 && r.x2 == w
  {
    if 16 * w > 9 * h then
      var newW := (9 * h) / 16;
      var x1 := (w - newW) / 2;
      Rect(x1, 0, x1 + newW, h)
    else
      var newH := (16 * w) / 9;
      var y1 := (h - newH) / 2;
      Rect(0, y1, w, y1 + newH)
  }

  /** w / h > 1080 / 1920 says the same as 16 w > 9 h. */
  lemma {:induction false} AspectTest(w: Dim, h: Dim)
    ensures (w as real) / (h as real) > 1080.0 / 1920.0 <==> 16 * w > 9 * h
  {
    var a := (w as real) / (h as real);
    assert a * (h as real) == w as real;
    assert 1080.0 / 1920.0 == 0.5625;
    assert 16 * w > 9 * h <==> (w as real) > 0.5625 * (h as real);
    if a > 0.5625 {
      PositiveProduct(a - 0.5625, h as real);
      assert (a - 0.5625) * (h as real) == w as real - 0.5625 * (h as real);
    } else if (w as real) > 0.5625 * (h as real) {
      assert (0.5625 - a) * (h as real) == 0.5625 * (h as real) - w as real;
      if a < 0.5625 {
        PositiveProduct(0.5625 - a, h as real);
      }
    }
  }

  /** int(h * 0.5625) and int(w / 0.5625) are the integer quotients Crop uses. */
  lemma {:induction false} CropSizes(w: Dim, h: Dim)
    ensures ((h as real) * 0.5625).Floor == (9 * h) / 16
    ensures ((w as real) / 0.5625).Floor == (16 * w) / 9
  {
    assert (h as real) * 0.5625 == ((9 * h) as real) / 16.0;
    assert (w as real) / 0.5625 == ((16 * w) as real) / 9.0;
    FloorOfQuotient(9 * h, 16);
    FloorOfQuotient(16 * w, 9);
  }

  lemma {:induction false} FloorOfQuotient(n: nat, m: nat)
    requires m > 0
    ensures ((n as real) / (m as real)).Floor == n / m
  {
    var q, r := n / m, n % m;
    assert n == q * m + r && 0 <= r < m;
    assert (n as real) / (m as real) == q as real + (r as real) / (m as real);
  }

  /** A frame wider than 9:16 keeps its full height and the widest 9:16 strip that fits,
      with side margins that differ by at most one column. */
  lemma {:induction false} CropWide(w: Dim, h: Dim)
    requires 16 * w > 9 * h
    ensures var r := Crop(w, h);
      && 16 * (r.x2 - r.x1) <= 9 * h < 16 * (r.x2 - r.x1 + 1)
      && 0 <= (w - r.x2) - r.x1 <= 1
  {
  }

  /** Any other frame keeps its full width and the tallest 9:16 strip that fits, with
      top and bottom margins that differ by at most one row. */
  lemma {:induction false} CropTall(w: Dim, h: Dim)
    requires 16 * w <= 9 * h
    ensures var r := Crop(w, h);
      && 9 * (r.y2 - r.y1) <= 16 * w < 9 * (r.y2 - r.y1 + 1)
      && 0 <= (h - r.y2) - r.y1 <= 1
  {
  }

  /** A 1920 x 1080 landscape clip keeps columns 656 to 1263 (607 wide). */
  lemma {:induction false} CropLandscape()
    ensures Crop(1920, 1080) == Rect(656, 0, 1263, 1080)
  {
  }

  /** A frame that is already 9:16 is kept whole. */
  lemma {:induction false} CropExact(w: Dim, h: Dim)
    requires 16 * w == 9 * h
    ensures Crop(w, h) == Rect(0, 0, w, h)
  {
    assert (16 * w) / 9 == h;
  }

  // ---------------------------------------------------------------------------
  // Escaping the subtitle path for the filter

  /** str.replace(c, by) for a one-character pattern. */
  function Replace(s: string, c: char, repl: string): (r: string)
    ensures c !in repl ==> c !in r
    ensures c !in s ==> r == s
  {
    if s == [] then [] else (if s[0] == c then repl else [s[0]]) + Replace(s[1..], c, repl)
  }

  /** Backslashes doubled first, then a backslash put before each single quote. */
  function EscapePath(s: string): string {
    Replace(Replace(s, '\\', "\\\\"), '\'', "\\'")
  }

  /** The inverse of EscapePath: a backslash takes the next character literally.
      This is one level of backslash quoting, not ffmpeg's full filtergraph parser. */
  function Unescape(s: string): string
    decreases |s|
  {
    if s == [] then []
    else if s[0] == '\\' && |s| >= 2 then [s[1]] + Unescape(s[2..])
    else [s[0]] + Unescape(s[1..])
  }

  /** The two replacements in one pass, character by character. */
  function EscapeChar(c: char): string {
    if c == '\\' then "\\\\" else if c == '\'' then "\\'" else [c]
  }

  function EscapeEach(s: string): string {
    if s == [] then [] else EscapeChar(s[0]) + EscapeEach(s[1..])
  }

  lemma {:induction false} ReplaceConcat(a: string, b: string, c: char, repl: string)
    ensures Replace(a + b, c, repl) == Replace(a, c, repl) + Replace(b, c, repl)
    decreases |a|
  {
    if a == [] {
      assert a + b == b;
    } else {
      var x := if a[0] == c then repl else [a[0]];
      calc {
        Replace(a + b, c, repl);
        { assert (a + b)[0] == a[0] && (a + b)[1..] == a[1..] + b; }
        x + Replace(a[1..] + b, c, repl);
        { ReplaceConcat(a[1..], b, c, repl); }
        x + (Replace(a[1..], c, repl) + Replace(b, c, repl));
        { Text.SeqAssoc(x, Replace(a[1..], c, repl), Replace(b, c, repl)); }
        Replace(a, c, repl) + Replace(b, c, repl);
      }
    }
  }

  /** Doing the quote replacement after the backslash one is the same as escaping
      each character once: the first pass adds no quotes. */
  lemma {:induction false} EscapePathEach(s: string)
    ensures EscapePath(s) == EscapeEach(s)
    decreases |s|
  {
    if s != [] {
      var first := if s[0] == '\\' then "\\\\" else [s[0]];
      var rest := Replace(s[1..], '\\', "\\\\");
      assert Replace(s, '\\', "\\\\") == first + rest;
      ReplaceConcat(first, rest, '\'', "\\'");
      assert Replace(first, '\'', "\\'") == EscapeChar(s[0]);
      EscapePathEach(s[1..]);
    }
  }

  lemma {:induction false} UnescapeEach(s: string)
    ensures Unescape(EscapeEach(s)) == s
    decreases |s|
  {
    if s != [] {
      var e := EscapeEach(s);
      var tail := EscapeEach(s[1..]);
      assert e == EscapeChar(s[0]) + tail;
      UnescapeEach(s[1..]);
      if s[0] == '\\' || s[0] == '\'' {
        assert e[0] == '\\' && e[1] == s[0] && e[2..] == tail;
      } else {
        assert e[0] == s[0] && e[1..] == tail;
      }
      assert s == [s[0]] + s[1..];
    }
  }

  /** Unescape inverts EscapePath on every string. */
  lemma {:induction false} EscapeRoundTrip(s: string)
    ensures Unescape(EscapePath(s)) == s
  {
    EscapePathEach(s);
    UnescapeEach(s);
  }

  // ---------------------------------------------------------------------------
  // The ffmpeg arguments

  const Scale := "scale=1080:1920"
  const SubtitlesOpen := ",subtitles='"
  const ForceStyle := "':force_style='FontName=Arial,FontSize=8,PrimaryColour=&H00FFFFFF&,OutlineColour=&H00000000&,OutlineWidth=0.5,Alignment=10,MarginL=0,MarginR=0,MarginV=0'"

  /** The filter export_video chooses: subtitles are burned in exactly when the
      subtitle file exists. */
  function ExportFilter(srtExists: bool, srtPath: Path): (f: VideoFilter)
    ensures f.subtitles.Some? <==> srtExists
    ensures f.subtitles.Some? ==> f.subtitles.value == srtPath
  {
    VideoFilter(if srtExists then Some(srtPath) else None)
  }

  /** The extra ffmpeg arguments for a filter: the scale filter, followed by the
      subtitles filter on the escaped path when there is one. */
  function FfmpegParams(f: VideoFilter): seq<string> {
    match f.subtitles
    case Some(srt) => ["-vf", Scale + SubtitlesOpen + EscapePath(srt.ToString()) + ForceStyle]
    case None => ["-vf", Scale]
  }

  /** The filter always scales to 1080 x 1920; with subtitles, the quoted path between
      the fixed prefix and the style reads back as the subtitle file's path. */
  lemma {:induction false} FilterNamesSubtitles(srtExists: bool, srtPath: Path)
    ensures var p := FfmpegParams(ExportFilter(srtExists, srtPath));
      && |p| == 2 && p[0] == "-vf"
      && |p[1]| >= |Scale| && p[1][..|Scale|] == Scale
      && (!srtExists ==> p[1] == Scale)
    ensures srtExists ==>
      var f := FfmpegParams(ExportFilter(srtExists, srtPath))[1];
      var lo := |Scale + SubtitlesOpen|;
      var hi := |f| - |ForceStyle|;
      && lo <= hi
      && f[..lo] == Scale + SubtitlesOpen && f[hi..] == ForceStyle
      && Unescape(f[lo..hi]) == srtPath.ToString()
  {
    if srtExists {
      var e := EscapePath(srtPath.ToString());
      var f := Scale + SubtitlesOpen + e + ForceStyle;
      assert FfmpegParams(ExportFilter(srtExists, srtPath)) == ["-vf", f];
      var lo := |Scale + SubtitlesOpen|;
      assert f[..lo] == Scale + SubtitlesOpen;
      assert f[..|Scale|] == Scale;
      assert f[lo..|f| - |ForceStyle|] == e;
      assert f[|f| - |ForceStyle|..] == ForceStyle;
      EscapeRoundTrip(srtPath.ToString());
    }
  }

  // ---------------------------------------------------------------------------
  // Reading media and choosing the stock clip

  /** AudioFileClip(path).duration: a readable audio file's length in seconds. */
  function AudioDuration(b: Blob): Option<real> {
    if b.AudioFile? && b.sampleRate > 0 then Some((|b.samples| as real) / (b.sampleRate as real))
    else None
  }

  /** stock_videos_dir.glob("*.*"): the entries of the directory whose name has a dot. */
  function StockCandidates(files: map<Path, Blob>, dirs: set<Path>, dir: Path): (r: set<Path>)
    ensures forall p :: p in r <==> (p in files || p in dirs) && p.parts != [] && p.Parent() == dir && '.' in p.Name()
  {
    set p | p in files.Keys + dirs && p.parts != [] && p.Parent() == dir && '.' in p.Name()
  }

  /** The script's audio: the file the voice stage is meant to produce. */
  function AudioPath(cwd: Path, scriptUuid: string): Path {
    ScriptDir(cwd, scriptUuid).Join("full_script_audio.wav")
  }

  /** The subtitles burned into the video, when that file exists. */
  function SrtPath(cwd: Path, scriptUuid: string): Path {
    ScriptDir(cwd, scriptUuid).Join("final_sub_words.srt")
  }

  function OutputPath(cwd: Path, scriptUuid: string): Path {
    cwd.Join("output").Join(scriptUuid + ".mp4")
  }

  /** AudioFileClip(path) opens the file and reads its duration. */
  predicate AudioReadable(files: map<Path, Blob>, audioPath: Path) {
    audioPath in files && AudioDuration(files[audioPath]).Some?
  }

  /** The clips generate() may use: the one it is given, or any entry random.choice
      can return from the stock directory. */
  predicate Picks(stockVideoPath: Option<Path>, files: map<Path, Blob>, dirs: set<Path>, stockDir: Path, source: Path) {
    if stockVideoPath.Some? then source == stockVideoPath.value else source in StockCandidates(files, dirs, stockDir)
  }

  /** The render export_video asks for: the trimmed, cropped clip with the script's
      audio, H.264 and AAC, and the subtitle filter when the subtitles exist. */
  function RenderOf(source: Path, clip: Blob, audioPath: Path, audioLength: real, d: Draw,
                    srtPath: Path, srtExists: bool): (r: Render)
    requires clip.Footage?
    ensures r.source == source && r.audio == audioPath
    ensures r.end - r.start == audioLength
    ensures clip.duration > audioLength ==> 0.0 <= r.start && r.end < clip.duration
    ensures clip.duration <= audioLength ==> r.start == 0.0
  {
    var start := StartPoint(clip.duration, audioLength, d);
    Render(source, start, start + audioLength, Crop(clip.width, clip.height), audioPath,
           "libx264", "aac", ExportFilter(srtExists, srtPath))
  }

  /** What generate() raises and leaves once `source` is the clip chosen, in the
      order the source meets them: the unreadable audio, the empty stock directory,
      a clip that does not decode, and the writer's failure. */
  function GenerateEffect(audioPath: Path, outputPath: Path, stockDir: Path, srtPath: Path,
                          stockVideoPath: Option<Path>, d: Draw, files: map<Path, Blob>, dirs: set<Path>,
                          source: Path): (Outcome, map<Path, Blob>)
  {
    if !AudioReadable(files, audioPath) then (Fail(LibraryError("moviepy", audioPath.ToString())), files)
    else if stockVideoPath.None? && StockCandidates(files, dirs, stockDir) == {} then
      (Fail(FileNotFoundError("No stock videos found in " + stockDir.ToString())), files)
    else if source !in files || !files[source].Footage? then (Fail(LibraryError("moviepy", source.ToString())), files)
    else if WriteOutcome(files, dirs, outputPath).Fail? then (Fail(LibraryError("ffmpeg", outputPath.ToString())), files)
    else
      var render := RenderOf(source, files[source], audioPath, AudioDuration(files[audioPath]).value, d,
                             srtPath, ExistsIn(files, dirs, srtPath));
      (Pass, files[outputPath := VideoFile(render)])
  }

  /** The errors of generate() in the order it meets them, each leaving the files as
      they were, and on success the video at the output path with the clip, the audio
      and the subtitle filter. */
  lemma GenerateEffectCases(audioPath: Path, outputPath: Path, stockDir: Path, srtPath: Path,
                            stockVideoPath: Option<Path>, d: Draw, files: map<Path, Blob>, dirs: set<Path>,
                            source: Path)
    ensures var r := GenerateEffect(audioPath, outputPath, stockDir, srtPath, stockVideoPath, d, files, dirs, source);
      var picked := stockVideoPath.Some? || StockCandidates(files, dirs, stockDir) != {};
      var footage := source in files && files[source].Footage?;
      && (r.0.Fail? ==> r.1 == files)
      && (!AudioReadable(files, audioPath) ==> r.0 == Fail(LibraryError("moviepy", audioPath.ToString())))
      && (AudioReadable(files, audioPath) && !picked ==>
            r.0 == Fail(FileNotFoundError("No stock videos found in " + stockDir.ToString())))
      && (AudioReadable(files, audioPath) && picked && !footage ==>
            r.0 == Fail(LibraryError("moviepy", source.ToString())))
      && (AudioReadable(files, audioPath) && picked && footage && WriteOutcome(files, dirs, outputPath).Fail? ==>
            r.0 == Fail(LibraryError("ffmpeg", outputPath.ToString())))
      && (r.0.Pass? <==> AudioReadable(files, audioPath) && picked && footage && WriteOutcome(files, dirs, outputPath).Pass?)
      && (r.0.Pass? ==>
            && SameExcept(files, r.1, {outputPath})
            && outputPath in r.1 && r.1[outputPath].VideoFile?
            && r.1[outputPath].render.source == source
            && r.1[outputPath].render.audio == audioPath
            && r.1[outputPath].render.filter == ExportFilter(ExistsIn(files, dirs, srtPath), srtPath))
  {
  }

  class VideoGeneration {
    const scriptUuid: string
    const audioPath: Path
    const outputPath: Path
    const stockVideosDir: Path
    const srtPath: Path

    /** __init__ up to its last line: the paths depend only on the working directory
        and the script id. The directory it then makes is MakeOutputDir. */
    constructor (cwd: Path, scriptUuid: string)
      ensures this.scriptUuid == scriptUuid
      ensures audioPath == AudioPath(cwd, scriptUuid) && srtPath == SrtPath(cwd, scriptUuid)
      ensures outputPath == OutputPath(cwd, scriptUuid) && stockVideosDir == cwd.Join("stock_videos")
    {
      this.scriptUuid := scriptUuid;
      audioPath := AudioPath(cwd, scriptUuid);
      outputPath := OutputPath(cwd, scriptUuid);
      stockVideosDir := cwd.Join("stock_videos");
      srtPath := SrtPath(cwd, scriptUuid);
    }

    /** The last line of __init__: output_path.parent.mkdir(parents=True, exist_ok=True). */
    method MakeOutputDir(fs: FileSystem) returns (o: Outcome)
      requires fs.Valid()
      modifies fs
      ensures fs.Valid()
      ensures fs.files == old(fs.files)
      ensures o == MakeDirsOutcome(old(fs.files), outputPath.Parent())
      ensures fs.dirs == if o.Pass? then old(fs.dirs) + AncestorsAndSelf(outputPath.Parent()) else old(fs.dirs)
    {
      o := fs.MakeDirs(outputPath.Parent());
    }

    /** generate(): read the audio, pick the clip (the given one, or any entry of the
        stock directory), trim and crop it, and write the video. The random choice of
        clip is the `:|` below; the random start is the draw d. */
    method Generate(fs: FileSystem, stockVideoPath: Option<Path>, d: Draw) returns (o: Outcome, ghost source: Path)
      requires fs.Valid()
      modifies fs
      ensures fs.Valid()
      ensures fs.dirs == old(fs.dirs)
      ensures (o, fs.files) == GenerateEffect(audioPath, outputPath, stockVideosDir, srtPath, stockVideoPath, d,
                                              old(fs.files), old(fs.dirs), source)
      ensures AudioReadable(old(fs.files), audioPath)
              && (stockVideoPath.Some? || StockCandidates(old(fs.files), old(fs.dirs), stockVideosDir) != {}) ==>
                Picks(stockVideoPath, old(fs.files), old(fs.dirs), stockVideosDir, source)
    {
      source := audioPath;
      if audioPath !in fs.files || AudioDuration(fs.files[audioPath]).None? {
        return Fail(LibraryError("moviepy", audioPath.ToString())), source;
      }
      var audioLength := AudioDuration(fs.files[audioPath]).value;
      var chosen: Path;
      if stockVideoPath.None? {
        var candidates := StockCandidates(fs.files, fs.dirs, stockVideosDir);
        if candidates == {} {
          return Fail(FileNotFoundError("No stock videos found in " + stockVideosDir.ToString())), source;
        }
        chosen :| chosen in candidates;
      } else {
        chosen := stockVideoPath.value;
      }
      source := chosen;
      if chosen !in fs.files || !fs.files[chosen].Footage? {
        return Fail(LibraryError("moviepy", chosen.ToString())), source;
      }
      var render := RenderOf(chosen, fs.files[chosen], audioPath, audioLength, d, srtPath, fs.Exists(srtPath));
      var written := fs.Write(outputPath, VideoFile(render));
      if written.Fail? {
        return Fail(LibraryError("ffmpeg", outputPath.ToString())), source;
      }
      o := Pass;
    }
  }
}
