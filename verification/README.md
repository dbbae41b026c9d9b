# storytelling_videos in Dafny

This project models the core of storytelling_videos, a service that turns a written
story into a short vertical video. The pipeline has three stages:

1. Text to speech with Kokoro.
2. Word-level SRT subtitles with WhisperX.
3. A clip cut from a stock video, cropped to 9:16, with the narration laid over it and
   the subtitles burned in.

Around the pipeline sit a text preprocessor, an older Whisper-based subtitle
generator, and the application settings.

The model works over a file system held as values. A `Files.FileSystem` object has a
map from path to file contents and a set of directories. Each service that writes
files is a class whose methods change that object. A method's contract ties its
result and the new files, directories and loaded models to a function of the old
ones (`Kokoro.SaveState`, `WhisperX.WordLevelSrt`, `VideoGen.GenerateEffect`,
`Pipeline.VideoPipeline.TtsSpec`, `Pipeline.VideoPipeline.PipelineSpec` and
others), and lemmas state what those functions promise. The following are
parameters of the operations that use them:

- the speech synthesiser, the speech recogniser and the aligner (`Synthesizer`,
  `WhisperX.Transcriber`, `Whisper.Transcriber`);
- whether a model loader raises (`WhisperX.LoadFaults`, and the `loadFault` argument
  of the Whisper generator);
- the random draw used for the clip's start point (`VideoGen.Draw`, a real number in
  [0, 1));
- pydantic's reading of a boolean (`Config.BoolParser`).

Modules, one per source file plus shared helpers:

| file | module | models |
|---|---|---|
| wrappers.dfy | Wrappers | `Option`, `Result`, `Outcome`, and the exceptions the core raises |
| text.dfy | Text | `str.isspace`, `strip`, `"\n".join`, `str.split`, the `02d`/`03d` integer formats and a parser for them |
| paths.dfy | Paths | pathlib paths: `/`, `.parent`, `.name`, `.stem`, `str()` |
| files.dfy | Files | the file system, `mkdir` with and without `parents=True`, writing a file |
| preprocess.dfy | Preprocess | `remove_links`, `remove_emojis`, `remove_special_chars`, `preprocess_text` |
| srt.dfy | Srt | `format_timestamp` and the SRT captions both subtitle services build |
| whisperx.dfy | WhisperX | `WhisperXSubtitleGenerator` and its shared models |
| whisper.dfy | Whisper | `WhisperSubtitleGenerator` |
| video_gen.dfy | VideoGen | `VideoGeneration`: start point, crop, ffmpeg filter, `generate` |
| kokoro.dfy | Kokoro | `KokoroVoice`: the lazily built pipeline and `save_audio` |
| pipeline.dfy | Pipeline | `VideoPipeline`: the three stages and the result records |
| config.dfy | Config | `Settings`, `ensure_mongo_uri`, `get_settings` |

What the proofs establish:

- **Timestamps.** `format_timestamp` produces text that reads back as its hours,
  minutes, seconds and milliseconds. Those fields add up to the time in milliseconds,
  rounded down.
- **SRT document.** Split at newlines, the document gives back each caption's number,
  timing line, word and blank line.
- **ffmpeg filter.** The escaped path in the filter has an inverse: one level of
  backslash unescaping gives back the path.
- **Crop.** The crop window keeps the full height of a wide clip, or the full width
  of a tall one, and is as close to 9:16 as whole pixels allow.
- **Text preprocessing.**
  - Link removal is idempotent.
  - The whole of `preprocess_text` is not: `"w*ww.a"` becomes `"www.a"`, and then `""`.
- **Kokoro.** Each chunk lands in the merged waveform right after the ones before it.
  A voice's pipeline is cached on the instance, not on the class.
- **Settings.** They fail exactly when a required value is missing or malformed, and
  the error names every failing field.
- **The pipeline.**
  - Each stage re-raises what failed and stops the run.
  - On success the result record combines the stages' outputs.
  - Only the file each stage writes changes.

The stages disagree on file names, and the model keeps the names as written:

- The voice stage writes `final.wav`. The subtitle and video stages read
  `full_script_audio.wav`.
- The subtitle stage writes `full_sub_words.srt`. The video stage burns in
  `final_sub_words.srt`.

The lemmas `Pipeline.VideoPipeline.PipelineNeedsInputAudio`,
`Pipeline.VideoPipeline.PipelineVideo` and `Pipeline.VideoPipeline.VideoStage` state
the consequences:

- A run fails unless `full_script_audio.wav` was already there.
- The rendered video takes its audio from `full_script_audio.wav`, not from what the
  voice stage wrote.
- Subtitles are burned in only when `final_sub_words.srt` existed before the video
  stage.

## Model

| member | source | states |
|---|---|---|
| Text.LeadingSpaces | storytelling_videos/services/whisperx_service.py:117 | the count of leading whitespace characters (Python's `isspace`): all of them are whitespace, and the next character is not |
| Text.TrailingSpaces | storytelling_videos/services/whisperx_service.py:117 | the count of trailing whitespace characters: all of them are whitespace, and the one before them is not |
| Text.Strip | storytelling_videos/services/whisperx_service.py:117 | `str.strip()` is no longer than its input, and is empty or starts and ends with a non-whitespace character |
| Text.StripSlice | storytelling_videos/services/whisperx_service.py:117 | the stripped text is a contiguous slice of the input, and everything cut off on either side is whitespace |
| Text.StripEmpty | storytelling_videos/services/whisperx_service.py:121 | a word strips to the empty string exactly when it is all whitespace, which is when the caption loop skips it |
| Text.NatToString | storytelling_videos/services/whisperx_service.py:126 | `str(n)` is a non-empty digit string with no leading zero, of one, two or three digits for n below 10, 100 and 1000 |
| Text.NatToStringValue | storytelling_videos/services/whisperx_service.py:126 | the digits of `str(n)` denote n |
| Text.PadLeft | storytelling_videos/services/whisperx_service.py:89 | zero padding yields `max(width, len)` characters: fill characters, then the original |
| Text.PadLeftValue | storytelling_videos/services/whisperx_service.py:89 | zero padding a digit string keeps it a digit string with the same value |
| Text.FormatIntRoundTrip | storytelling_videos/services/whisperx_service.py:89 | the `0<width>d` format of any integer, negative ones included, parses back to that integer |
| Text.FormatIntDigits | storytelling_videos/services/whisperx_service.py:89 | a non-negative integer is written as a non-empty digit string that denotes it |
| Text.FormatIntWidth | storytelling_videos/services/whisperx_service.py:89 | below 100 (for `02d`) or 1000 (for `03d`) the format is exactly 2 or 3 digits |
| Text.FormatIntChars | storytelling_videos/services/whisperx_service.py:89 | the format writes only digits and a minus sign |
| Text.Join | storytelling_videos/services/whisperx_service.py:136 | `sep.join` of no items is "", and of one item is that item |
| Text.Split | storytelling_videos/services/whisperx_service.py:136 | `str.split(sep)` always returns at least one piece (the reading-back partner of the join) |
| Text.SplitConcat | storytelling_videos/services/whisperx_service.py:136 | splitting `a + sep + b` splits a and b separately |
| Text.SplitJoin | storytelling_videos/services/whisperx_service.py:136 | splitting `sep.join(items)` at sep splits every item in turn, in order |
| Text.LastIndexOf | storytelling_videos/services/whisper_service.py:74 | the last position of a character, or -1: no later position holds it |
| Paths.Path.Stem | storytelling_videos/services/whisper_service.py:74 | pathlib's `.stem` is a prefix of the name; when it is shorter, the cut is at the last dot, which is neither the first nor the last character |
| Paths.JoinDistinct | storytelling_videos/services/whisperx_service.py:28-34 | two different names in one directory give two different paths, neither equal to the directory |
| Paths.AncestorsAndSelf | storytelling_videos/services/whisperx_service.py:133 | the directories `mkdir(parents=True)` creates: the path itself and only its prefixes |
| Paths.AncestorsAndSelfParent | storytelling_videos/services/whisperx_service.py:133 | the directories made for a path are those made for its parent, plus the path itself |
| Files.FileSystem.MakeDirs | storytelling_videos/services/whisperx_service.py:133 | `mkdir(parents=True, exist_ok=True)`: FileExistsError when the path is a file, NotADirectoryError when a file lies on the way, and then nothing changes; otherwise the directory and every ancestor are added and the files are left alone; the file tree stays well formed |
| Files.FileSystem.MakeDir | storytelling_videos/services/voice_kokoro_service.py:38 | `mkdir(exist_ok=True)` without parents: FileExistsError when the path is a file; success when the directory or its parent exists; NotADirectoryError when the parent is a file; otherwise FileNotFoundError; a failure changes nothing |
| Files.FileSystem.Write | storytelling_videos/services/whisperx_service.py:135-136 | `open(path, "w")`: IsADirectoryError on a directory, NotADirectoryError when the parent is a file, FileNotFoundError when it is missing, and then nothing changes; otherwise exactly that path's contents are replaced |
| Files.NoFileAboveDir | storytelling_videos/services/whisperx_service.py:133 | in a well-formed tree no file lies on the way to a directory, so making an existing directory again succeeds |
| Files.MakeDirsKeepsTree | storytelling_videos/services/whisperx_service.py:133 | adding a path and its ancestors as directories keeps the tree well formed when no file lies on the way |
| Preprocess.TokenLength | storytelling_videos/services/preprocess_text_service.py:6 | the length of the longest run of non-whitespace characters (`\S+`) at the front |
| Preprocess.LinkTokenPrefixes | storytelling_videos/services/preprocess_text_service.py:6 | a run is a link exactly when it starts with "http://", "https://" or "www." and has at least one more character |
| Preprocess.RemoveLinks | storytelling_videos/services/preprocess_text_service.py:5-6 | `re.sub(r"https?://\S+\|www\.\S+", "", text)` never lengthens the text |
| Preprocess.RemoveLinksSubsequence | storytelling_videos/services/preprocess_text_service.py:5-6 | link removal only deletes characters: the result is a subsequence of the input |
| Preprocess.RemoveLinksNoMatch | storytelling_videos/services/preprocess_text_service.py:5-6 | text on which the pattern matches nowhere comes back unchanged |
| Preprocess.RemoveLinksNoPrefix | storytelling_videos/services/preprocess_text_service.py:5-6 | text containing none of "http://", "https://" or "www." comes back unchanged |
| Preprocess.RemoveLinksFirstMatch | storytelling_videos/services/preprocess_text_service.py:5-6 | the text before the leftmost match is kept, and the matched run up to the next whitespace is deleted |
| Preprocess.RemoveLinksLeavesNoMatch | storytelling_videos/services/preprocess_text_service.py:5-6 | after removal the pattern matches at no position of the result |
| Preprocess.RemoveLinksIdempotent | storytelling_videos/services/preprocess_text_service.py:5-6 | removing links twice is the same as removing them once |
| Preprocess.Delete | storytelling_videos/services/preprocess_text_service.py:11 | deleting the characters of a class yields a subsequence no longer than the input |
| Preprocess.DeleteCounts | storytelling_videos/services/preprocess_text_service.py:16 | each deleted character occurs zero times afterwards, and every other character as often as before |
| Preprocess.RemoveEmojis | storytelling_videos/services/preprocess_text_service.py:10-11 | no code point at or above U+10000 is left, and every other character keeps its count |
| Preprocess.RemoveSpecialChars | storytelling_videos/services/preprocess_text_service.py:15-16 | no `*` is left, and every other character keeps its count |
| Preprocess.CollapseSpaces | storytelling_videos/services/preprocess_text_service.py:24 | `re.sub(r"\s+", " ", text)` is empty only for empty text, and starts with whitespace exactly when the input does |
| Preprocess.CollapseSpacesSingleSpaced | storytelling_videos/services/preprocess_text_service.py:24 | after collapsing, the only whitespace is the space character, never twice in a row |
| Preprocess.CollapseSpacesNonSpace | storytelling_videos/services/preprocess_text_service.py:24 | collapsing keeps every non-whitespace character, in order |
| Preprocess.CollapseAndStrip | storytelling_videos/services/preprocess_text_service.py:24 | the collapsed and stripped text is empty or starts and ends with a non-whitespace character |
| Preprocess.CollapseAndStripShape | storytelling_videos/services/preprocess_text_service.py:24 | the result is trimmed and single-spaced, and has the same non-whitespace characters in the same order |
| Preprocess.NoSpaceFixed | storytelling_videos/services/preprocess_text_service.py:24 | text without whitespace passes the last step unchanged |
| Preprocess.PreprocessText | storytelling_videos/services/preprocess_text_service.py:20-25 | preprocessing never lengthens the text |
| Preprocess.PreprocessTextShape | storytelling_videos/services/preprocess_text_service.py:20-25 | the output has no `*` and no astral character, and is trimmed and single-spaced |
| Preprocess.HiddenLinkKept | storytelling_videos/services/preprocess_text_service.py:5-6 | "w*ww.a" holds no link while the asterisk is still in it |
| Preprocess.HiddenLinkUncovered | storytelling_videos/services/preprocess_text_service.py:10-16 | dropping emojis and then asterisks turns "w*ww.a" into "www.a" |
| Preprocess.FirstPassOfExample | storytelling_videos/services/preprocess_text_service.py:20-25 | `preprocess_text("w*ww.a")` is "www.a": the link is formed only after links were removed |
| Preprocess.PreprocessTextNotIdempotent | storytelling_videos/services/preprocess_text_service.py:20-25 | a second pass changes the output of the first: "www.a" then becomes "" |
| Srt.FloorDiv | storytelling_videos/services/whisperx_service.py:85-86 | Python's `//` on floats: the integer q with q <= x/m < q + 1 |
| Srt.Trunc | storytelling_videos/services/whisperx_service.py:85-88 | `int()` truncates toward zero, for negative values too |
| Srt.TimestampFields | storytelling_videos/services/whisperx_service.py:82-89 | minutes and seconds are in [0, 60) and milliseconds in [0, 1000); hours are non-negative for non-negative times |
| Srt.TimestampDecomposition | storytelling_videos/services/whisperx_service.py:82-89 | the four fields add up to the time in milliseconds, rounded down |
| Srt.TimestampRoundTrip | storytelling_videos/services/whisperx_service.py:89 | `HH:MM:SS,mmm` parses back to exactly the fields it was written from, for every time, negative ones included |
| Srt.TimestampReadsBackMillis | storytelling_videos/services/whisperx_service.py:82-89 | reading a timestamp back gives the time in whole milliseconds, rounded down |
| Srt.TimestampLayout | storytelling_videos/services/whisperx_service.py:89 | below 100 hours the timestamp is 12 characters: two digits, a colon, two digits, a colon, two digits, a comma, three digits |
| Srt.TimestampExample | storytelling_videos/services/whisperx_service.py:82-89 | 3661.234 seconds is written "01:01:01,234" |
| Srt.TimestampZero | storytelling_videos/services/whisperx_service.py:82-89 | zero seconds is written "00:00:00,000" |
| Srt.CueOf | storytelling_videos/services/whisperx_service.py:117-121 | a word gives a cue exactly when its stripped text is non-empty; the cue holds that text, and a missing start or end counts as 0 |
| Srt.WordCues | storytelling_videos/services/whisperx_service.py:116-129 | a word list yields at most one cue per word |
| Srt.WordCuesConcat | storytelling_videos/services/whisperx_service.py:116-129 | the cues of two word lists one after the other are the cues of each, in order |
| Srt.WordCuesAllKept | storytelling_videos/services/whisperx_service.py:116-129 | when every word is non-blank, cue i is word i, stripped, with its own start and end |
| Srt.WordCuesNoneKept | storytelling_videos/services/whisperx_service.py:121 | blank words yield no cue at all |
| Srt.TranscriptCuesConcat | storytelling_videos/services/whisperx_service.py:112-129 | the cues of two runs of segments are the cues of each, in order |
| Srt.FallbackOnlyForWordless | storytelling_videos/services/whisper_service.py:101-115 | with word lists on every segment, the Whisper fallback changes nothing |
| Srt.WordlessSegment | storytelling_videos/services/whisper_service.py:101-115 | a segment without words gives no cue to WhisperX (`whisperx_service.py:114`), and one cue from its stripped text to Whisper when that text is non-blank |
| Srt.TranscriptCuesTrimmed | storytelling_videos/services/whisperx_service.py:117-121 | every caption's text is non-empty and trimmed |
| Srt.Captions | storytelling_videos/services/whisperx_service.py:125-129 | one caption per cue |
| Srt.CaptionsNumbering | storytelling_videos/services/whisperx_service.py:110-129 | caption i carries number i + 1 (subtitle_index starts at 1 and steps once per kept word) |
| Srt.CaptionsSnoc | storytelling_videos/services/whisperx_service.py:125-129 | appending a cue appends its caption, numbered one past the last |
| Srt.DocumentEmpty | storytelling_videos/services/whisperx_service.py:136 | the written file is empty exactly when no word survived |
| Srt.TimingRoundTrip | storytelling_videos/services/whisperx_service.py:122-126 | the timing line `start --> end` parses back to both timestamps' fields |
| Srt.CaptionSplit | storytelling_videos/services/whisperx_service.py:126 | a caption split at newlines is its number, its timing, its word and an empty line |
| Srt.CaptionsLines | storytelling_videos/services/whisperx_service.py:125-136 | splitting each caption gives four lines per cue, in order |
| Srt.DocumentSplit | storytelling_videos/services/whisperx_service.py:125-136 | the whole file split at newlines gives four lines per cue: number, timing, word, blank |
| Srt.CollectCaptions | storytelling_videos/services/whisperx_service.py:109-129 | the caption loop builds exactly the captions of the transcript's cues |
| Srt.AppendWordCaptions | storytelling_videos/services/whisperx_service.py:116-129 | the inner loop over one segment's words appends that segment's captions and advances the index past them |
| Srt.AppendWordCaption | storytelling_videos/services/whisperx_service.py:117-129 | one word appends its caption and steps the index when it is non-blank, and otherwise changes nothing |
| Srt.AppendCaption | storytelling_videos/services/whisperx_service.py:125-129 | appending one caption with the next index extends the captions by that cue |
| WhisperX.ModelCache.constructor | storytelling_videos/services/whisperx_service.py:17-18 | both class-level models start unset |
| WhisperX.PathsOfScript | storytelling_videos/services/whisperx_service.py:28-34 | the audio and SRT paths are two different files in the script's directory |
| WhisperX.SubtitleGenerator.constructor | storytelling_videos/services/whisperx_service.py:20-40 | the two paths under `saved_audio_kokoro/<uuid>`, the model name and the cpu/int8 settings; the last line, `_load_models()`, is LoadModels |
| WhisperX.SubtitleGenerator.LoadModels | storytelling_videos/services/whisperx_service.py:43-56 | nothing is loaded once `_model` is set; otherwise the first failing loader's error is raised, and a failing alignment loader leaves `_model` set and `_align_model` unset; the new models are `LoadedModels` of the old |
| WhisperX.LoadedModels | storytelling_videos/services/whisperx_service.py:43-56 | a set `_model` is kept with `_align_model`; a passing load leaves `_model` set; `_model` unset implies `_align_model` unset, before and after; from nothing, a passing ASR loader gives the named model on cpu with int8 |
| WhisperX.SubtitleGenerator.Transcribe | storytelling_videos/services/whisperx_service.py:58-80 | a missing audio file is a library error naming it; an unset alignment model is the TypeError of unpacking None; otherwise both models run on the file's contents |
| WhisperX.SubtitleGenerator.GenerateWordLevelSrt | storytelling_videos/services/whisperx_service.py:91-139 | the result and the new files and directories are `WordLevelSrt` of the old ones, for the models the generator finds |
| WhisperX.WordLevelSrtEffects | storytelling_videos/services/whisperx_service.py:91-139 | an existing SRT is returned untouched; an error writes nothing; otherwise the transcription's error is raised as it is, and a written SRT holds the word captions; only the SRT changes, only its parent directories are made, and a success returns its path |
| WhisperX.StuckAfterAlignFailure | storytelling_videos/services/whisperx_service.py:43-70 | after `load_align_model` raised once, the next generator loads nothing and its transcription fails with the unpacking TypeError although the audio file is there |
| Whisper.DefaultSrtPath | storytelling_videos/services/whisper_service.py:72-74 | the default output is `<stem>_words.srt` in the audio file's directory |
| Whisper.DefaultSrtPathIsNotAudio | storytelling_videos/services/whisper_service.py:72-74 | the default output never overwrites the audio file |
| Whisper.SubtitleGenerator.constructor | storytelling_videos/services/whisper_service.py:12-28 | the audio path is kept, and no model is loaded yet |
| Whisper.SubtitleGenerator.Transcribe | storytelling_videos/services/whisper_service.py:30-48 | a failing `whisper.load_model` is raised first, `self.model` keeps its value and the audio is not read; otherwise the named model is stored and run on the audio file, and a missing file is a library error |
| Whisper.SubtitleGenerator.GenerateWordLevelSrt | storytelling_videos/services/whisper_service.py:59-125 | always transcribes; the load failure, the library error for a missing audio file and the transcriber's error are passed on; then the directories of the given or default path are made and the captions, with the per-segment fallback, are written to it; mkdir's and open's errors are passed on, and only that file changes |
| Whisper.AgreesWithWhisperX | storytelling_videos/services/whisper_service.py:83-115 | when every segment has a word list, both services write the same text |
| VideoGen.StartPoint | storytelling_videos/services/video_gen_service.py:45-52 | a clip no longer than the audio starts at 0; a longer one starts in [0, duration - audio length) |
| VideoGen.StartPointReachable | storytelling_videos/services/video_gen_service.py:50-52 | every start point in that range is chosen by some draw |
| VideoGen.RenderOf | storytelling_videos/services/video_gen_service.py:45-56 | the rendered cut takes the chosen clip and the audio file; it is exactly as long as the audio, starts at 0 for a clip no longer than the audio, and lies inside a longer clip |
| VideoGen.Crop | storytelling_videos/services/video_gen_service.py:58-78 | the crop window lies inside the frame; a frame wider than 9:16 keeps its full height, any other its full width |
| VideoGen.AspectTest | storytelling_videos/services/video_gen_service.py:66-69 | `w / h > 1080 / 1920` is the integer test 16w > 9h |
| VideoGen.CropSizes | storytelling_videos/services/video_gen_service.py:71-76 | `int(h * 0.5625)` is 9h div 16 and `int(w / 0.5625)` is 16w div 9 |
| VideoGen.CropWide | storytelling_videos/services/video_gen_service.py:69-73 | a wide frame is cut to the widest 9:16 window the height allows, centred with at most one pixel of imbalance |
| VideoGen.CropTall | storytelling_videos/services/video_gen_service.py:74-78 | a tall frame is cut to the tallest 9:16 window the width allows, centred with at most one pixel of imbalance |
| VideoGen.CropLandscape | storytelling_videos/services/video_gen_service.py:58-78 | a 1920x1080 frame is cut to the columns 656 to 1263 |
| VideoGen.CropExact | storytelling_videos/services/video_gen_service.py:58-78 | an exactly 9:16 frame is kept whole |
| VideoGen.Replace | storytelling_videos/services/video_gen_service.py:99 | `str.replace` of a character: none is left when the replacement lacks it, and text without it is unchanged |
| VideoGen.EscapePathEach | storytelling_videos/services/video_gen_service.py:99 | the two chained replaces escape each backslash and each quote on its own |
| VideoGen.EscapeRoundTrip | storytelling_videos/services/video_gen_service.py:99 | Unescape, the inverse of EscapePath, gives back the path from the escaped one |
| VideoGen.ExportFilter | storytelling_videos/services/video_gen_service.py:93-97 | subtitles are burned in exactly when the SRT file exists, and then from that path |
| VideoGen.FilterNamesSubtitles | storytelling_videos/services/video_gen_service.py:89-106 | the parameters are `-vf` and the scale filter; with subtitles, the filter goes on with `subtitles='…'` holding the escaped path (which unescapes to it) and the fixed force_style |
| VideoGen.StockCandidates | storytelling_videos/services/video_gen_service.py:126-127 | `glob("*.*")`: the entries directly in the stock directory whose name contains a dot |
| VideoGen.VideoGeneration.constructor | storytelling_videos/services/video_gen_service.py:8-23 | the audio, output, stock and SRT paths; the last line, the `mkdir`, is MakeOutputDir |
| VideoGen.VideoGeneration.MakeOutputDir | storytelling_videos/services/video_gen_service.py:24-25 | the output directory is made with its parents, or the mkdir error is raised and nothing changes |
| VideoGen.VideoGeneration.Generate | storytelling_videos/services/video_gen_service.py:119-147 | the outcome and the new files are `GenerateEffect` of the old ones for the clip it picked, which is the given one or an entry of the stock directory; the directories do not change |
| VideoGen.GenerateEffectCases | storytelling_videos/services/video_gen_service.py:119-147 | the errors in the order `generate()` meets them: an unreadable audio file (moviepy, naming it), no stock file (FileNotFoundError naming the directory), a clip that is not footage (moviepy, naming it), a failing write (ffmpeg, naming the output); success exactly when none applies; a failure changes no file; a success writes only the output, a video of the clip with the audio and the subtitle filter |
| Kokoro.VoiceClass.constructor | storytelling_videos/services/voice_kokoro_service.py:10 | the class attribute `_pipeline` starts unset |
| Kokoro.KokoroVoice.constructor | storytelling_videos/services/voice_kokoro_service.py:12-22 | text, voice, language and speed are stored; the instance has no pipeline of its own |
| Kokoro.KokoroVoice.GetPipeline | storytelling_videos/services/voice_kokoro_service.py:24-28 | while no pipeline is visible a fresh one for the voice's language is stored on the instance, never on the class; otherwise the visible one is returned |
| Kokoro.KokoroVoice.Synthesize | storytelling_videos/services/voice_kokoro_service.py:30-34 | the pipeline runs on the stored text, voice and speed, split at runs of newlines |
| Kokoro.KokoroVoice.SaveAudio | storytelling_videos/services/voice_kokoro_service.py:36-46 | the outcome is `SaveOutcome` and the new files and directories are `SaveState` of the old ones: the `mkdir` error comes first; with no chunk, the concatenation ValueError after the directory is made; a directory at `final.wav` is a soundfile error; otherwise `final.wav` is written |
| Kokoro.SaveStateFrame | storytelling_videos/services/voice_kokoro_service.py:36-46 | only `final.wav` changes and only the script directory is made; a failure writes nothing; a success leaves the merged chunks at 24000 Hz in `final.wav` and the script directory |
| Kokoro.MergeLength | storytelling_videos/services/voice_kokoro_service.py:40-45 | the merged waveform is as long as all chunks together |
| Kokoro.MergePrefix | storytelling_videos/services/voice_kokoro_service.py:40-45 | merging the first chunks gives a prefix of the whole merge |
| Kokoro.ChunkPlacement | storytelling_videos/services/voice_kokoro_service.py:40-45 | chunk i occupies the samples right after those of chunks 0 to i - 1 |
| Kokoro.SeparateInstances | storytelling_videos/services/voice_kokoro_service.py:24-28 | two voices each build their own pipeline, since the assignment goes to the instance |
| Kokoro.SameInstance | storytelling_videos/services/voice_kokoro_service.py:24-28 | later calls on one voice reuse its pipeline |
| Pipeline.VideoPipeline.constructor | storytelling_videos/services/pipeline_service.py:20-30 | the script id, its text and the working directory are stored; no stage has run |
| Pipeline.VideoPipeline.GenerateTtsAndSrtAsWritten | storytelling_videos/services/pipeline_service.py:32-80 | step 1 starts and the call always fails with the TypeError for the unexpected keyword `script_uuid` |
| Pipeline.VideoPipeline.RunCompletePipelineAsWritten | storytelling_videos/services/pipeline_service.py:109-154 | the complete pipeline, as written, always re-raises that TypeError after step 1 |
| Pipeline.VideoPipeline.SpeechStep | storytelling_videos/services/pipeline_service.py:50-59 | the outcome and the new files and directories are `SpeechOutcome` and `SpeechState`: `save_audio` on the chunks of add_pauses(script) |
| Pipeline.VideoPipeline.SubtitleStep | storytelling_videos/services/pipeline_service.py:61-67 | the result, the new files and directories and the new models are `SubtitleSpec`: the model load, then `WordLevelSrt` on `full_script_audio.wav` and `full_sub_words.srt` |
| Pipeline.VideoPipeline.GenerateTtsAndSrt | storytelling_videos/services/pipeline_service.py:32-80 | with the source's defaults, the result, files, directories, models and logged steps are those of `TtsSpec` |
| Pipeline.VideoPipeline.GenerateVideo | storytelling_videos/services/pipeline_service.py:82-107 | the result and the new files and directories are `VideoSpec` for the clip it picked, a clip `generate()` may pick; step 3 is logged |
| Pipeline.VideoPipeline.RunCompletePipeline | storytelling_videos/services/pipeline_service.py:109-154 | with the source's defaults, the result, files, directories, models and logged steps are those of `PipelineSpec`, and the clip is one `generate()` may pick once steps 1 and 2 returned |
| Pipeline.VideoPipeline.TtsStages | storytelling_videos/services/pipeline_service.py:46-80 | a failing voice step ends steps 1 and 2 with its error after step 1 only, with the files and models unchanged; otherwise `final.wav` holds the merged chunks and both steps are logged; only `final.wav` and `full_sub_words.srt` change and only the script's directories are made; a success is the record of script id, both paths and "success" |
| Pipeline.VideoPipeline.TtsSubtitles | storytelling_videos/services/pipeline_service.py:61-80 | after the voice step: the models are those the load leaves; a failing load is re-raised; an existing `full_sub_words.srt` is reused and nothing more is written; otherwise `full_script_audio.wav`, as it was before step 1, is transcribed, its error is re-raised and a success's SRT holds its captions |
| Pipeline.VideoPipeline.TtsSucceeds | storytelling_videos/services/pipeline_service.py:46-76 | steps 1 and 2 succeed when the voice step and the load return and the SRT exists or the transcription returns: the directory the voice step makes is where the SRT goes |
| Pipeline.VideoPipeline.TtsLeavesBurnedSrt | storytelling_videos/services/pipeline_service.py:46-80 | steps 1 and 2 neither make nor remove `final_sub_words.srt` |
| Pipeline.VideoPipeline.VideoStage | storytelling_videos/services/pipeline_service.py:92-107 | a failing mkdir of the output directory is re-raised and changes nothing; then an unreadable `full_script_audio.wav` fails; only the video file changes and only the output directories are made; a success's video has the picked clip, that audio and the subtitles of `final_sub_words.srt` exactly when it existed |
| Pipeline.VideoPipeline.PipelineStopsAtFirstFailure | storytelling_videos/services/pipeline_service.py:128-154 | the run re-raises the first failing step's error: the voice step's after step 1 only, with the models unchanged; the load's or the transcription's after steps 1 and 2; the video step's after all three |
| Pipeline.VideoPipeline.PipelineSuccess | storytelling_videos/services/pipeline_service.py:128-150 | a successful run logged all three steps and returns the record of the three file paths and the fixed message |
| Pipeline.VideoPipeline.PipelineSpeech | storytelling_videos/services/pipeline_service.py:46-59 | after a successful run `final.wav` holds the speech of add_pauses(script) |
| Pipeline.VideoPipeline.PipelineVideo | storytelling_videos/services/pipeline_service.py:82-107 | the video of a successful run has the picked clip, the audio of `full_script_audio.wav` and the subtitles of `final_sub_words.srt` exactly when it existed before the run |
| Pipeline.VideoPipeline.PipelineNeedsInputAudio | storytelling_videos/services/pipeline_service.py:46-107 | no run succeeds unless `full_script_audio.wav` was there before it |
| Pipeline.VideoPipeline.PipelineFrame | storytelling_videos/services/pipeline_service.py:46-107 | a run changes no file but `final.wav`, `full_sub_words.srt` and the video |
| Pipeline.VideoPipeline.SameAudio | storytelling_videos/services/pipeline_service.py:58-67 | writing `final.wav` does not change what the transcription of `full_script_audio.wav` returns |
| Pipeline.VideoPipeline.Distinct | storytelling_videos/services/pipeline_service.py:50-67 | the files the stages write and read are different paths |
| Config.EnsureMongoUri | storytelling_videos/core/config_core.py:39-44 | the URI is accepted unchanged exactly when it starts with `mongodb://` or `mongodb+srv://`; otherwise the ValueError with the fixed message |
| Config.MongoUriAccepted | storytelling_videos/core/config_core.py:39-44 | both schemes are accepted and the value is returned as given |
| Config.MongoUriRejected | storytelling_videos/core/config_core.py:39-44 | an upper-case scheme, a missing slash and an empty value are rejected |
| Config.Failures | storytelling_videos/core/config_core.py:13-30 | a field fails exactly when DEBUG is not a boolean, MONGODB_URI is missing or has the wrong scheme, or OPENROUTER_API is missing; no other field can fail |
| Config.LoadSettings | storytelling_videos/core/config_core.py:7-44 | a ValidationError naming the failing fields exactly when one fails; otherwise every field from the environment or its default |
| Config.Defaults | storytelling_videos/core/config_core.py:13-30 | with only the two required values set, the defaults are "StoryTelling", "dev", False, "mongo_sync" and "INFO" |
| Config.RequiredFields | storytelling_videos/core/config_core.py:20-24 | neither required value has a default: leaving both out names both |
| Config.SettingsCache.Get | storytelling_videos/core/config_core.py:47-49 | `lru_cache(maxsize=1)`: the first successful construction is returned ever after, and a failed one is not cached |
| Config.CachedAcrossCalls | storytelling_videos/core/config_core.py:47-49 | a later call returns the first settings even when the environment has changed |

## Left out

- I/O, the audio and video libraries and the models are not modelled.
  - A transcription is a value that `WhisperX.Transcriber` or `Whisper.Transcriber`
    returns for the audio file's contents.
  - The Kokoro chunks are what a `Synthesizer` yields.
  - A probed stock clip is a `Footage` value in the file system.
  - A rendered video records its source, cut, crop, audio and filter instead of
    frames.
- Floating point is modelled as exact reals, so `format_timestamp` is exact where
  IEEE doubles round. Audio samples are reals too.
- Logging, `print` and the `__main__` blocks are left out.
- `add_pauses` is left out: `pipeline_service.py:9` imports it from
  `preprocess_text_service.py`, which does not define it, so the import fails as
  written. The model takes it as an uninterpreted text filter.
- Kokoro: the pipeline's `split_pattern` is recorded, not applied.
- Kokoro: a chunk whose audio is None is not modelled; every chunk carries a
  waveform, possibly empty.
- `get_pipeline` ignores its `lang_code` argument, and the model does too.
- Concurrency is not modelled: calls run one at a time, so the shared models and the
  settings cache see no races.
- Config: the `.env` file, case-insensitive variable names and extra variables are
  not modelled. The environment is one exact-name map.
- Config: pydantic's string-to-bool coercion is the `BoolParser` parameter.
- The module-level `settings = get_settings()` (config_core.py:52) is not modelled;
  the cache object stands for it.
- Config.CachedAcrossCalls: the cached Settings object's identity is modelled as
  equality of values.
- VideoGen.VideoGeneration.Generate: the rendered file stores the structured filter.
  `VideoGen.FfmpegParams` gives the ffmpeg strings for it, and
  `VideoGen.FilterNamesSubtitles` states what they are.
- VideoGen.EscapeRoundTrip: `Unescape` is one level of backslash quoting. ffmpeg's
  multi-level quoting (option value, filter description, filtergraph) is not
  modelled, so the lemma is about the escaping function only.
- Paths: the script uuid is taken to be one plain path component. A `/` inside it
  would split it, and a leading `/` would restart the path, which `Join` does not
  model.
- `__init__` with a failing last line: `VideoGen.VideoGeneration.constructor` and
  `WhisperX.SubtitleGenerator.constructor` stop before it, and the pipeline calls
  `MakeOutputDir` or `LoadModels` right after. An object whose `__init__` raised is
  never used, in the source or in the model.
- The model loaders are opaque; whether each fails is the `WhisperX.LoadFaults`
  parameter.
- Whisper.SubtitleGenerator.Transcribe: what `whisper.load_model` raises is the
  `loadFault` argument, since the loader is outside the model.
- `random.choice` over the stock directory is a choice the contracts do not fix:
  `VideoGen.VideoGeneration.Generate` and the pipeline return the clip picked as a
  ghost value and promise only that it is the given clip or a stock entry.
- The pipeline's collaborators outside the model (add_pauses, the Kokoro pipeline,
  the loaders' faults, the transcriber and the random draw) are one
  `Pipeline.Externals` value passed to each step.
- WhisperX.TranscriptionAt: the speech model and the aligner are one opaque call.
  In the half-loaded state, with the audio file present, the result is the
  unpacking TypeError, although the speech model runs first and could raise its own
  error.
- OS errors carry only the path as their message; Python's `[Errno n] ...` text is
  not modelled. Write failures inside soundfile and moviepy are a `LibraryError`
  naming the output path.
- `Files.FileSystem.Valid` is a modelling assumption about the starting file
  system: files and directories are disjoint, the root is not a file, and every
  entry's parent is a directory. Permissions, links and a full disk are not
  modelled.
- VideoGen: codec names, the `subclip` call's frame accuracy and `close()` are not
  modelled.

## Findings

| source | as written | input that shows it | evidently intended | confidence | as-written member | corrected member |
|---|---|---|---|---|---|---|
| storytelling_videos/services/pipeline_service.py:51-59 | `KokoroVoice` is built with the keyword `script_uuid`, which its constructor (`voice_kokoro_service.py:12-18`) does not take, and `save_audio` is called without its `uuid` argument and returns None | any `VideoPipeline(uuid, text).run_complete_pipeline()` raises TypeError at step 1 | build the voice from text, voice, language and speed; call `save_audio(self.script_uuid, generator)`; report the path it writes | not executed | Pipeline.VideoPipeline.RunCompletePipelineAsWritten | Pipeline.VideoPipeline.RunCompletePipeline |
