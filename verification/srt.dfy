/** SubRip output shared by the two subtitle services: the HH:MM:SS,mmm timestamp,
    one caption per kept word (or per segment, in the older service), and the file
    text the captions are joined into. Seconds are exact reals. */
module Srt {
  import opened Wrappers
  import opened Text

  // ---------------------------------------------------------------------------
  // Python's float //, % and int() on exact reals

  /** x // m for a positive divisor: the floor of the quotient. */
  function FloorDiv(x: real, m: real): (q: int)
    requires m > 0.0
    ensures q as real <= x / m < q as real + 1.0
  {
    (x / m).Floor
  }

  /** x % m for a positive divisor: what is left after taking away x // m whole m's,
      so it lies in [0, m) whatever the sign of x. */
  function Mod(x: real, m: real): real
    requires m > 0.0
  {
    x - m * FloorDiv(x, m) as real
  }

  /** int(x): the integer part, truncating toward zero. */
  function Trunc(x: real): (n: int)
    ensures x >= 0.0 ==> n as real <= x < n as real + 1.0
    ensures x < 0.0 ==> n as real - 1.0 < x <= n as real
  {
    if x >= 0.0 then x.Floor else -((-x).Floor)
  }

  // ---------------------------------------------------------------------------
  // format_timestamp

  /** The four fields of a timestamp, as integers. */
  datatype Clock = Clock(hours: int, minutes: int, seconds: int, millis: int)

  /** The fields format_timestamp computes for t seconds. */
  function TimestampFields(t: real): (c: Clock)
    ensures 0 <= c.minutes < 60 && 0 <= c.seconds < 60 && 0 <= c.millis < 1000
    ensures t >= 0.0 ==> c.hours >= 0
  {
    Clock(Trunc(FloorDiv(t, 3600.0) as real),
          Trunc(FloorDiv(Mod(t, 3600.0), 60.0) as real),
          Trunc(Mod(t, 60.0)),
          Trunc(Mod(t, 1.0) * 1000.0))
  }

  /** The time a clock stands for, in whole milliseconds. */
  function ClockMillis(c: Clock): int {
    c.hours * 3_600_000 + c.minutes * 60_000 + c.seconds * 1000 + c.millis
  }

  /** f"{hours:02d}:{minutes:02d}:{secs:02d},{millis:03d}" */
  function FormatTimestamp(t: real): string {
    var c := TimestampFields(t);
    FormatInt(c.hours, 2) + ":" + FormatInt(c.minutes, 2) + ":" + FormatInt(c.seconds, 2)
    + "," + FormatInt(c.millis, 3)
  }

  /** Reads "H:MM:SS,mmm" back: any hour field FormatInt can write, then exactly two,
      two and three digits. */
  function ParseTimestamp(s: string): Option<Clock> {
    var n := |s|;
    if n >= 11 && s[n - 10] == ':' && s[n - 7] == ':' && s[n - 4] == ','
    then ParseFields(s[..n - 10], s[n - 9..n - 7], s[n - 6..n - 4], s[n - 3..])
    else None
  }

  /** The clock four fields denote: a signed hour count, then three runs of digits. */
  function ParseFields(hh: string, mm: string, ss: string, ms: string): Option<Clock> {
    if ParseInt(hh).Some? && AllDigits(mm) && AllDigits(ss) && AllDigits(ms)
    then Some(Clock(ParseInt(hh).value, DigitsValue(mm), DigitsValue(ss), DigitsValue(ms)))
    else None
  }

  /** Under exact arithmetic the fields add up to the time truncated to the millisecond
      (for negative times too: the hours absorb the sign, the other fields stay in range). */
  lemma {:induction false} TimestampDecomposition(t: real)
    ensures ClockMillis(TimestampFields(t)) == (t * 1000.0).Floor
  {
    var c := TimestampFields(t);
    var h := FloorDiv(t, 3600.0);
    var rest := Mod(t, 3600.0);
    assert c.hours == h;
    assert rest == t - 3600.0 * h as real && 0.0 <= rest < 3600.0;
    var m := FloorDiv(rest, 60.0);
    assert c.minutes == m;
    assert FloorDiv(t, 60.0) == 60 * h + m by {
      assert t / 60.0 == (60 * h) as real + rest / 60.0;
      FloorShift(rest / 60.0, 60 * h);
    }
    var sec := Mod(t, 60.0);
    assert sec == rest - 60.0 * m as real && 0.0 <= sec < 60.0;
    assert c.seconds == sec.Floor;
    var whole := 3600 * h + 60 * m + c.seconds;
    assert t.Floor == whole by {
      assert t == whole as real + (sec - c.seconds as real);
      FloorShift(sec - c.seconds as real, whole);
    }
    var frac := Mod(t, 1.0);
    assert frac == t - whole as real && 0.0 <= frac < 1.0;
    assert c.millis == (frac * 1000.0).Floor;
    assert t * 1000.0 == frac * 1000.0 + (1000 * whole) as real;
    FloorShift(frac * 1000.0, 1000 * whole);
  }

  lemma {:induction false} FloorShift(x: real, n: int)
    ensures (x + n as real).Floor == x.Floor + n
  {
  }

  /** Reading a timestamp back recovers the four fields format_timestamp computed. */
  lemma {:induction false} TimestampRoundTrip(t: real)
    ensures ParseTimestamp(FormatTimestamp(t)) == Some(TimestampFields(t))
  {
    var c := TimestampFields(t);
    FormatIntRoundTrip(c.hours, 2);
    FormatIntWidth(c.minutes, 2);
    FormatIntWidth(c.seconds, 2);
    FormatIntWidth(c.millis, 3);
    FormatIntDigits(c.minutes, 2);
    FormatIntDigits(c.seconds, 2);
    FormatIntDigits(c.millis, 3);
    ParsePieces(FormatInt(c.hours, 2), FormatInt(c.minutes, 2), FormatInt(c.seconds, 2),
                FormatInt(c.millis, 3), c);
  }

  /** A timestamp assembled from an hour field and two, two and three digits reads back
      as the numbers those pieces denote. */
  lemma {:induction false} ParsePieces(hh: string, mm: string, ss: string, ms: string, c: Clock)
    requires ParseInt(hh) == Some(c.hours)
    requires |mm| == 2 && |ss| == 2 && |ms| == 3 && AllDigits(mm) && AllDigits(ss) && AllDigits(ms)
    requires DigitsValue(mm) == c.minutes && DigitsValue(ss) == c.seconds && DigitsValue(ms) == c.millis
    ensures ParseTimestamp(hh + ":" + mm + ":" + ss + "," + ms) == Some(c)
  {
    ParseAssembled(hh, mm, ss, ms);
  }

  /** Reading an assembled timestamp reads its four pieces. */
  lemma {:induction false} ParseAssembled(hh: string, mm: string, ss: string, ms: string)
    requires |hh| >= 1 && |mm| == 2 && |ss| == 2 && |ms| == 3
    ensures ParseTimestamp(hh + ":" + mm + ":" + ss + "," + ms) == ParseFields(hh, mm, ss, ms)
  {
    TimestampPieces(hh, mm, ss, ms, hh + ":" + mm + ":" + ss + "," + ms);
  }

  /** Where the pieces of a timestamp sit in it. */
  lemma {:induction false} TimestampPieces(hh: string, mm: string, ss: string, ms: string, s: string)
    requires |mm| == 2 && |ss| == 2 && |ms| == 3
    requires s == hh + ":" + mm + ":" + ss + "," + ms
    ensures |s| >= 10 && s[|s| - 10] == ':' && s[|s| - 7] == ':' && s[|s| - 4] == ','
    ensures s[..|s| - 10] == hh && s[|s| - 9..|s| - 7] == mm
    ensures s[|s| - 6..|s| - 4] == ss && s[|s| - 3..] == ms
  {
    var n := |hh|;
    assert s[..n] == hh;
    assert s[n + 1..n + 3] == mm;
    assert s[n + 4..n + 6] == ss;
    assert s[n + 7..] == ms;
  }

  /** Reading a timestamp back gives the time truncated to the millisecond. */
  lemma {:induction false} TimestampReadsBackMillis(t: real)
    ensures ParseTimestamp(FormatTimestamp(t)).Some?
    ensures ClockMillis(ParseTimestamp(FormatTimestamp(t)).value) == (t * 1000.0).Floor
  {
    TimestampRoundTrip(t);
    TimestampDecomposition(t);
  }

  /** Below 100 hours every field has exactly its width: "HH:MM:SS,mmm", twelve characters. */
  lemma {:induction false} TimestampLayout(t: real)
    requires 0.0 <= t < 360000.0
    ensures var s := FormatTimestamp(t);
              && |s| == 12 && s[2] == ':' && s[5] == ':' && s[8] == ','
              && AllDigits(s[..2]) && AllDigits(s[3..5]) && AllDigits(s[6..8]) && AllDigits(s[9..])
  {
    var c := TimestampFields(t);
    assert c.hours < 100;
    FormatIntWidth(c.hours, 2);
    FormatIntWidth(c.minutes, 2);
    FormatIntWidth(c.seconds, 2);
    FormatIntWidth(c.millis, 3);
    TimestampPieces(FormatInt(c.hours, 2), FormatInt(c.minutes, 2), FormatInt(c.seconds, 2),
                    FormatInt(c.millis, 3), FormatTimestamp(t));
  }

  /** One hour, one minute and 1.234 seconds. */
  lemma {:induction false} TimestampExample()
    ensures FormatTimestamp(3661.234) == "01:01:01,234"
  {
    var c := TimestampFields(3661.234);
    assert FloorDiv(3661.234, 3600.0) == 1;
    assert Mod(3661.234, 3600.0) == 61.234;
    assert FloorDiv(61.234, 60.0) == 1;
    assert FloorDiv(3661.234, 60.0) == 61;
    assert Mod(3661.234, 60.0) == 1.234;
    assert FloorDiv(3661.234, 1.0) == 3661;
    assert Mod(3661.234, 1.0) * 1000.0 == 234.0;
    assert c == Clock(1, 1, 1, 234);
    assert FormatInt(1, 2) == "01" by { assert Repeat('0', 1) == "0"; }
    assert FormatInt(234, 3) == "234" by {
      assert NatToString(2) == "2";
      assert NatToString(23) == "23";
      assert NatToString(234) == "234";
      assert Repeat('0', 0) == "";
    }
  }

  /** Time zero. */
  lemma {:induction false} TimestampZero()
    ensures FormatTimestamp(0.0) == "00:00:00,000"
  {
    assert TimestampFields(0.0) == Clock(0, 0, 0, 0);
    assert FormatInt(0, 2) == "00" by { assert Repeat('0', 1) == "0"; }
    assert FormatInt(0, 3) == "000" by { assert Repeat('0', 2) == "00"; }
  }

  // ---------------------------------------------------------------------------
  // What the transcriber returns, as far as the serialiser reads it. A field that
  // may be absent from the result dictionary is an Option.

  datatype WordInfo = WordInfo(word: Option<string>, start: Option<real>, end: Option<real>)

  /** A segment; words is None when the segment has no "words" key. */
  datatype Segment = Segment(
    text: Option<string>, start: Option<real>, end: Option<real>, words: Option<seq<WordInfo>>)

  /** The transcription result; segments is None when it has no "segments" key. */
  datatype Transcription = Transcription(segments: Option<seq<Segment>>)

  /** One caption before it is numbered: its time span and its text. */
  datatype Cue = Cue(start: real, end: real, text: string)

  /** The caption for one piece of text, if its stripped text is not empty; a missing
      start or end counts as 0. */
  function CueOf(text: Option<string>, start: Option<real>, end: Option<real>): (r: Option<Cue>)
    ensures r.Some? <==> Strip(text.GetOr("")) != ""
    ensures r.Some? ==> r.value == Cue(start.GetOr(0.0), end.GetOr(0.0), Strip(text.GetOr("")))
  {
    var word := Strip(text.GetOr(""));
    if word == "" then None else Some(Cue(start.GetOr(0.0), end.GetOr(0.0), word))
  }

  function OptionToSeq<T>(o: Option<T>): seq<T> {
    match o
    case Some(v) => [v]
    case None => []
  }

  /** A caption text is non-empty and has no whitespace at either end. */
  predicate Trimmed(s: string) {
    s != [] && !IsSpace(s[0]) && !IsSpace(s[|s| - 1])
  }

  predicate AllTrimmed(cues: seq<Cue>) {
    forall i :: 0 <= i < |cues| ==> Trimmed(cues[i].text)
  }

  /** The cues of a word list: one per word whose stripped text is not empty, in order. */
  function WordCues(words: seq<WordInfo>): (r: seq<Cue>)
    ensures |r| <= |words|
  {
    if words == [] then []
    else
      var w := words[|words| - 1];
      WordCues(words[..|words| - 1]) + OptionToSeq(CueOf(w.word, w.start, w.end))
  }

  /** The cues of one segment. The WhisperX service reads only the word list; the older
      Whisper service (fallback) also turns a segment without a word list into one cue. */
  function SegmentCues(seg: Segment, fallback: bool): seq<Cue>
  {
    match seg.words
    case Some(words) => WordCues(words)
    case None => if fallback then OptionToSeq(CueOf(seg.text, seg.start, seg.end)) else []
  }

  /** The cues of a list of segments, segment by segment. */
  function TranscriptCues(segments: seq<Segment>, fallback: bool): seq<Cue>
  {
    if segments == [] then []
    else TranscriptCues(segments[..|segments| - 1], fallback) + SegmentCues(segments[|segments| - 1], fallback)
  }

  /** The cues of a word list split in two are the cues of each part, in order. */
  lemma {:induction false} WordCuesConcat(a: seq<WordInfo>, b: seq<WordInfo>)
    ensures WordCues(a + b) == WordCues(a) + WordCues(b)
    decreases |b|
  {
    if b == [] {
      assert a + b == a;
    } else {
      var p := b[..|b| - 1];
      var w := b[|b| - 1];
      var last := OptionToSeq(CueOf(w.word, w.start, w.end));
      calc {
        WordCues(a + b);
        { assert (a + b)[..|a + b| - 1] == a + p && (a + b)[|a + b| - 1] == w; }
        WordCues(a + p) + last;
        { WordCuesConcat(a, p); }
        (WordCues(a) + WordCues(p)) + last;
        { SeqAssoc(WordCues(a), WordCues(p), last); }
        WordCues(a) + (WordCues(p) + last);
        WordCues(a) + WordCues(b);
      }
    }
  }

  /** A word is kept when its stripped text is not empty. */
  predicate Kept(w: WordInfo) {
    Strip(w.word.GetOr("")) != ""
  }

  /** When every word is kept, there is one cue per word, carrying its stripped text and
      its times (0 where missing). */
  lemma {:induction false} WordCuesAllKept(words: seq<WordInfo>)
    requires forall i :: 0 <= i < |words| ==> Kept(words[i])
    ensures |WordCues(words)| == |words|
    ensures forall i :: 0 <= i < |words| ==>
      WordCues(words)[i] == Cue(words[i].start.GetOr(0.0), words[i].end.GetOr(0.0), Strip(words[i].word.GetOr("")))
    decreases |words|
  {
    if words != [] {
      var p := words[..|words| - 1];
      assert forall i :: 0 <= i < |p| ==> Kept(p[i]) by {
        forall i | 0 <= i < |p| ensures Kept(p[i]) {
          assert p[i] == words[i];
        }
      }
      WordCuesAllKept(p);
      var w := words[|words| - 1];
      var cue := Cue(w.start.GetOr(0.0), w.end.GetOr(0.0), Strip(w.word.GetOr("")));
      assert Kept(w);
      assert OptionToSeq(CueOf(w.word, w.start, w.end)) == [cue];
      var r := WordCues(words);
      assert r == WordCues(p) + [cue];
      forall i | 0 <= i < |words|
        ensures r[i] == Cue(words[i].start.GetOr(0.0), words[i].end.GetOr(0.0), Strip(words[i].word.GetOr("")))
      {
        if i < |p| {
          assert r[i] == WordCues(p)[i] && p[i] == words[i];
        }
      }
    }
  }

  /** When no word is kept, there is no cue at all. */
  lemma {:induction false} WordCuesNoneKept(words: seq<WordInfo>)
    requires forall i :: 0 <= i < |words| ==> !Kept(words[i])
    ensures WordCues(words) == []
    decreases |words|
  {
    if words != [] {
      var p := words[..|words| - 1];
      assert forall i :: 0 <= i < |p| ==> !Kept(p[i]) by {
        forall i | 0 <= i < |p| ensures !Kept(p[i]) {
          assert p[i] == words[i];
        }
      }
      WordCuesNoneKept(p);
    }
  }

  /** The cues of the segments split in two are the cues of each part: the captions
      follow the segment order. */
  lemma {:induction false} TranscriptCuesConcat(a: seq<Segment>, b: seq<Segment>, fallback: bool)
    ensures TranscriptCues(a + b, fallback) == TranscriptCues(a, fallback) + TranscriptCues(b, fallback)
    decreases |b|
  {
    if b == [] {
      assert a + b == a;
    } else {
      var p := b[..|b| - 1];
      TranscriptCuesConcat(a, p, fallback);
      assert (a + b)[..|a + b| - 1] == a + p;
      SeqAssoc(TranscriptCues(a, fallback), TranscriptCues(p, fallback), SegmentCues(b[|b| - 1], fallback));
    }
  }

  /** The fallback matters only for segments without a word list. */
  lemma {:induction false} FallbackOnlyForWordless(segments: seq<Segment>)
    requires forall i :: 0 <= i < |segments| ==> segments[i].words.Some?
    ensures TranscriptCues(segments, true) == TranscriptCues(segments, false)
    decreases |segments|
  {
    if segments != [] {
      var p := segments[..|segments| - 1];
      assert forall i :: 0 <= i < |p| ==> p[i].words.Some? by {
        forall i | 0 <= i < |p| ensures p[i].words.Some? {
          assert p[i] == segments[i];
        }
      }
      FallbackOnlyForWordless(p);
    }
  }

  /** Without the fallback, a segment without a word list adds no caption; with it, one
      caption exactly when its stripped text is not empty. */
  lemma {:induction false} WordlessSegment(seg: Segment)
    requires seg.words.None?
    ensures SegmentCues(seg, false) == []
    ensures |SegmentCues(seg, true)| == (if Strip(seg.text.GetOr("")) != "" then 1 else 0)
  {
  }

  lemma {:induction false} TrimmedConcat(a: seq<Cue>, b: seq<Cue>)
    requires AllTrimmed(a) && AllTrimmed(b)
    ensures AllTrimmed(a + b)
  {
    forall i | 0 <= i < |a + b| ensures Trimmed((a + b)[i].text) {
      if i < |a| {
        assert (a + b)[i] == a[i];
      } else {
        assert (a + b)[i] == b[i - |a|];
      }
    }
  }

  lemma {:induction false} CueTrimmed(text: Option<string>, start: Option<real>, end: Option<real>)
    ensures AllTrimmed(OptionToSeq(CueOf(text, start, end)))
  {
  }

  /** Every caption text is a stripped, non-empty word. */
  lemma {:induction false} WordCuesTrimmed(words: seq<WordInfo>)
    ensures AllTrimmed(WordCues(words))
    decreases |words|
  {
    if words != [] {
      var w := words[|words| - 1];
      WordCuesTrimmed(words[..|words| - 1]);
      CueTrimmed(w.word, w.start, w.end);
      TrimmedConcat(WordCues(words[..|words| - 1]), OptionToSeq(CueOf(w.word, w.start, w.end)));
    }
  }

  lemma {:induction false} TranscriptCuesTrimmed(segments: seq<Segment>, fallback: bool)
    ensures AllTrimmed(TranscriptCues(segments, fallback))
    decreases |segments|
  {
    if segments != [] {
      var seg := segments[|segments| - 1];
      TranscriptCuesTrimmed(segments[..|segments| - 1], fallback);
      match seg.words
      case Some(words) => WordCuesTrimmed(words);
      case None => CueTrimmed(seg.text, seg.start, seg.end);
      TrimmedConcat(TranscriptCues(segments[..|segments| - 1], fallback), SegmentCues(seg, fallback));
    }
  }

  /** result.get("segments", []) */
  function SegmentsOf(t: Transcription): seq<Segment> {
    t.segments.GetOr([])
  }

  // ---------------------------------------------------------------------------
  // Captions and the file text

  /** "<start> --> <end>" */
  function Timing(c: Cue): string {
    FormatTimestamp(c.start) + " --> " + FormatTimestamp(c.end)
  }

  /** f"{subtitle_index}\n{start_time} --> {end_time}\n{word}\n" */
  function Caption(index: nat, c: Cue): string {
    NatToString(index) + "\n" + Timing(c) + "\n" + c.text + "\n"
  }

  /** The captions of a list of cues, numbered from 1. */
  function Captions(cues: seq<Cue>): (r: seq<string>)
    ensures |r| == |cues|
  {
    if cues == [] then [] else Captions(cues[..|cues| - 1]) + [Caption(|cues|, cues[|cues| - 1])]
  }

  /** "\n".join(srt_content) */
  function Document(captions: seq<string>): string {
    Join("\n", captions)
  }

  /** Appending a cue appends its caption, numbered one past the last. */
  lemma {:induction false} CaptionsSnoc(cues: seq<Cue>, c: Cue)
    ensures Captions(cues + [c]) == Captions(cues) + [Caption(|cues| + 1, c)]
  {
    assert (cues + [c])[..|cues|] == cues;
  }

  /** The i-th caption (from 0) is the block of the i-th cue, numbered i + 1. */
  lemma {:induction false} CaptionsNumbering(cues: seq<Cue>, i: nat)
    requires i < |cues|
    ensures Captions(cues)[i] == Caption(i + 1, cues[i])
    decreases |cues|
  {
    var p := cues[..|cues| - 1];
    if i < |p| {
      CaptionsNumbering(p, i);
      assert p[i] == cues[i];
    }
  }

  /** The file is empty exactly when there is no cue. */
  lemma {:induction false} DocumentEmpty(cues: seq<Cue>)
    ensures Document(Captions(cues)) == "" <==> cues == []
  {
    if cues != [] {
      var items := Captions(cues);
      var last := Caption(|cues|, cues[|cues| - 1]);
      assert items[|items| - 1] == last;
      assert |NatToString(|cues|)| >= 1;
      if |items| >= 2 {
        assert Document(items) == Join("\n", items[..|items| - 1]) + "\n" + last;
      }
    }
  }

  // ---------------------------------------------------------------------------
  // Reading the file back: its lines, and the timing line parsed again

  /** FormatTimestamp writes no space and no newline: only digits, signs, colons and commas. */
  lemma {:induction false} TimestampChars(t: real)
    ensures ' ' !in FormatTimestamp(t) && '\n' !in FormatTimestamp(t)
  {
    var c := TimestampFields(t);
    FormatIntChars(c.hours, 2);
    FormatIntChars(c.minutes, 2);
    FormatIntChars(c.seconds, 2);
    FormatIntChars(c.millis, 3);
    var h, m, sec, ms := FormatInt(c.hours, 2), FormatInt(c.minutes, 2), FormatInt(c.seconds, 2), FormatInt(c.millis, 3);
    assert ' ' !in h && ' ' !in m && ' ' !in sec && ' ' !in ms;
    assert '\n' !in h && '\n' !in m && '\n' !in sec && '\n' !in ms;
    assert FormatTimestamp(t) == h + ":" + m + ":" + sec + "," + ms;
  }

  lemma {:induction false} TimingNoNewline(c: Cue)
    ensures '\n' !in Timing(c)
  {
    TimestampChars(c.start);
    TimestampChars(c.end);
    ArrowNoNewline(FormatTimestamp(c.start), FormatTimestamp(c.end));
  }

  lemma {:induction false} ArrowNoNewline(a: string, b: string)
    requires '\n' !in a && '\n' !in b
    ensures '\n' !in a + " --> " + b
  {
  }

  /** Reads a timing line back: two timestamps around " --> ". */
  function ParseTiming(s: string): Option<(Clock, Clock)> {
    var parts := Split(s, ' ');
    if |parts| == 3 && parts[1] == "-->" && ParseTimestamp(parts[0]).Some? && ParseTimestamp(parts[2]).Some?
    then Some((ParseTimestamp(parts[0]).value, ParseTimestamp(parts[2]).value))
    else None
  }

  /** The timing line gives back the clocks of both ends of the cue. */
  lemma {:induction false} TimingRoundTrip(c: Cue)
    ensures ParseTiming(Timing(c)) == Some((TimestampFields(c.start), TimestampFields(c.end)))
  {
    var a := FormatTimestamp(c.start);
    var b := FormatTimestamp(c.end);
    TimestampChars(c.start);
    TimestampChars(c.end);
    SplitTiming(a, b);
    TimestampRoundTrip(c.start);
    TimestampRoundTrip(c.end);
  }

  lemma {:induction false} SplitTiming(a: string, b: string)
    requires ' ' !in a && ' ' !in b
    ensures Split(a + " --> " + b, ' ') == [a, "-->", b]
  {
    var arrow, sp := "-->", " ";
    assert " --> " == (sp + arrow) + sp;
    calc {
      a + " --> " + b;
      (a + ((sp + arrow) + sp)) + b;
      { SeqAssoc(a, sp + arrow, sp); SeqAssoc(a, sp, arrow); }
      (((a + sp) + arrow) + sp) + b;
      { SeqAssoc(a + sp, arrow, sp); SeqAssoc(a + sp, arrow + sp, b); }
      (a + sp) + ((arrow + sp) + b);
    }
    SplitConcat(arrow, ' ', b);
    SplitNone(arrow, ' ');
    SplitNone(b, ' ');
    SplitConcat(a, ' ', arrow + sp + b);
    SplitNone(a, ' ');
  }

  /** The lines of one caption block: number, timing, text and the blank line. */
  function CaptionLines(index: nat, c: Cue): seq<string> {
    [NatToString(index), Timing(c), c.text, ""]
  }

  /** The lines of the whole file, block after block. */
  function DocumentLines(cues: seq<Cue>): (r: seq<string>)
    ensures |r| == 4 * |cues|
  {
    if cues == [] then [] else DocumentLines(cues[..|cues| - 1]) + CaptionLines(|cues|, cues[|cues| - 1])
  }

  predicate NoNewlines(cues: seq<Cue>) {
    forall i :: 0 <= i < |cues| ==> '\n' !in cues[i].text
  }

  /** Each caption block is four lines: the three it names and the empty one after the final newline. */
  lemma {:induction false} CaptionSplit(index: nat, c: Cue)
    requires '\n' !in c.text
    ensures Split(Caption(index, c), '\n') == CaptionLines(index, c)
  {
    var n := NatToString(index);
    TimingNoNewline(c);
    SplitLines(n, Timing(c), c.text);
  }

  lemma {:induction false} SplitLines(a: string, b: string, x: string)
    requires '\n' !in a && '\n' !in b && '\n' !in x
    ensures Split(a + "\n" + b + "\n" + x + "\n", '\n') == [a, b, x, ""]
  {
    var ab := a + "\n" + b;
    var abx := ab + "\n" + x;
    SplitConcat(a, '\n', b);
    SplitNone(a, '\n');
    SplitNone(b, '\n');
    assert Split(ab, '\n') == [a, b];
    SplitConcat(ab, '\n', x);
    SplitNone(x, '\n');
    assert Split(abx, '\n') == [a, b, x];
    SplitConcat(abx, '\n', "");
    SplitNone("", '\n');
    assert abx + "\n" == abx + ['\n'] + "";
    assert Split(abx + "\n", '\n') == [a, b, x] + [""];
  }

  /** Each caption block splits into its four lines. */
  lemma {:induction false} CaptionsLines(cues: seq<Cue>)
    requires NoNewlines(cues)
    ensures SplitEach(Captions(cues), '\n') == DocumentLines(cues)
    decreases |cues|
  {
    if cues != [] {
      var n := |cues|;
      var p := cues[..n - 1];
      var c := cues[n - 1];
      assert NoNewlines(p) by {
        forall i | 0 <= i < |p| ensures '\n' !in p[i].text {
          assert p[i] == cues[i];
        }
      }
      var caps := Captions(cues);
      var prior := Captions(p);
      var cap := Caption(n, c);
      assert caps == prior + [cap];
      assert caps[..n - 1] == prior;
      assert SplitEach(caps, '\n') == SplitEach(prior, '\n') + Split(cap, '\n');
      CaptionSplit(n, c);
      CaptionsLines(p);
    }
  }

  /** Splitting the file at newlines gives back every block's lines, in order, as long
      as no caption text holds a newline of its own. */
  lemma {:induction false} DocumentSplit(cues: seq<Cue>)
    requires cues != [] && NoNewlines(cues)
    ensures Split(Document(Captions(cues)), '\n') == DocumentLines(cues)
  {
    SplitJoin(Captions(cues), '\n');
    CaptionsLines(cues);
  }

  // ---------------------------------------------------------------------------
  // generate_word_level_srt's loop

  /** The loop of generate_word_level_srt: for each segment, the captions of its words
      (or, with fallback, of the segment itself), numbered by a running index. */
  method CollectCaptions(segments: seq<Segment>, fallback: bool) returns (content: seq<string>)
    ensures content == Captions(TranscriptCues(segments, fallback))
  {
    content := [];
    var index := 1;
    ghost var cues: seq<Cue> := [];
    var i := 0;
    while i < |segments|
      invariant 0 <= i <= |segments|
      invariant cues == TranscriptCues(segments[..i], fallback)
      invariant content == Captions(cues) && index == |cues| + 1
    {
      var segment := segments[i];
      if segment.words.Some? {
        content, index := AppendWordCaptions(segment.words.value, cues, content, index);
        cues := cues + WordCues(segment.words.value);
      } else if fallback {
        var word := Strip(segment.text.GetOr(""));
        var start := segment.start.GetOr(0.0);
        var end := segment.end.GetOr(0.0);
        if word != "" {
          var cue := Cue(start, end, word);
          content := AppendCaption(cues, content, index, cue);
          cues := cues + [cue];
          index := index + 1;
        }
      }
      TranscriptCuesSnoc(segments, i, fallback);
      i := i + 1;
    }
    assert segments[..|segments|] == segments;
  }

  /** The inner loop over one segment's words: a caption for every word whose stripped
      text is non-empty, numbered on from index. */
  method AppendWordCaptions(words: seq<WordInfo>, ghost before: seq<Cue>, content0: seq<string>, index0: nat)
    returns (content: seq<string>, index: nat)
    requires content0 == Captions(before) && index0 == |before| + 1
    ensures content == Captions(before + WordCues(words))
    ensures index == |before + WordCues(words)| + 1
  {
    content, index := content0, index0;
    ghost var cues := before;
    var j := 0;
    while j < |words|
      invariant 0 <= j <= |words|
      invariant cues == before + WordCues(words[..j])
      invariant content == Captions(cues) && index == |cues| + 1
    {
      content, index := AppendWordCaption(words, j, before, content, index);
      cues := before + WordCues(words[..j + 1]);
      j := j + 1;
    }
    assert words[..|words|] == words;
  }

  /** One word of the inner loop: a caption for it when its stripped text is non-empty. */
  method AppendWordCaption(words: seq<WordInfo>, j: nat, ghost before: seq<Cue>, content0: seq<string>, index0: nat)
    returns (content: seq<string>, index: nat)
    requires j < |words|
    requires content0 == Captions(before + WordCues(words[..j]))
    requires index0 == |before + WordCues(words[..j])| + 1
    ensures content == Captions(before + WordCues(words[..j + 1]))
    ensures index == |before + WordCues(words[..j + 1])| + 1
  {
    var w := words[j];
    var cue := CueOf(w.word, w.start, w.end);
    WordCuesSnoc(words, j);
    content, index := content0, index0;
    ghost var cues := before + WordCues(words[..j]);
    if cue.Some? {
      SeqAssoc(before, WordCues(words[..j]), [cue.value]);
      assert before + WordCues(words[..j + 1]) == cues + [cue.value];
      content := AppendCaption(cues, content, index, cue.value);
      index := index + 1;
    } else {
      assert WordCues(words[..j + 1]) == WordCues(words[..j]) + [];
      assert WordCues(words[..j + 1]) == WordCues(words[..j]);
    }
  }

  /** One caption appended: the block for cue, numbered index. */
  method AppendCaption(ghost cues: seq<Cue>, content0: seq<string>, index: nat, cue: Cue)
    returns (content: seq<string>)
    requires content0 == Captions(cues) && index == |cues| + 1
    ensures content == Captions(cues + [cue])
  {
    CaptionsSnoc(cues, cue);
    content := content0 + [Caption(index, cue)];
  }

  lemma {:induction false} WordCuesSnoc(words: seq<WordInfo>, j: nat)
    requires j < |words|
    ensures WordCues(words[..j + 1])
              == WordCues(words[..j]) + OptionToSeq(CueOf(words[j].word, words[j].start, words[j].end))
  {
    assert words[..j + 1][..j] == words[..j];
  }

  lemma {:induction false} TranscriptCuesSnoc(segments: seq<Segment>, i: nat, fallback: bool)
    requires i < |segments|
    ensures TranscriptCues(segments[..i + 1], fallback)
              == TranscriptCues(segments[..i], fallback) + SegmentCues(segments[i], fallback)
  {
    assert segments[..i + 1][..i] == segments[..i];
  }
}
