/** The part of the file system the services touch: which paths are files (and
    what they hold) and which are directories. Existence of a file is
    membership in `files`. */
module Files {
  import opened Wrappers
  import opened Paths

  /** A frame dimension in pixels; decoded clips always have positive sizes. */
  type Dim = n: int | n > 0 witness 1

  /** A crop window of a frame: columns x1..x2 and rows y1..y2 (end-exclusive). */
  datatype Rect = Rect(x1: int, y1: int, x2: int, y2: int)

  /** The -vf filter chain of a render: always the scale to 1080 x 1920, then the
      subtitles filter on the given file when there is one. VideoGen.FfmpegParams
      spells it out as the ffmpeg arguments. */
  datatype VideoFilter = VideoFilter(subtitles: Option<Path>)

  /** What write_videofile was asked to render: a window of a source clip, cropped,
      with an audio track, encoded with the given codecs, and the filter passed in the
      extra ffmpeg arguments. */
  datatype Render = Render(
    source: Path, start: real, end: real, crop: Rect,
    audio: Path, codec: string, audioCodec: string, filter: VideoFilter)

  datatype Blob =
    | TextFile(content: string)
      /** a mono waveform and its sample rate in Hz */
    | AudioFile(samples: seq<real>, sampleRate: nat)
      /** a video file a decoder can open: its duration in seconds and its frame size */
    | Footage(duration: real, width: Dim, height: Dim)
      /** a video file written by the compositing stage */
    | VideoFile(render: Render)

  /** `after` holds the same files as `before`, except possibly at the paths in `changed`. */
  ghost predicate SameExcept(before: map<Path, Blob>, after: map<Path, Blob>, changed: set<Path>) {
    forall p :: p !in changed ==> (p in before <==> p in after) && (p in before ==> before[p] == after[p])
  }

  /** Writing one of the changed paths keeps the rest. */
  lemma {:induction false} SameExceptUpdate(m: map<Path, Blob>, p: Path, b: Blob, changed: set<Path>)
    requires p in changed
    ensures SameExcept(m, m[p := b], changed)
  {
  }

  /** Two steps that each keep all but some paths keep all but the union. */
  lemma {:induction false} SameExceptCompose(a: map<Path, Blob>, b: map<Path, Blob>, c: map<Path, Blob>,
                                             first: set<Path>, second: set<Path>)
    requires SameExcept(a, b, first) && SameExcept(b, c, second)
    ensures SameExcept(a, c, first + second)
  {
  }

  /** p is a directory of `dirs`; the root always is. */
  predicate IsDirIn(dirs: set<Path>, p: Path) {
    p.parts == [] || p in dirs
  }

  /** Path.exists(): a regular file or a directory is there. */
  predicate ExistsIn(files: map<Path, Blob>, dirs: set<Path>, p: Path) {
    p in files || IsDirIn(dirs, p)
  }

  /** The whole file system at one moment, for stating what an operation leaves. */
  datatype Snapshot = Snapshot(files: map<Path, Blob>, dirs: set<Path>)

  /** A regular file is p itself or one of the directories on the way to it. */
  predicate FileOnPath(files: map<Path, Blob>, p: Path) {
    AncestorsAndSelf(p) * files.Keys != {}
  }

  /** What a real directory tree looks like: nothing is both a file and a directory,
      the root is a directory, and whatever exists sits in a directory. */
  predicate Tree(files: map<Path, Blob>, dirs: set<Path>) {
    && files.Keys !! dirs
    && Path([]) !in files
    && (forall p {:trigger p.Parent()} :: p in dirs ==> IsDirIn(dirs, p.Parent()))
    && (forall p {:trigger p.Parent()} :: p in files ==> IsDirIn(dirs, p.Parent()))
  }

  /** Path.mkdir(parents=True, exist_ok=True): an existing regular file at p raises
      FileExistsError, a regular file above p raises NotADirectoryError (the first
      mkdir already fails, so nothing is made), and otherwise it returns. */
  function MakeDirsOutcome(files: map<Path, Blob>, p: Path): Outcome {
    if p in files then Fail(FileExistsError(p.ToString()))
    else if FileOnPath(files, p) then Fail(NotADirectoryError(p.ToString()))
    else Pass
  }

  /** Path.mkdir(exist_ok=True) without parents: an existing regular file raises
      FileExistsError; an existing directory or an existing parent lets it return;
      otherwise the walk to the parent meets a regular file (NotADirectoryError) or a
      missing directory (FileNotFoundError). */
  function MakeDirOutcome(files: map<Path, Blob>, dirs: set<Path>, p: Path): Outcome {
    if p in files then Fail(FileExistsError(p.ToString()))
    else if IsDirIn(dirs, p) || IsDirIn(dirs, p.Parent()) then Pass
    else if FileOnPath(files, p.Parent()) then Fail(NotADirectoryError(p.ToString()))
    else Fail(FileNotFoundError(p.ToString()))
  }

  /** open(p, "w"): a directory at p raises IsADirectoryError, and a parent that is not
      a directory raises as mkdir does. */
  function WriteOutcome(files: map<Path, Blob>, dirs: set<Path>, p: Path): Outcome {
    if IsDirIn(dirs, p) then Fail(IsADirectoryError(p.ToString()))
    else if IsDirIn(dirs, p.Parent()) then Pass
    else if FileOnPath(files, p.Parent()) then Fail(NotADirectoryError(p.ToString()))
    else Fail(FileNotFoundError(p.ToString()))
  }

  /** In a tree, everything on the way to a directory is a directory, so no regular
      file is on its path. */
  lemma {:induction false} NoFileAboveDir(files: map<Path, Blob>, dirs: set<Path>, p: Path)
    requires Tree(files, dirs) && IsDirIn(dirs, p)
    ensures !FileOnPath(files, p)
    decreases |p.parts|
  {
    if p.parts != [] {
      AncestorsAndSelfParent(p);
      NoFileAboveDir(files, dirs, p.Parent());
      assert AncestorsAndSelf(p) * files.Keys == AncestorsAndSelf(p.Parent()) * files.Keys;
    }
  }

  /** Making p and its ancestors keeps a tree a tree when no regular file is in the way. */
  lemma {:induction false} MakeDirsKeepsTree(files: map<Path, Blob>, dirs: set<Path>, p: Path)
    requires Tree(files, dirs) && !FileOnPath(files, p)
    ensures Tree(files, dirs + AncestorsAndSelf(p))
  {
    var d := dirs + AncestorsAndSelf(p);
    forall q | q in AncestorsAndSelf(p)
      ensures q !in files
    {
      assert q in AncestorsAndSelf(p) * files.Keys ==> false;
    }
    forall q | q in AncestorsAndSelf(p)
      ensures IsDirIn(d, q.Parent())
    {
      var i := |q.parts|;
      assert q == Path(p.parts[..i]);
      if i > 1 {
        assert q.Parent().parts == p.parts[..i - 1];
        assert q.Parent() in AncestorsAndSelf(p);
      }
    }
    assert forall q :: q in dirs ==> IsDirIn(d, q.Parent());
    assert forall q :: q in files ==> IsDirIn(d, q.Parent());
  }

  class FileSystem {
    var files: map<Path, Blob>
    var dirs: set<Path>

    constructor (files: map<Path, Blob>, dirs: set<Path>)
      ensures this.files == files && this.dirs == dirs
    {
      this.files := files;
      this.dirs := dirs;
    }

    predicate Valid()
      reads this
    {
      Tree(files, dirs)
    }

    predicate IsDir(p: Path)
      reads this
    {
      IsDirIn(dirs, p)
    }

    predicate Exists(p: Path)
      reads this
    {
      ExistsIn(files, dirs, p)
    }

    function State(): Snapshot
      reads this
    {
      Snapshot(files, dirs)
    }

    /** Path.mkdir(parents=True, exist_ok=True): on success p and every missing
        ancestor now exist. */
    method MakeDirs(p: Path) returns (o: Outcome)
      requires Valid()
      modifies this
      ensures Valid()
      ensures files == old(files)
      ensures o == MakeDirsOutcome(old(files), p)
      ensures dirs == if o.Pass? then old(dirs) + AncestorsAndSelf(p) else old(dirs)
      ensures o.Pass? ==> IsDir(p)
    {
      if p in files {
        return Fail(FileExistsError(p.ToString()));
      }
      if AncestorsAndSelf(p) * files.Keys != {} {
        return Fail(NotADirectoryError(p.ToString()));
      }
      MakeDirsKeepsTree(files, dirs, p);
      dirs := dirs + AncestorsAndSelf(p);
      o := Pass;
    }

    /** Path.mkdir(exist_ok=True) without parents. */
    method MakeDir(p: Path) returns (o: Outcome)
      requires Valid()
      modifies this
      ensures Valid()
      ensures files == old(files)
      ensures o == MakeDirOutcome(old(files), old(dirs), p)
      ensures dirs == if o.Pass? && p.parts != [] then old(dirs) + {p} else old(dirs)
      ensures o.Pass? ==> IsDir(p)
    {
      if p in files {
        return Fail(FileExistsError(p.ToString()));
      }
      if IsDir(p) || IsDir(p.Parent()) {
        if p.parts != [] {
          dirs := dirs + {p};
        }
        return Pass;
      }
      if AncestorsAndSelf(p.Parent()) * files.Keys != {} {
        return Fail(NotADirectoryError(p.ToString()));
      }
      o := Fail(FileNotFoundError(p.ToString()));
    }

    /** Writing a whole file: on success p holds b. */
    method Write(p: Path, b: Blob) returns (o: Outcome)
      requires Valid()
      modifies this
      ensures Valid()
      ensures dirs == old(dirs)
      ensures o == WriteOutcome(old(files), old(dirs), p)
      ensures files == if o.Pass? then old(files)[p := b] else old(files)
    {
      if IsDir(p) {
        return Fail(IsADirectoryError(p.ToString()));
      }
      if IsDir(p.Parent()) {
        files := files[p := b];
        return Pass;
      }
      if AncestorsAndSelf(p.Parent()) * files.Keys != {} {
        return Fail(NotADirectoryError(p.ToString()));
      }
      o := Fail(FileNotFoundError(p.ToString()));
    }
  }
}
