/** pathlib paths, as the sequence of their components below the root. */
module Paths {
  import Text

  /** An absolute path: Path(["home", "u", "x.wav"]) is /home/u/x.wav. */
  datatype Path = Path(parts: seq<string>) {

    /** pathlib's `self / name` for a name that is a single component. */
    function Join(name: string): Path {
      Path(parts + [name])
    }

    /** pathlib's `.parent`; the root is its own parent. */
    function Parent(): Path {
      if parts == [] then this else Path(parts[..|parts| - 1])
    }

    /** pathlib's `.name`: the last component, "" for the root. */
    function Name(): string {
      if parts == [] then "" else parts[|parts| - 1]
    }

    /** pathlib's `.stem`: the name without its final suffix, where a suffix is a
        dot that is neither the first nor the last character of the name. */
    function Stem(): (r: string)
      ensures |r| <= |Name()| && r == Name()[..|r|]
      ensures r != Name() ==>
                && 0 < |r| < |Name()| - 1 && Name()[|r|] == '.'
                && forall j :: |r| < j < |Name()| ==> Name()[j] != '.'
      ensures '.' !in Name() ==> r == Name()
    {
      var name := Name();
      var i := Text.LastIndexOf(name, '.');
      if 0 < i < |name| - 1 then name[..i] else name
    }

    /** str(path) */
    function ToString(): string {
      "/" + Text.Join("/", parts)
    }
  }

  /** <cwd>/saved_audio_kokoro/<script uuid>: the directory where the voice, subtitle
      and video services look for a script's audio and subtitles. */
  function ScriptDir(cwd: Path, scriptUuid: string): Path {
    cwd.Join("saved_audio_kokoro").Join(scriptUuid)
  }

  /** Two different names in one directory are two different paths, and neither is
      the directory itself. */
  lemma {:induction false} JoinDistinct(p: Path, a: string, b: string)
    requires a != b
    ensures p.Join(a) != p.Join(b) && p.Join(a) != p
  {
    assert p.Join(a).Name() == a && p.Join(b).Name() == b;
    assert |p.Join(a).parts| == |p.parts| + 1;
  }

  /** A path and all its ancestors below the root: what mkdir(parents=True) makes exist. */
  function AncestorsAndSelf(p: Path): (r: set<Path>)
    ensures p.parts != [] ==> p in r
    ensures forall q :: q in r ==> |q.parts| <= |p.parts| && q.parts == p.parts[..|q.parts|]
  {
    var r := set i | 1 <= i <= |p.parts| :: Path(p.parts[..i]);
    assert p.parts[..|p.parts|] == p.parts;
    r
  }

  /** Below the root, a path's ancestors and itself are its parent's and itself. */
  lemma {:induction false} AncestorsAndSelfParent(p: Path)
    requires p.parts != []
    ensures AncestorsAndSelf(p) == AncestorsAndSelf(p.Parent()) + {p}
  {
    var q := p.Parent();
    assert q.parts == p.parts[..|p.parts| - 1];
    forall x | x in AncestorsAndSelf(p)
      ensures x in AncestorsAndSelf(q) + {p}
    {
      var i := |x.parts|;
      assert x == Path(p.parts[..i]);
      if i < |p.parts| {
        assert q.parts[..i] == p.parts[..i];
      }
    }
    forall x | x in AncestorsAndSelf(q)
      ensures x in AncestorsAndSelf(p)
    {
      var i := |x.parts|;
      assert x == Path(q.parts[..i]) && q.parts[..i] == p.parts[..i];
    }
  }
}
