/**
 * The name derivations of the chapter viewer's helpers (python/visualizer/utils.py):
 * `get_tutorial_file_list` turns the matched `content.py` paths into chapter directories
 * and "folder/chapter" labels, and `get_img_list` turns the matched images into the
 * texture menu, headed by "None". The glob results are parameters, in the order glob
 * returned them, and `os.path.abspath` is an uninterpreted function.
 */
module TutorialFiles {
  import opened Outcomes

  const SEP: char := '/'
  const CONTENT_FILE := "content.py"
  const NO_IMAGE := "None"

  /** `sep.join(parts)`. */
  function Join(parts: seq<string>, sep: char): string
    decreases |parts|
  {
    if |parts| == 0 then ""
    else if |parts| == 1 then parts[0]
    else parts[0] + [sep] + Join(parts[1..], sep)
  }

  /** `s.split(sep)` for a one-character separator: the pieces between separators. */
  function Split(s: string, sep: char): (r: seq<string>)
    ensures |r| >= 1
    ensures forall i :: 0 <= i < |r| ==> sep !in r[i]
    decreases |s|
  {
    if |s| == 0 then [""]
    else
      var rest := Split(s[1..], sep);
      if s[0] == sep then [""] + rest
      else [[s[0]] + rest[0]] + rest[1..]
  }

  /** Joining the pieces with the separator gives back the string. */
  lemma {:induction false} JoinSplit(s: string, sep: char)
    ensures Join(Split(s, sep), sep) == s
    decreases |s|
  {
    if |s| > 0 {
      var rest := Split(s[1..], sep);
      JoinSplit(s[1..], sep);
      if s[0] == sep {
        assert ([""] + rest)[1..] == rest;
      } else {
        var r := [[s[0]] + rest[0]] + rest[1..];
        if |rest| > 1 {
          assert r[1..] == rest[1..];
        }
        assert Join(r, sep) == [s[0]] + Join(rest, sep);
      }
    }
  }

  /** A separator-free string splits into itself. */
  lemma {:induction false} SplitNoSeparator(s: string, sep: char)
    requires sep !in s
    ensures Split(s, sep) == [s]
    decreases |s|
  {
    if |s| > 0 {
      SplitNoSeparator(s[1..], sep);
      assert [s[0]] + s[1..] == s;
    }
  }

  /** Splitting stops at the first separator. */
  lemma {:induction false} SplitAtFirst(a: string, sep: char, b: string)
    requires sep !in a
    ensures Split(a + [sep] + b, sep) == [a] + Split(b, sep)
    decreases |a|
  {
    if |a| == 0 {
      assert a + [sep] + b == [sep] + b;
      assert ([sep] + b)[1..] == b;
    } else {
      assert (a + [sep] + b)[1..] == a[1..] + [sep] + b;
      SplitAtFirst(a[1..], sep, b);
      assert [a[0]] + a[1..] == a;
    }
  }

  /** Split undoes Join when no part holds the separator: the label round-trip. */
  lemma {:induction false} SplitJoin(parts: seq<string>, sep: char)
    requires |parts| >= 1
    requires forall i :: 0 <= i < |parts| ==> sep !in parts[i]
    ensures Split(Join(parts, sep), sep) == parts
    decreases |parts|
  {
    if |parts| == 1 {
      SplitNoSeparator(parts[0], sep);
    } else {
      SplitJoin(parts[1..], sep);
      SplitAtFirst(parts[0], sep, Join(parts[1..], sep));
      assert [parts[0]] + parts[1..] == parts;
    }
  }

  /** `segments[-n]`: the n-th segment from the end, or IndexError. */
  function FromEnd(segments: seq<string>, n: nat): (r: Result<string>)
    requires n >= 1
    ensures r.Ok? <==> n <= |segments|
    ensures r.Err? ==> r.error == IndexError
    ensures r.Ok? ==> r.value == segments[|segments| - n]
  {
    if n <= |segments| then Ok(segments[|segments| - n]) else Err(IndexError)
  }

  /** `img.split("/")[-1]`: the last path segment, the file name. */
  function LastSegment(path: string): (r: string)
    ensures SEP !in r
  {
    var segments := Split(path, SEP);
    segments[|segments| - 1]
  }

  /** The last piece of a join ends the joined string, right after a separator if there is more. */
  lemma {:induction false} JoinEndsWithLast(parts: seq<string>, sep: char)
    requires |parts| >= 1
    ensures var s, last := Join(parts, sep), parts[|parts| - 1];
            |last| <= |s| && s[|s| - |last|..] == last
            && (|parts| > 1 ==> |last| < |s| && s[|s| - |last| - 1] == sep)
    decreases |parts|
  {
    if |parts| > 1 {
      JoinEndsWithLast(parts[1..], sep);
    }
  }

  /** The file name is the path's tail after its last "/", or the whole path if it has none. */
  lemma LastSegmentIsFileName(path: string)
    ensures var name := LastSegment(path);
            |name| <= |path| && path[|path| - |name|..] == name
            && (|name| < |path| ==> path[|path| - |name| - 1] == SEP)
  {
    JoinSplit(path, SEP);
    JoinEndsWithLast(Split(path, SEP), SEP);
  }

  /** `s.split(pattern)[0]`: the text before the first occurrence of pattern, or all of s. */
  function PrefixBefore(s: string, pattern: string): (r: string)
    requires |pattern| > 0
    ensures r <= s
    ensures r == s || pattern <= s[|r|..]
    ensures forall i :: 0 <= i < |r| ==> !(pattern <= s[i..])
    decreases |s|
  {
    if |s| == 0 || pattern <= s then ""
    else
      var rest := PrefixBefore(s[1..], pattern);
      assert forall i :: 1 <= i <= |s| ==> s[i..] == s[1..][i - 1..];
      [s[0]] + rest
  }

  /** The "folder/chapter" label of a `content.py` path, or the IndexError of a short path. */
  function Label(file: string): (r: Result<string>)
    ensures r.Ok? <==> |Split(file, SEP)| >= 3
    ensures r.Err? ==> r.error == IndexError
  {
    var segments := Split(file, SEP);
    match FromEnd(segments, 2)
    case Err(e) => Err(e)
    case Ok(chapterName) =>
      match FromEnd(segments, 3)
      case Err(e) => Err(e)
      case Ok(folderName) => Ok(folderName + [SEP] + chapterName)
  }

  /**
   * Splitting a path's label on "/" gives back exactly the path's folder and chapter
   * segments, which the viewer turns into the module path of the chapter.
   */
  lemma LabelSplitsBack(file: string)
    requires Label(file).Ok?
    ensures var segments := Split(file, SEP);
            Split(Label(file).value, SEP) == [segments[|segments| - 3], segments[|segments| - 2]]
  {
    var segments := Split(file, SEP);
    var n := |segments|;
    var folder, chapter := segments[n - 3], segments[n - 2];
    assert SEP !in folder && SEP !in chapter;
    assert Label(file).value == folder + [SEP] + chapter;
    LabelRoundTrip(folder, chapter);
  }

  /** The chapter directory of a `content.py` path: abspath of the text before "content.py". */
  function ChapterDir(abspath: string -> string, file: string): string
  {
    abspath(PrefixBefore(file, CONTENT_FILE))
  }

  /**
   * `get_tutorial_file_list()` over the glob matches `files`: one directory and one label
   * per match, in match order; a match with fewer than three segments raises IndexError.
   */
  method GetTutorialFileList(abspath: string -> string, files: seq<string>)
    returns (r: Result<(seq<string>, seq<string>)>)
    ensures r.Ok? <==> forall k :: 0 <= k < |files| ==> |Split(files[k], SEP)| >= 3
    ensures r.Err? ==> r.error == IndexError
    ensures r.Ok? ==>
      var (dirs, labels) := r.value;
      && |dirs| == |files| && |labels| == |files|
      && (forall k :: 0 <= k < |files| ==> dirs[k] == ChapterDir(abspath, files[k]))
      && (forall k :: 0 <= k < |files| ==> Label(files[k]) == Ok(labels[k]))
  {
    var dirs: seq<string> := [];
    var labels: seq<string> := [];
    var i := 0;
    while i < |files|
      invariant 0 <= i <= |files|
      invariant |dirs| == i && |labels| == i
      invariant forall k :: 0 <= k < i ==> |Split(files[k], SEP)| >= 3
      invariant forall k :: 0 <= k < i ==> dirs[k] == ChapterDir(abspath, files[k])
      invariant forall k :: 0 <= k < i ==> Label(files[k]) == Ok(labels[k])
    {
      var segments := Split(files[i], SEP);
      var chapterName := FromEnd(segments, 2);
      if chapterName.Err? {
        assert |Split(files[i], SEP)| < 3;
        return Err(IndexError);
      }
      var folderName := FromEnd(segments, 3);
      if folderName.Err? {
        assert |Split(files[i], SEP)| < 3;
        return Err(IndexError);
      }
      var chapterLabel := folderName.value + [SEP] + chapterName.value;
      assert Label(files[i]) == Ok(chapterLabel);
      dirs := dirs + [ChapterDir(abspath, files[i])];
      labels := labels + [chapterLabel];
      i := i + 1;
    }
    return Ok((dirs, labels));
  }

  /**
   * Splitting a label on "/" gives back exactly its folder and chapter, which the viewer
   * turns into the module path of the chapter.
   */
  lemma LabelRoundTrip(folder: string, chapter: string)
    requires SEP !in folder && SEP !in chapter
    ensures Split(folder + [SEP] + chapter, SEP) == [folder, chapter]
  {
    assert Join([folder, chapter], SEP) == folder + [SEP] + chapter;
    SplitJoin([folder, chapter], SEP);
  }

  /**
   * `get_img_list(file_path)` over the glob matches: the paths are the .jpg matches then
   * the .png matches; the names are "None" followed by the file name of each path, so menu
   * entry k >= 1 names path k - 1.
   */
  method GetImgList(jpgMatches: seq<string>, pngMatches: seq<string>)
    returns (paths: seq<string>, names: seq<string>)
    ensures paths == jpgMatches + pngMatches
    ensures |names| == |paths| + 1 && names[0] == NO_IMAGE
    ensures forall k :: 1 <= k < |names| ==> names[k] == LastSegment(paths[k - 1])
  {
    paths := jpgMatches;
    paths := paths + pngMatches;
    names := [NO_IMAGE];
    var i := 0;
    while i < |paths|
      invariant 0 <= i <= |paths|
      invariant |names| == i + 1 && names[0] == NO_IMAGE
      invariant forall k :: 1 <= k <= i ==> names[k] == LastSegment(paths[k - 1])
    {
      names := names + [LastSegment(paths[i])];
      i := i + 1;
    }
  }
}
