/**
 * The concat list `buildEnd` writes for ffmpeg's concat demuxer: one
 * `file '<path>'` line per collected audio file, backslashes turned into
 * forward slashes, lines joined by a newline with none after the last.
 * A reader for the same line syntax is the builder's partner.
 */
module ConcatList {
  import opened Wrappers
  import opened Paths

  const Keyword: string := "file '"

  /** `` `file '${file.replace(/\\/g, '/')}'` `` */
  function ManifestLine(file: string): string {
    Keyword + ForwardSlashes(file) + "'"
  }

  function Lines(files: seq<string>): (ls: seq<string>)
    ensures |ls| == |files|
    ensures forall i :: 0 <= i < |files| ==> ls[i] == ManifestLine(files[i])
  {
    seq(|files|, i requires 0 <= i < |files| => ManifestLine(files[i]))
  }

  /** `lines.join('\n')`. */
  function JoinLines(lines: seq<string>): string
    decreases |lines|
  {
    if lines == [] then []
    else if |lines| == 1 then lines[0]
    else lines[0] + "\n" + JoinLines(lines[1..])
  }

  function AllForwardSlashes(files: seq<string>): (r: seq<string>)
    ensures |r| == |files|
    ensures forall i :: 0 <= i < |files| ==> r[i] == ForwardSlashes(files[i])
  {
    seq(|files|, i requires 0 <= i < |files| => ForwardSlashes(files[i]))
  }

  /** The text of the concat list for the collected files. */
  function Manifest(files: seq<string>): string {
    JoinLines(Lines(files))
  }

  // ---------------------------------------------------------------------
  // The reading side: splitting into lines and reading one `file` line.

  /** `text.split('\n')`: the pieces between newlines (one piece for text without any). */
  function SplitLines(text: string): (ls: seq<string>)
    ensures |ls| > 0
    decreases |text|
  {
    if text == [] then [[]]
    else
      var rest := SplitLines(text[1..]);
      if text[0] == '\n' then [[]] + rest
      else [[text[0]] + rest[0]] + rest[1..]
  }

  /**
   * A concat-list line naming a file in single quotes: the keyword, an
   * opening quote, the path with no quote inside, and the closing quote.
   */
  function ReadFileLine(line: string): (r: Option<string>)
    ensures r.Some? ==> '\'' !in r.value && line == Keyword + r.value + "'"
  {
    if |line| >= |Keyword| + 1 && line[..|Keyword|] == Keyword && line[|line| - 1] == '\''
       && '\'' !in line[|Keyword|..|line| - 1]
    then
      assert line == line[..|Keyword|] + line[|Keyword|..|line| - 1] + [line[|line| - 1]];
      Some(line[|Keyword|..|line| - 1])
    else None
  }

  /** Every line read in order, or None when any line is not a `file` line. */
  function ReadManifest(text: string): Option<seq<string>> {
    ReadLines(SplitLines(text))
  }

  function ReadLines(lines: seq<string>): (r: Option<seq<string>>)
    ensures r.Some? ==> |r.value| == |lines|
    decreases |lines|
  {
    if lines == [] then Some([])
    else
      match (ReadFileLine(lines[0]), ReadLines(lines[1..]))
      case (Some(path), Some(paths)) => Some([path] + paths)
      case _ => None
  }

  // ---------------------------------------------------------------------
  // Lemmas.

  /** Text without a newline is a single line. */
  lemma {:induction false} SplitSingle(a: string)
    requires '\n' !in a
    ensures SplitLines(a) == [a]
    decreases |a|
  {
    if a != [] {
      SplitSingle(a[1..]);
      assert [a[0]] + a[1..] == a;
    }
  }

  /** A newline after a newline-free prefix separates exactly that prefix. */
  lemma {:induction false} SplitAfter(a: string, rest: string)
    requires '\n' !in a
    ensures SplitLines(a + "\n" + rest) == [a] + SplitLines(rest)
    decreases |a|
  {
    var t := a + "\n" + rest;
    if a == [] {
      assert t[1..] == rest;
    } else {
      assert t[1..] == a[1..] + "\n" + rest;
      SplitAfter(a[1..], rest);
      assert [a[0]] + a[1..] == a;
    }
  }

  /** Splitting undoes joining for lines without newlines. */
  lemma {:induction false} SplitJoin(lines: seq<string>)
    requires lines != []
    requires forall i :: 0 <= i < |lines| ==> '\n' !in lines[i]
    ensures SplitLines(JoinLines(lines)) == lines
    decreases |lines|
  {
    if |lines| == 1 {
      SplitSingle(lines[0]);
    } else {
      SplitJoin(lines[1..]);
      SplitAfter(lines[0], JoinLines(lines[1..]));
      assert [lines[0]] + lines[1..] == lines;
    }
  }

  lemma {:induction false} JoinNoBackslash(lines: seq<string>)
    requires forall i :: 0 <= i < |lines| ==> '\\' !in lines[i]
    ensures '\\' !in JoinLines(lines)
    decreases |lines|
  {
    if |lines| > 1 {
      JoinNoBackslash(lines[1..]);
    }
  }

  /**
   * A line reads back as the path with forward slashes exactly when the
   * path has no single quote. With a quote the line no longer names the path
   * (ffmpeg takes `'` as a quote toggle), and this reader rejects it.
   */
  lemma {:induction false} LineRoundTrip(file: string)
    ensures '\'' !in file ==> ReadFileLine(ManifestLine(file)) == Some(ForwardSlashes(file))
    ensures '\'' in file ==> ReadFileLine(ManifestLine(file)) == None
  {
    var line := ManifestLine(file);
    var p := ForwardSlashes(file);
    assert line[..|Keyword|] == Keyword;
    assert line[|Keyword|..|line| - 1] == p;
    if '\'' in file {
      var i :| 0 <= i < |file| && file[i] == '\'';
      assert p[i] == '\'';
      assert p[i] in line[|Keyword|..|line| - 1];
    } else {
      forall i | 0 <= i < |p| ensures p[i] != '\'' {
        assert file[i] != '\'';
      }
    }
  }

  /** The manifest holds no backslash. */
  lemma {:induction false} ManifestNoBackslash(files: seq<string>)
    ensures '\\' !in Manifest(files)
  {
    var ls := Lines(files);
    forall i | 0 <= i < |ls| ensures '\\' !in ls[i] {
      ForwardSlashesHasNoBackslash(files[i]);
      assert ls[i] == Keyword + ForwardSlashes(files[i]) + "'";
    }
    JoinNoBackslash(ls);
  }

  /**
   * One line per collected file, in order, each the file line of that entry
   * (for paths without newlines, which would split a line).
   */
  lemma {:induction false} ManifestLines(files: seq<string>)
    requires files != []
    requires forall i :: 0 <= i < |files| ==> '\n' !in files[i]
    ensures SplitLines(Manifest(files)) == Lines(files)
  {
    var ls := Lines(files);
    forall i | 0 <= i < |ls| ensures '\n' !in ls[i] {
      var p := ForwardSlashes(files[i]);
      forall k | 0 <= k < |p| ensures p[k] != '\n' {
        assert files[i][k] != '\n';
      }
      assert ls[i] == Keyword + p + "'";
    }
    SplitJoin(ls);
  }

  lemma {:induction false} ReadAllLines(files: seq<string>)
    requires forall i :: 0 <= i < |files| ==> '\'' !in files[i]
    ensures ReadLines(Lines(files)) == Some(AllForwardSlashes(files))
    decreases |files|
  {
    if files != [] {
      ReadAllLines(files[1..]);
      LineRoundTrip(files[0]);
      assert Lines(files)[1..] == Lines(files[1..]);
      assert AllForwardSlashes(files) == [ForwardSlashes(files[0])] + AllForwardSlashes(files[1..]);
    }
  }

  /**
   * Reading the manifest gives back every collected path, in order, with
   * forward slashes, for paths free of newlines and single quotes.
   */
  lemma {:induction false} ManifestRoundTrip(files: seq<string>)
    requires files != []
    requires forall i :: 0 <= i < |files| ==> '\n' !in files[i] && '\'' !in files[i]
    ensures ReadManifest(Manifest(files)) == Some(AllForwardSlashes(files))
  {
    ManifestLines(files);
    ReadAllLines(files);
  }

  /** Two files give two lines joined by one newline and no trailing newline. */
  lemma ExampleManifest()
    ensures Manifest(["C:\\a.mp3", "/b.mp3"]) == "file 'C:/a.mp3'\nfile '/b.mp3'"
  {
    var files := ["C:\\a.mp3", "/b.mp3"];
    assert ForwardSlashes(files[0]) == "C:/a.mp3";
    assert ForwardSlashes(files[1]) == "/b.mp3";
    assert Lines(files)[0] == "file 'C:/a.mp3'";
    assert Lines(files)[1] == "file '/b.mp3'";
    assert Lines(files)[1..] == ["file '/b.mp3'"];
  }
}
