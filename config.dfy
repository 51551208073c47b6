/**
 * The plugin's options, the settings it derives from them with JavaScript's
 * `||` defaulting, and the paths of the merged files it produces.
 */
module Config {
  import opened Wrappers
  import opened Paths

  /** What a caller may pass to `combineAudio`; every field is optional. */
  datatype Options = Options(
    fileRegex: Option<string -> bool>,
    outputTypes: Option<seq<string>>,
    filename: Option<string>,
    tempDir: Option<string>,
    outputDir: Option<string>)

  /** The values the hooks read once the defaults are applied. */
  datatype Settings = Settings(
    outputTypes: seq<string>,
    filename: string,
    tempDir: string,
    outputDir: string)

  const DefaultFilename: string := "merged-audio"
  const DefaultTempDir: string := "temp/audio"
  const DefaultOutputDir: string := "dist/audio"
  const DefaultOutputTypes: seq<string> := [".mp3", ".webm"]
  const ConcatListName: string := "concat-list.txt"

  /**
   * `option || fallback` for a string option: `undefined` and the empty
   * string are both falsy, so both give the fallback.
   */
  function OrDefault(option: Option<string>, fallback: string): (r: string)
    ensures option.Some? && option.value != [] ==> r == option.value
    ensures option.None? || option.value == [] ==> r == fallback
    ensures fallback != [] ==> r != []
  {
    if option.Some? && option.value != [] then option.value else fallback
  }

  /** The default `fileRegex`, `/\.mp3$/`: the id ends with `.mp3`. */
  predicate DefaultFileMatches(id: string) {
    EndsWith(id, ".mp3")
  }

  /** `options.fileRegex || /\.mp3$/` as a test on module ids. */
  function FileMatcher(options: Options): (matches: string -> bool)
    ensures options.fileRegex.Some? ==> matches == options.fileRegex.value
    ensures options.fileRegex.None? ==> forall id :: matches(id) == DefaultFileMatches(id)
  {
    match options.fileRegex
    case Some(test) => test
    case None => id => DefaultFileMatches(id)
  }

  /**
   * The settings `combineAudio` starts from. An array is always truthy in
   * JavaScript, so an empty `outputTypes` is kept rather than defaulted.
   */
  function Defaults(options: Options): (s: Settings)
    ensures s.filename != [] && s.tempDir != [] && s.outputDir != []
    ensures options.outputTypes.Some? ==> s.outputTypes == options.outputTypes.value
    ensures options.outputTypes.None? ==> s.outputTypes == DefaultOutputTypes
    ensures s.filename == OrDefault(options.filename, DefaultFilename)
    ensures s.tempDir == OrDefault(options.tempDir, DefaultTempDir)
    ensures s.outputDir == OrDefault(options.outputDir, DefaultOutputDir)
  {
    Settings(
      match options.outputTypes
      case Some(types) => types
      case None => DefaultOutputTypes,
      OrDefault(options.filename, DefaultFilename),
      OrDefault(options.tempDir, DefaultTempDir),
      OrDefault(options.outputDir, DefaultOutputDir))
  }

  /** `path.join(tempDir, filename + ext)`: where the merged file is written. */
  function MergedPath(s: Settings, ext: string): string {
    Join(s.tempDir, s.filename + ext)
  }

  /** `path.join(outputDir, filename + ext)`: where `writeBundle` moves it. */
  function PublishedPath(s: Settings, ext: string): string {
    Join(s.outputDir, s.filename + ext)
  }

  /** `path.join(tempDir, 'concat-list.txt')`: the merge manifest. */
  function ConcatListPath(s: Settings): string {
    Join(s.tempDir, ConcatListName)
  }

  /** The mp3 and webm merged paths are never the same file. */
  lemma MergedPathsDiffer(s: Settings)
    ensures MergedPath(s, ".mp3") != MergedPath(s, ".webm")
  {
    assert |MergedPath(s, ".mp3")| != |MergedPath(s, ".webm")|;
  }

  /**
   * The `outputs` list a metadata record carries: the temporary mp3 path when
   * `.mp3` is requested, then the temporary webm path when `.webm` is.
   */
  function Outputs(s: Settings): seq<string> {
    (if ".mp3" in s.outputTypes then [MergedPath(s, ".mp3")] else [])
      + (if ".webm" in s.outputTypes then [MergedPath(s, ".webm")] else [])
  }

  /**
   * At most two outputs, no duplicates, each present exactly when its
   * extension is requested, and the mp3 first.
   */
  lemma {:induction false} OutputsSpec(s: Settings)
    ensures var r := Outputs(s);
      && |r| <= 2
      && (MergedPath(s, ".mp3") in r <==> ".mp3" in s.outputTypes)
      && (MergedPath(s, ".webm") in r <==> ".webm" in s.outputTypes)
      && (forall p :: p in r ==> p == MergedPath(s, ".mp3") || p == MergedPath(s, ".webm"))
      && (".mp3" in s.outputTypes ==> r[0] == MergedPath(s, ".mp3"))
      && (|r| == 2 ==> r[0] != r[1])
  {
    MergedPathsDiffer(s);
  }

  /** Every output lies in the temporary directory, whatever `outputDir` is. */
  lemma {:induction false} OutputsInTempDir(s: Settings)
    ensures forall p :: p in Outputs(s) ==> |p| > |s.tempDir| && p[..|s.tempDir| + 1] == s.tempDir + "/"
  {
    OutputsSpec(s);
    forall p | p in Outputs(s)
      ensures |p| > |s.tempDir| && p[..|s.tempDir| + 1] == s.tempDir + "/"
    {
      var name := if p == MergedPath(s, ".mp3") then s.filename + ".mp3" else s.filename + ".webm";
      assert p == Join(s.tempDir, name);
      assert p[..|s.tempDir| + 1] == p[..|s.tempDir|] + [p[|s.tempDir|]];
    }
  }
  /** `outputs` is built from `tempDir` alone: changing `outputDir` leaves it as it is. */
  lemma {:induction false} OutputsIgnoreOutputDir(s: Settings, dir: string)
    ensures Outputs(s.(outputDir := dir)) == Outputs(s)
  {
    assert MergedPath(s.(outputDir := dir), ".mp3") == MergedPath(s, ".mp3");
    assert MergedPath(s.(outputDir := dir), ".webm") == MergedPath(s, ".webm");
  }


  /** With no options, the merged mp3 is `temp/audio/merged-audio.mp3`. */
  lemma DefaultMergedMp3()
    ensures MergedPath(Defaults(Options(None, None, None, None, None)), ".mp3") == "temp/audio/merged-audio.mp3"
  {
    var s := Defaults(Options(None, None, None, None, None));
    assert s.tempDir == "temp/audio" && s.filename == "merged-audio";
    assert s.filename + ".mp3" == "merged-audio.mp3";
    assert "temp/audio" + "/" + "merged-audio.mp3" == "temp/audio/merged-audio.mp3";
  }

  /** With no options, the merged webm is `temp/audio/merged-audio.webm`. */
  lemma DefaultMergedWebm()
    ensures MergedPath(Defaults(Options(None, None, None, None, None)), ".webm") == "temp/audio/merged-audio.webm"
  {
    var s := Defaults(Options(None, None, None, None, None));
    assert s.tempDir == "temp/audio" && s.filename == "merged-audio";
    assert s.filename + ".webm" == "merged-audio.webm";
    assert "temp/audio" + "/" + "merged-audio.webm" == "temp/audio/merged-audio.webm";
  }

  /** With no options, both merged files are listed, mp3 first, under `temp/audio`. */
  lemma DefaultOutputs()
    ensures Outputs(Defaults(Options(None, None, None, None, None)))
      == ["temp/audio/merged-audio.mp3", "temp/audio/merged-audio.webm"]
  {
    var s := Defaults(Options(None, None, None, None, None));
    assert s.outputTypes[0] == ".mp3" && s.outputTypes[1] == ".webm";
    DefaultMergedMp3();
    DefaultMergedWebm();
  }

  /** An explicitly empty `outputTypes` survives defaulting, so no output is listed. */
  lemma EmptyOutputTypesKept(options: Options)
    requires options.outputTypes == Some([])
    ensures Outputs(Defaults(options)) == []
  {
  }
}
