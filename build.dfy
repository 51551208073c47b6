/**
 * What `buildEnd` and `writeBundle` do, as ordered plans of file-system and
 * ffmpeg actions. The outcomes of the two ffmpeg runs are inputs; a failed
 * run is rethrown, so the plan stops right after it.
 */
module Build {
  import opened Wrappers
  import opened Paths
  import opened Config
  import opened ConcatList

  datatype Action =
    | EnsureDir(dir: string)
    /** `writeFileSync(path, content)` */
    | WriteFile(path: string, content: string)
    /** ffmpeg's concat demuxer reading `list` and writing `target` */
    | Merge(list: string, target: string)
    /** ffmpeg re-encoding `source` to Vorbis in `target` */
    | Transcode(source: string, target: string)
    | Remove(path: string)
    | Move(source: string, target: string)

  datatype Failure = MergeFailed | TranscodeFailed

  /** The actions taken, in order, and the error `buildEnd` rethrows if any. */
  datatype Outcome = Outcome(actions: seq<Action>, failure: Option<Failure>)

  /** The steps up to and including the merge. */
  function Prelude(s: Settings, files: seq<string>): seq<Action> {
    [EnsureDir(s.outputDir), EnsureDir(s.tempDir),
     WriteFile(ConcatListPath(s), Manifest(files)),
     Merge(ConcatListPath(s), MergedPath(s, ".mp3"))]
  }

  /**
   * `buildEnd` with the transcode guarded by `transcode`: nothing for no
   * files; otherwise directories, manifest, merge, the transcode when
   * guarded in, and the removal of the manifest, stopping at a failed run.
   */
  function BuildEndSteps(s: Settings, files: seq<string>, transcode: bool, mergeOk: bool, transcodeOk: bool): (o: Outcome)
    ensures files == [] ==> o == Outcome([], None)
    ensures files != [] ==> |o.actions| >= 4 && o.actions[..4] == Prelude(s, files)
    ensures o.failure == Some(MergeFailed) <==> files != [] && !mergeOk
    ensures o.failure == Some(MergeFailed) ==> |o.actions| == 4
    ensures files != [] ==> |o.actions| == 4 + (if mergeOk && transcode then 1 else 0) + (if o.failure.None? then 1 else 0)
    ensures o.failure == Some(TranscodeFailed) <==> files != [] && mergeOk && transcode && !transcodeOk
    ensures Transcode(MergedPath(s, ".mp3"), MergedPath(s, ".webm")) in o.actions <==> files != [] && mergeOk && transcode
    ensures files != [] && o.failure.None? ==> o.actions[|o.actions| - 1] == Remove(ConcatListPath(s))
    ensures o.failure.Some? ==> Remove(ConcatListPath(s)) !in o.actions
  {
    if files == [] then Outcome([], None)
    else
      var merged := Prelude(s, files);
      if !mergeOk then Outcome(merged, Some(MergeFailed))
      else if transcode then
        var converted := merged + [Transcode(MergedPath(s, ".mp3"), MergedPath(s, ".webm"))];
        if !transcodeOk then Outcome(converted, Some(TranscodeFailed))
        else Outcome(converted + [Remove(ConcatListPath(s))], None)
      else Outcome(merged + [Remove(ConcatListPath(s))], None)
  }

  /** `buildEnd` as written: the webm is generated when `.webm` is NOT requested. */
  function BuildEndPlan(s: Settings, files: seq<string>, mergeOk: bool, transcodeOk: bool): Outcome {
    BuildEndSteps(s, files, ".webm" !in s.outputTypes, mergeOk, transcodeOk)
  }

  /** `buildEnd` with the guard the comment and `writeBundle` call for: webm when requested. */
  function BuildEndPlanIntended(s: Settings, files: seq<string>, mergeOk: bool, transcodeOk: bool): Outcome {
    BuildEndSteps(s, files, ".webm" in s.outputTypes, mergeOk, transcodeOk)
  }

  /** `writeBundle`: one move from the temporary to the output directory per requested type, mp3 first. */
  function WriteBundlePlan(s: Settings): (moves: seq<Action>)
    ensures |moves| <= 2
    ensures Move(MergedPath(s, ".mp3"), PublishedPath(s, ".mp3")) in moves <==> ".mp3" in s.outputTypes
    ensures Move(MergedPath(s, ".webm"), PublishedPath(s, ".webm")) in moves <==> ".webm" in s.outputTypes
    ensures ".mp3" in s.outputTypes ==> moves[0] == Move(MergedPath(s, ".mp3"), PublishedPath(s, ".mp3"))
    ensures |moves| == |Outputs(s)|
    ensures forall i :: 0 <= i < |moves| ==> moves[i].Move? && moves[i].source == Outputs(s)[i]
  {
    MergedPathsDiffer(s);
    (if ".mp3" in s.outputTypes then [Move(MergedPath(s, ".mp3"), PublishedPath(s, ".mp3"))] else [])
      + (if ".webm" in s.outputTypes then [Move(MergedPath(s, ".webm"), PublishedPath(s, ".webm"))] else [])
  }

  /** `path` is written by one of the ffmpeg runs in `actions`. */
  predicate Produces(actions: seq<Action>, path: string) {
    exists a :: a in actions && (a.Merge? || a.Transcode?) && a.target == path
  }

  // ---------------------------------------------------------------------
  // Lemmas.

  /** The merged mp3 is always produced by a build that got past the merge. */
  lemma {:induction false} MergeProducesMp3(s: Settings, files: seq<string>, transcode: bool, transcodeOk: bool)
    requires files != []
    ensures Produces(BuildEndSteps(s, files, transcode, true, transcodeOk).actions, MergedPath(s, ".mp3"))
  {
    var o := BuildEndSteps(s, files, transcode, true, transcodeOk);
    assert o.actions[3] == Merge(ConcatListPath(s), MergedPath(s, ".mp3"));
  }

  /**
   * As written, requesting `.webm` means no webm is ever generated, yet
   * `writeBundle` moves one: the move's source is produced by no step.
   */
  lemma {:induction false} WebmRequestedNeverProduced(s: Settings, files: seq<string>, mergeOk: bool, transcodeOk: bool)
    requires ".webm" in s.outputTypes
    ensures !Produces(BuildEndPlan(s, files, mergeOk, transcodeOk).actions, MergedPath(s, ".webm"))
    ensures Move(MergedPath(s, ".webm"), PublishedPath(s, ".webm")) in WriteBundlePlan(s)
  {
    var o := BuildEndPlan(s, files, mergeOk, transcodeOk);
    MergedPathsDiffer(s);
    forall a | a in o.actions && (a.Merge? || a.Transcode?)
      ensures a.target != MergedPath(s, ".webm")
    {
      assert a == Merge(ConcatListPath(s), MergedPath(s, ".mp3"));
    }
  }

  /**
   * As written, leaving `.webm` out still spends an ffmpeg run on a webm
   * that `writeBundle` never moves.
   */
  lemma {:induction false} WebmUnrequestedStillGenerated(s: Settings, files: seq<string>, transcodeOk: bool)
    requires ".webm" !in s.outputTypes && files != []
    ensures Transcode(MergedPath(s, ".mp3"), MergedPath(s, ".webm")) in BuildEndPlan(s, files, true, transcodeOk).actions
    ensures Move(MergedPath(s, ".webm"), PublishedPath(s, ".webm")) !in WriteBundlePlan(s)
  {
  }

  /**
   * With the intended guard, a successful build produces every file
   * `writeBundle` then moves.
   */
  lemma {:induction false} IntendedProducesEveryMove(s: Settings, files: seq<string>)
    requires files != []
    ensures var o := BuildEndPlanIntended(s, files, true, true);
      o.failure.None? && forall m :: m in WriteBundlePlan(s) ==> Produces(o.actions, m.source)
  {
    var o := BuildEndPlanIntended(s, files, true, true);
    forall m | m in WriteBundlePlan(s) ensures Produces(o.actions, m.source) {
      if m.source == MergedPath(s, ".mp3") {
        MergeProducesMp3(s, files, ".webm" in s.outputTypes, true);
      } else {
        assert m.source == MergedPath(s, ".webm");
        assert Transcode(MergedPath(s, ".mp3"), MergedPath(s, ".webm")) in o.actions;
      }
    }
  }

  /** With the intended guard, the transcode runs exactly when `.webm` is requested. */
  lemma {:induction false} IntendedTranscodesIffRequested(s: Settings, files: seq<string>, transcodeOk: bool)
    requires files != []
    ensures Transcode(MergedPath(s, ".mp3"), MergedPath(s, ".webm")) in BuildEndPlanIntended(s, files, true, transcodeOk).actions
      <==> ".webm" in s.outputTypes
  {
  }
}
