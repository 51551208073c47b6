/**
 * The object `combineAudio(options)` returns, with the closure variables
 * its hooks share as fields. `transform` and `configResolved` update them in
 * place; `buildEnd` and `writeBundle` read them and give their plans.
 */
module Plugin {
  import opened Wrappers
  import opened Paths
  import opened Duration
  import opened Config
  import opened Timeline
  import opened ConcatList
  import opened Build

  class CombineAudio {
    const fileMatches: string -> bool
    const outputTypes: seq<string>
    const filename: string
    var tempDir: string
    var outputDir: string
    var audioFiles: seq<string>
    var currentTime: nat

    /** Every `transform` call so far, with what its probe came to. */
    ghost var calls: seq<Call>
    /** Every metadata record exported so far, in order. */
    ghost var items: seq<Metadata>

    /** The fields agree with the history of calls, as `Timeline.Consistent` says. */
    ghost predicate Valid()
      reads this
    {
      Consistent(CurrentState(), fileMatches, calls, items)
    }

    function CurrentSettings(): Settings
      reads this
    {
      Config.Settings(outputTypes, filename, tempDir, outputDir)
    }

    function CurrentState(): State
      reads this
    {
      Timeline.State(audioFiles, currentTime)
    }

    constructor(options: Options)
      ensures CurrentSettings() == Defaults(options) && fileMatches == FileMatcher(options)
      ensures audioFiles == [] && currentTime == 0 && calls == [] && items == []
      ensures Valid()
    {
      audioFiles := [];
      filename := OrDefault(options.filename, DefaultFilename);
      tempDir := OrDefault(options.tempDir, DefaultTempDir);
      outputDir := OrDefault(options.outputDir, DefaultOutputDir);
      currentTime := 0;
      fileMatches := FileMatcher(options);
      outputTypes := if options.outputTypes.Some? then options.outputTypes.value else DefaultOutputTypes;
      calls := [];
      items := [];
    }

    /** `configResolved`: both directories are resolved against the project root. */
    method ConfigResolved(root: string)
      requires Valid()
      modifies this
      ensures Valid()
      ensures tempDir == Resolve(root, old(tempDir)) && outputDir == Resolve(root, old(outputDir))
      ensures audioFiles == old(audioFiles) && currentTime == old(currentTime)
      ensures calls == old(calls) && items == old(items)
    {
      tempDir := Resolve(root, tempDir);
      outputDir := Resolve(root, outputDir);
    }

    /**
     * The record `transform` exports for an audio id: the outputs list, then
     * the probe's duration read from whichever path ffmpeg took; only a
     * thrown probe without a duration is logged.
     */
    method Describe(id: string, probe: Probe) returns (item: Option<Metadata>, logged: bool)
      ensures item.Some? <==> Measure(probe).duration.Some?
      ensures item.Some? ==>
        item.value == Metadata(Outputs(CurrentSettings()), Basename(id), currentTime, Measure(probe).duration.value)
      ensures logged <==> item.None? && probe.Threw?
    {
      var outputs: seq<string> := [];
      if ".mp3" in outputTypes {
        outputs := outputs + [Join(tempDir, filename + ".mp3")];
      }
      if ".webm" in outputTypes {
        outputs := outputs + [Join(tempDir, filename + ".webm")];
      }
      assert outputs == Outputs(CurrentSettings());
      item := None;
      logged := false;
      match probe {
        case Exited(output) =>
          var duration := ParseDuration(output);
          assert duration == Measure(probe).duration;
          if duration.Some? {
            item := Some(Metadata(outputs, Basename(id), currentTime, duration.value));
          }
        case Threw(stdout) =>
          var duration := ParseDuration(stdout);
          assert duration == Measure(probe).duration;
          if duration.Some? {
            item := Some(Metadata(outputs, Basename(id), currentTime, duration.value));
          } else {
            logged := true;
          }
      }
    }

    /**
     * `transform(src, id)` with ffmpeg's probe of `id` as an input: the new
     * state and the result are one `Timeline.Step` from the old state.
     */
    method Transform(id: string, probe: Probe) returns (res: Transformed)
      requires Valid()
      modifies this
      ensures Valid()
      ensures var r := Step(old(CurrentState()), old(CurrentSettings()), fileMatches, Call(id, Measure(probe)));
        CurrentState() == r.0 && res == r.1
      ensures calls == old(calls) + [Call(id, Measure(probe))]
      ensures items == old(items) + Exported(res)
      ensures tempDir == old(tempDir) && outputDir == old(outputDir)
    {
      var call := Call(id, Measure(probe));
      ghost var r := Step(CurrentState(), CurrentSettings(), fileMatches, call);
      ghost var calls', items' := calls + [call], items + Exported(r.1);
      StepKeepsConsistent(CurrentState(), CurrentSettings(), fileMatches, calls, items, call);
      assert Consistent(r.0, fileMatches, calls', items');
      if !fileMatches(id) {
        calls := calls';
        return NotAudio;
      }
      res := Collect(id, probe);
      assert CurrentState() == r.0 && calls == calls' && items == items';
    }

    /** The audio branch of `transform`: collect the id, then describe it and move the clock. */
    method Collect(id: string, probe: Probe) returns (res: Transformed)
      requires fileMatches(id)
      modifies this
      ensures var r := Step(old(CurrentState()), old(CurrentSettings()), fileMatches, Call(id, Measure(probe)));
        CurrentState() == r.0 && res == r.1
      ensures calls == old(calls) + [Call(id, Measure(probe))]
      ensures items == old(items) + Exported(res)
      ensures tempDir == old(tempDir) && outputDir == old(outputDir)
    {
      var call := Call(id, Measure(probe));
      ghost var expected := Step(CurrentState(), CurrentSettings(), fileMatches, call);
      audioFiles := audioFiles + [id];
      var item, logged := Describe(id, probe);
      assert expected.1 == Module(item, logged);
      if item.Some? {
        currentTime := currentTime + item.value.duration;
      }
      calls, items := calls + [call], items + Exported(expected.1);
      res := Module(item, logged);
    }

    /** `buildEnd` as written, with the outcomes of the two ffmpeg runs as inputs. */
    method BuildEnd(mergeOk: bool, transcodeOk: bool) returns (o: Outcome)
      ensures o == BuildEndPlan(CurrentSettings(), audioFiles, mergeOk, transcodeOk)
    {
      if |audioFiles| == 0 {
        return Outcome([], None);
      }
      var actions := [EnsureDir(outputDir), EnsureDir(tempDir)];
      var concatFilePath := Join(tempDir, ConcatListName);
      actions := actions + [WriteFile(concatFilePath, Manifest(audioFiles))];
      var mp3Path := Join(tempDir, filename + ".mp3");
      actions := actions + [Merge(concatFilePath, mp3Path)];
      if !mergeOk {
        return Outcome(actions, Some(MergeFailed));
      }
      if ".webm" !in outputTypes {
        var webmPath := Join(tempDir, filename + ".webm");
        actions := actions + [Transcode(mp3Path, webmPath)];
        if !transcodeOk {
          return Outcome(actions, Some(TranscodeFailed));
        }
      }
      actions := actions + [Remove(concatFilePath)];
      o := Outcome(actions, None);
    }

    /** `writeBundle`: the moves it starts, in order. */
    method WriteBundle() returns (moves: seq<Action>)
      ensures moves == WriteBundlePlan(CurrentSettings())
    {
      moves := [];
      if ".mp3" in outputTypes {
        moves := moves + [Move(Join(tempDir, filename + ".mp3"), Join(outputDir, filename + ".mp3"))];
      }
      if ".webm" in outputTypes {
        moves := moves + [Move(Join(tempDir, filename + ".webm"), Join(outputDir, filename + ".webm"))];
      }
    }
  }
}
