/**
 * The `transform` hook as a pure step on the plugin's bookkeeping: the list
 * of collected audio ids and the running clock, with the metadata record
 * each audio module is turned into. `Run` replays a sequence of transforms
 * and the lemmas state what the whole sequence builds.
 */
module Timeline {
  import opened Wrappers
  import opened Paths
  import opened Duration
  import opened Config

  /** The object a matching module exports: where the merged audio goes and this file's slot in it. */
  datatype Metadata = Metadata(output: seq<string>, filename: string, startTime: nat, duration: nat)

  /**
   * What running `ffmpeg -i <file>` gives back: its output when it exits
   * normally, or the `stdout` of the error it throws otherwise.
   */
  datatype Probe = Exited(output: string) | Threw(stdout: string)

  /**
   * The hook's result: nothing for a module that is not audio, otherwise the
   * exported record (None for `export default undefined`) and whether an
   * error was logged.
   */
  datatype Transformed = NotAudio | Module(item: Option<Metadata>, loggedError: bool)

  /** The closure state `transform` updates. */
  datatype State = State(audioFiles: seq<string>, currentTime: nat)

  /**
   * What probing a file comes to: whether ffmpeg threw, and the duration
   * parsed from the text it left (None when the text has no match).
   */
  datatype Measured = Measured(threw: bool, duration: Option<nat>)

  /** One call of the hook: the module id and what probing it comes to. */
  datatype Call = Call(id: string, measured: Measured)

  const Initial: State := State([], 0)

  function ProbeText(probe: Probe): string {
    match probe
    case Exited(output) => output
    case Threw(stdout) => stdout
  }

  /**
   * Both paths of the probe parse the same text the same way
   * (`src/index.ts` lines 79-85 and 98-105 are one conversion).
   */
  function Measure(probe: Probe): (m: Measured)
    ensures m.threw <==> probe.Threw?
    ensures m.duration.Some? ==> ContainsLabel(ProbeText(probe))
  {
    ParseDurationFound(ProbeText(probe));
    Measured(probe.Threw?, ParseDuration(ProbeText(probe)))
  }

  /** A probe that exits and one that throws with the same text give the same duration. */
  lemma SameConversion(text: string)
    ensures Measure(Exited(text)).duration == Measure(Threw(text)).duration
    ensures Measure(Exited(text)).duration == ParseDuration(text)
  {
  }

  /**
   * One `transform(src, id)` call. A matching id is appended to `audioFiles`;
   * when the probe gave a duration the record starts at the current clock
   * and the clock advances by it; otherwise the record is undefined and only
   * a thrown probe is logged.
   */
  function Step(st: State, s: Settings, matches: string -> bool, call: Call): (r: (State, Transformed))
    ensures !matches(call.id) <==> r.1 == NotAudio
    ensures !matches(call.id) ==> r.0 == st
    ensures matches(call.id) ==> r.0.audioFiles == st.audioFiles + [call.id]
    ensures matches(call.id) ==> (r.1.item.Some? <==> call.measured.duration.Some?)
    ensures r.1.Module? && r.1.item.Some? ==>
      && r.1.item.value == Metadata(Outputs(s), Basename(call.id), st.currentTime, call.measured.duration.value)
      && r.0.currentTime == st.currentTime + call.measured.duration.value
      && !r.1.loggedError
    ensures r.1.Module? && r.1.item.None? ==>
      r.0.currentTime == st.currentTime && (r.1.loggedError <==> call.measured.threw)
  {
    if !matches(call.id) then (st, NotAudio)
    else
      var files := st.audioFiles + [call.id];
      match call.measured.duration
      case Some(d) =>
        (State(files, st.currentTime + d),
         Module(Some(Metadata(Outputs(s), Basename(call.id), st.currentTime, d)), false))
      case None =>
        (State(files, st.currentTime), Module(None, call.measured.threw))
  }

  /** The state after a sequence of calls, and each call's result in order. */
  function Run(st: State, s: Settings, matches: string -> bool, calls: seq<Call>): (r: (State, seq<Transformed>))
    ensures |r.1| == |calls|
    decreases |calls|
  {
    if calls == [] then (st, [])
    else
      var before := Run(st, s, matches, calls[..|calls| - 1]);
      var after := Step(before.0, s, matches, calls[|calls| - 1]);
      (after.0, before.1 + [after.1])
  }

  // ---------------------------------------------------------------------
  // Reference definitions the replay lemmas are stated against.

  function Sum(xs: seq<nat>): nat
    decreases |xs|
  {
    if xs == [] then 0 else Sum(xs[..|xs| - 1]) + xs[|xs| - 1]
  }

  function Durations(items: seq<Metadata>): (ds: seq<nat>)
    ensures |ds| == |items|
    ensures forall i :: 0 <= i < |items| ==> ds[i] == items[i].duration
    decreases |items|
  {
    if items == [] then [] else Durations(items[..|items| - 1]) + [items[|items| - 1].duration]
  }

  /** The records the results export, in order. */
  function Items(results: seq<Transformed>): seq<Metadata>
    decreases |results|
  {
    if results == [] then []
    else
      Items(results[..|results| - 1]) + Exported(results[|results| - 1])
  }

  /** The record one result exports, if any. */
  function Exported(t: Transformed): seq<Metadata> {
    if t.Module? && t.item.Some? then [t.item.value] else []
  }

  /** The ids of the calls that match, in call order, repeats included. */
  function MatchingIds(matches: string -> bool, calls: seq<Call>): seq<string>
    decreases |calls|
  {
    if calls == [] then []
    else
      var last := calls[|calls| - 1];
      MatchingIds(matches, calls[..|calls| - 1]) + (if matches(last.id) then [last.id] else [])
  }

  /** Each record starts where all earlier records together end. */
  predicate StartsArePrefixSums(items: seq<Metadata>, base: nat) {
    forall i :: 0 <= i < |items| ==> items[i].startTime == base + Sum(Durations(items[..i]))
  }

  /**
   * The bookkeeping agrees with the history: the collected ids are the
   * matching ids of the calls so far, and the records exported so far lie
   * end to end from 0 up to the clock.
   */
  predicate Consistent(st: State, matches: string -> bool, calls: seq<Call>, items: seq<Metadata>) {
    && st.audioFiles == MatchingIds(matches, calls)
    && StartsArePrefixSums(items, 0)
    && st.currentTime == End(items)
  }

  /** Where the last record ends: the clock the next record starts at. */
  function End(items: seq<Metadata>): nat {
    if items == [] then 0 else items[|items| - 1].startTime + items[|items| - 1].duration
  }

  // ---------------------------------------------------------------------
  // Lemmas.

  /** One more call extends the run by one step. */
  lemma {:induction false} RunSnoc(st: State, s: Settings, matches: string -> bool, calls: seq<Call>, call: Call)
    ensures var before := Run(st, s, matches, calls);
      var after := Step(before.0, s, matches, call);
      Run(st, s, matches, calls + [call]) == (after.0, before.1 + [after.1])
  {
    assert (calls + [call])[..|calls|] == calls;
  }

  lemma {:induction false} SumAppend(xs: seq<nat>, x: nat)
    ensures Sum(xs + [x]) == Sum(xs) + x
  {
    assert (xs + [x])[..|xs|] == xs;
  }

  lemma {:induction false} DurationsAppend(items: seq<Metadata>, m: Metadata)
    ensures Durations(items + [m]) == Durations(items) + [m.duration]
  {
    assert (items + [m])[..|items|] == items;
  }

  /**
   * Appending a record that starts where the others end keeps the starts
   * prefix sums, and the end moves on by its duration.
   */
  lemma {:induction false} AppendRecord(items: seq<Metadata>, base: nat, m: Metadata)
    requires StartsArePrefixSums(items, base)
    requires m.startTime == base + Sum(Durations(items))
    ensures StartsArePrefixSums(items + [m], base)
    ensures Sum(Durations(items + [m])) == Sum(Durations(items)) + m.duration
  {
    var all := items + [m];
    forall i | 0 <= i < |all|
      ensures all[i].startTime == base + Sum(Durations(all[..i]))
    {
      if i < |items| {
        assert all[..i] == items[..i];
      } else {
        assert all[..i] == items;
      }
    }
    DurationsAppend(items, m);
    SumAppend(Durations(items), m.duration);
  }

  lemma {:induction false} MatchingIdsSnoc(matches: string -> bool, calls: seq<Call>, call: Call)
    ensures MatchingIds(matches, calls + [call]) == MatchingIds(matches, calls) + (if matches(call.id) then [call.id] else [])
  {
    assert (calls + [call])[..|calls|] == calls;
  }

  /** With starts at the prefix sums, the last record ends at the total of all durations. */
  lemma {:induction false} EndIsTotal(items: seq<Metadata>)
    requires StartsArePrefixSums(items, 0)
    ensures End(items) == Sum(Durations(items))
  {
    if items != [] {
      var init := items[..|items| - 1];
      var last := items[|items| - 1];
      assert last.startTime == Sum(Durations(init));
      assert Durations(items) == Durations(init) + [last.duration];
      SumAppend(Durations(init), last.duration);
    }
  }

  /** A record that starts where the timeline ends keeps the starts at prefix sums and moves the end by its duration. */
  lemma {:induction false} RecordAtEnd(items: seq<Metadata>, m: Metadata)
    requires StartsArePrefixSums(items, 0)
    requires m.startTime == End(items)
    ensures StartsArePrefixSums(items + [m], 0)
    ensures End(items + [m]) == End(items) + m.duration
  {
    EndIsTotal(items);
    AppendRecord(items, 0, m);
  }

  /** A step appends the call's id to `audioFiles` exactly when it matches. */
  lemma {:induction false} StepFiles(st: State, s: Settings, matches: string -> bool, calls: seq<Call>, call: Call)
    requires st.audioFiles == MatchingIds(matches, calls)
    ensures Step(st, s, matches, call).0.audioFiles == MatchingIds(matches, calls + [call])
  {
    MatchingIdsSnoc(matches, calls, call);
  }

  /** A step exports a record only at the current end, and moves the clock to the new end. */
  lemma {:induction false} StepTimeline(st: State, s: Settings, matches: string -> bool, items: seq<Metadata>, call: Call)
    requires StartsArePrefixSums(items, 0) && st.currentTime == End(items)
    ensures var r := Step(st, s, matches, call);
      StartsArePrefixSums(items + Exported(r.1), 0) && r.0.currentTime == End(items + Exported(r.1))
  {
    var r := Step(st, s, matches, call);
    if r.1.Module? && r.1.item.Some? {
      RecordAtEnd(items, r.1.item.value);
      assert Exported(r.1) == [r.1.item.value];
    } else {
      assert items + Exported(r.1) == items;
    }
  }

  /**
   * Each step keeps `Consistent`: the file list is the matching ids so far, and
   * the exported records start at prefix sums and end at the clock.
   */
  lemma {:induction false} StepKeepsConsistent(st: State, s: Settings, matches: string -> bool,
                                               calls: seq<Call>, items: seq<Metadata>, call: Call)
    requires Consistent(st, matches, calls, items)
    ensures var r := Step(st, s, matches, call);
      Consistent(r.0, matches, calls + [call], items + Exported(r.1))
  {
    StepFiles(st, s, matches, calls, call);
    StepTimeline(st, s, matches, items, call);
  }



  /** The collected ids are exactly the matching ids, appended in order, repeats kept. */
  lemma {:induction false} RunAudioFiles(st: State, s: Settings, matches: string -> bool, calls: seq<Call>)
    ensures Run(st, s, matches, calls).0.audioFiles == st.audioFiles + MatchingIds(matches, calls)
    decreases |calls|
  {
    if calls != [] {
      RunAudioFiles(st, s, matches, calls[..|calls| - 1]);
    }
  }

  /**
   * Whatever the calls, the records' start times are the prefix sums of the
   * earlier records' durations, counted from the clock the run started at,
   * and the clock ends at the start plus every recorded duration.
   */
  lemma {:induction false} RunTimeline(st: State, s: Settings, matches: string -> bool, calls: seq<Call>)
    ensures var r := Run(st, s, matches, calls);
      && StartsArePrefixSums(Items(r.1), st.currentTime)
      && r.0.currentTime == st.currentTime + Sum(Durations(Items(r.1)))
    decreases |calls|
  {
    if calls != [] {
      var init := calls[..|calls| - 1];
      var before := Run(st, s, matches, init);
      RunTimeline(st, s, matches, init);
      var after := Step(before.0, s, matches, calls[|calls| - 1]);
      var results := before.1 + [after.1];
      assert Run(st, s, matches, calls) == (after.0, results);
      assert results[..|results| - 1] == before.1;
      var items := Items(before.1);
      if after.1.Module? && after.1.item.Some? {
        assert Items(results) == items + [after.1.item.value];
        AppendRecord(items, st.currentTime, after.1.item.value);
      } else {
        assert Items(results) == items;
      }
    }
  }

  /** The durations the probe found for the matching calls, in call order; a probe without one adds none. */
  function ProbedDurations(matches: string -> bool, calls: seq<Call>): seq<nat>
    decreases |calls|
  {
    if calls == [] then []
    else
      var last := calls[|calls| - 1];
      ProbedDurations(matches, calls[..|calls| - 1])
        + (if matches(last.id) && last.measured.duration.Some? then [last.measured.duration.value] else [])
  }

  /** The records of a replay carry exactly the probed durations of the matching calls, in order. */
  lemma {:induction false} RunDurations(st: State, s: Settings, matches: string -> bool, calls: seq<Call>)
    ensures Durations(Items(Run(st, s, matches, calls).1)) == ProbedDurations(matches, calls)
    decreases |calls|
  {
    if calls != [] {
      var init := calls[..|calls| - 1];
      var last := calls[|calls| - 1];
      var before := Run(st, s, matches, init);
      RunDurations(st, s, matches, init);
      var after := Step(before.0, s, matches, last);
      var results := before.1 + [after.1];
      assert Run(st, s, matches, calls) == (after.0, results);
      assert results[..|results| - 1] == before.1;
      var items := Items(before.1);
      if after.1.Module? && after.1.item.Some? {
        assert Items(results) == items + [after.1.item.value];
        DurationsAppend(items, after.1.item.value);
      } else {
        assert Items(results) == items;
      }
    }
  }

  lemma {:induction false} DurationsPrefix(items: seq<Metadata>, k: nat)
    requires k <= |items|
    ensures Durations(items[..k]) == Durations(items)[..k]
    decreases |items|
  {
    if k < |items| {
      var init := items[..|items| - 1];
      assert items[..k] == init[..k];
      DurationsPrefix(init, k);
      assert Durations(items)[..k] == Durations(init)[..k];
    } else {
      assert items[..k] == items;
    }
  }

  /** Starts at prefix sums are the base plus the sum of the earlier entries of `Durations`. */
  lemma {:induction false} StartsFromDurations(items: seq<Metadata>, base: nat)
    requires StartsArePrefixSums(items, base)
    ensures forall k :: 0 <= k < |items| ==> items[k].startTime == base + Sum(Durations(items)[..k])
  {
    forall k | 0 <= k < |items|
      ensures items[k].startTime == base + Sum(Durations(items)[..k])
    {
      DurationsPrefix(items, k);
    }
  }

  /**
   * The timeline of a replay in terms of the probes alone: the k-th record
   * lasts the k-th probed duration and starts at the clock plus the probed
   * durations before it; the clock ends past all of them.
   */
  lemma {:induction false} RunTimelineProbed(st: State, s: Settings, matches: string -> bool, calls: seq<Call>)
    ensures var r := Run(st, s, matches, calls);
      var items := Items(r.1);
      var ds := ProbedDurations(matches, calls);
      && |items| == |ds|
      && (forall k :: 0 <= k < |items| ==> items[k].duration == ds[k])
      && (forall k :: 0 <= k < |items| ==> items[k].startTime == st.currentTime + Sum(ds[..k]))
      && r.0.currentTime == st.currentTime + Sum(ds)
  {
    var r := Run(st, s, matches, calls);
    RunTimeline(st, s, matches, calls);
    RunDurations(st, s, matches, calls);
    StartsFromDurations(Items(r.1), st.currentTime);
  }

  /** Replaying calls on a fresh plugin state gives a state that is `Consistent` with them. */
  lemma {:induction false} RunFromInitial(s: Settings, matches: string -> bool, calls: seq<Call>)
    ensures var r := Run(Initial, s, matches, calls);
      Consistent(r.0, matches, calls, Items(r.1))
  {
    var r := Run(Initial, s, matches, calls);
    RunAudioFiles(Initial, s, matches, calls);
    RunTimeline(Initial, s, matches, calls);
    EndIsTotal(Items(r.1));
  }

  /** From the initial state the first record starts at 0. */
  lemma {:induction false} FirstStartsAtZero(items: seq<Metadata>)
    requires StartsArePrefixSums(items, 0) && items != []
    ensures items[0].startTime == 0
  {
    assert items[..0] == [];
  }

  /** Consecutive records abut: each starts exactly where the previous one ends. */
  lemma {:induction false} RecordsAbut(items: seq<Metadata>, base: nat, i: nat)
    requires StartsArePrefixSums(items, base)
    requires i + 1 < |items|
    ensures items[i + 1].startTime == items[i].startTime + items[i].duration
  {
    assert items[..i + 1] == items[..i] + [items[i]];
    DurationsAppend(items[..i], items[i]);
    SumAppend(Durations(items[..i]), items[i].duration);
  }

  /** Start times never go back. */
  lemma {:induction false} StartsNonDecreasing(items: seq<Metadata>, base: nat, i: nat, j: nat)
    requires StartsArePrefixSums(items, base)
    requires i <= j < |items|
    ensures items[i].startTime <= items[j].startTime
    decreases j - i
  {
    if i < j {
      RecordsAbut(items, base, j - 1);
      assert items[j - 1].startTime <= items[j].startTime;
      StartsNonDecreasing(items, base, i, j - 1);
    }
  }

  /** The clock never goes back. */
  lemma {:induction false} StepClockMonotone(st: State, s: Settings, matches: string -> bool, call: Call)
    ensures Step(st, s, matches, call).0.currentTime >= st.currentTime
  {
  }

  /**
   * Transforming the same audio id twice appends it twice and, when its probe
   * succeeds, counts its duration twice: nothing is de-duplicated.
   */
  lemma {:induction false} RepeatedIdCountedTwice(st: State, s: Settings, matches: string -> bool, call: Call, d: nat)
    requires matches(call.id)
    requires call.measured.duration == Some(d)
    ensures var r := Run(st, s, matches, [call, call]);
      && r.0.audioFiles == st.audioFiles + [call.id, call.id]
      && r.0.currentTime == st.currentTime + 2 * d
      && r.1[1].item.value.startTime == st.currentTime + d
  {
    var first := Step(st, s, matches, call);
    var second := Step(first.0, s, matches, call);
    assert [call][..0] == [];
    assert Run(st, s, matches, [call]).0 == first.0;
    assert Run(st, s, matches, [call]).1 == [first.1];
    assert [call, call][..1] == [call];
    assert Run(st, s, matches, [call, call]).0 == second.0;
    assert Run(st, s, matches, [call, call]).1[1] == second.1;
    assert first.0.audioFiles == st.audioFiles + [call.id];
    assert second.0.audioFiles == st.audioFiles + [call.id] + [call.id];
    assert second.1.item.value.startTime == first.0.currentTime == st.currentTime + d;
  }

  /**
   * A probe with no duration still lists the file for merging, but the clock
   * does not move: the next record starts before the merged audio reaches it.
   */
  lemma {:induction false} FailedProbeStillListed(st: State, s: Settings, matches: string -> bool, call: Call)
    requires matches(call.id)
    requires call.measured.duration == None
    ensures var r := Step(st, s, matches, call);
      && call.id in r.0.audioFiles
      && r.0.currentTime == st.currentTime
      && r.1 == Module(None, call.measured.threw)
  {
  }

  /**
   * When every matching call's probe finds a duration, the records are in
   * one-to-one correspondence with the collected files, in the same order.
   */
  lemma {:induction false} RunAllProbed(st: State, s: Settings, matches: string -> bool, calls: seq<Call>)
    requires forall i :: 0 <= i < |calls| && matches(calls[i].id) ==> calls[i].measured.duration.Some?
    ensures var items := Items(Run(st, s, matches, calls).1);
      var ids := MatchingIds(matches, calls);
      && |items| == |ids|
      && forall k :: 0 <= k < |items| ==> items[k].filename == Basename(ids[k])
    decreases |calls|
  {
    if calls != [] {
      var init := calls[..|calls| - 1];
      RunAllProbed(st, s, matches, init);
      var before := Run(st, s, matches, init);
      var after := Step(before.0, s, matches, calls[|calls| - 1]);
      var results := before.1 + [after.1];
      assert results[..|results| - 1] == before.1;
    }
  }
}
