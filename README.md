# combineAudio, modelled in Dafny

A Dafny model of the Vite plugin `combineAudio` (`src/index.ts`). The plugin
works in four stages:

- **`transform`** collects every audio module whose id matches `fileRegex`.
  It probes each file with ffmpeg for its `Duration: HH:MM:SS.ff` and turns
  the module into a metadata record `{output, filename, startTime, duration}`.
  The records lie end to end on one running clock.
- **`buildEnd`** writes a concat list for ffmpeg's concat demuxer and merges
  the collected files into one mp3. It may also transcode that mp3 to webm.
- **`writeBundle`** moves the merged files from the temporary directory to
  the output directory.
- **`configureServer`** installs a middleware that serves the temporary
  merged files during development.

The project consists of these modules:

| module | file | what it holds |
|---|---|---|
| `Wrappers` | `wrappers.dfy` | `Option` |
| `Paths` | `paths.dfy` | `path.join`, `path.resolve`, `path.basename`, `endsWith` and the backslash replacement, on normalised POSIX strings |
| `Config` | `config.dfy` | the options, the `\|\|` defaulting, the merged file paths and the `outputs` list |
| `Duration` | `duration.dfy` | the first match of `/Duration: (\d+):(\d+):(\d+\.\d+)/` and its conversion to milliseconds; a parse succeeds exactly on a printed duration, after a part where no match starts and before a non-digit |
| `Timeline` | `timeline.dfy` | one `transform` call as a pure step on `(audioFiles, currentTime)`, replayed over a sequence of calls |
| `ConcatList` | `manifest.dfy` | the concat list text and a reader for the same line syntax |
| `Build` | `build.dfy` | `buildEnd` and `writeBundle` as ordered plans of file-system and ffmpeg actions |
| `DevServer` | `server.dfy` | the middleware's routing decision |
| `Plugin` | `plugin.dfy` | class `CombineAudio` |

`CombineAudio` holds the closure variables as fields:

- `tempDir`, `outputDir`, `audioFiles` and `currentTime` are updated in
  place.
- Two ghost fields keep the history: every call made so far and every record
  exported so far.
- Its invariant (`Timeline.Consistent`) is that `audioFiles` holds exactly the
  matching ids of all calls, and that the records start at the prefix sums of
  the earlier durations and end at `currentTime`.

Things outside the model are inputs:

- ffmpeg's output for a probe is a `Probe`: the text it printed, or the
  `stdout` of the error it threw.
- The outcomes of the merge and the transcode are booleans.
- `existsSync` is a predicate on paths.

The code at `src/index.ts:155` guards the transcode with `.webm` being
**absent** from `outputTypes`. The model keeps this as written; see
"## Findings".

## Model

| member | source | states |
|---|---|---|
| Paths.EndsWith | src/index.ts:196 | `String.prototype.endsWith`: the last characters of the text are the suffix; it has no ensures of its own, and `Paths.JoinEndsWith` states what it is used for |
| Paths.Join | src/index.ts:60 | `path.join(dir, name)` is `dir`, one `/`, then `name`, and nothing else |
| Paths.JoinInjective | src/index.ts:192-195 | two names joined onto the same directory give the same path only if the names are equal |
| Paths.JoinEndsWith | src/index.ts:196 | a joined path ends with whatever suffix the joined name ends with |
| Paths.Resolve | src/index.ts:40-41 | `path.resolve(root, p)` keeps an absolute `p`, puts a relative `p` under `root`, and is absolute whenever `root` is |
| Paths.SegmentStart | src/index.ts:89 | the index just after the last `/` of a path (0 without one), with no `/` from there on |
| Paths.Basename | src/index.ts:89 | `path.basename` contains no `/` |
| Paths.BasenameOfName | src/index.ts:89 | a name without `/` is its own basename |
| Paths.BasenameOfJoin | src/index.ts:89 | the basename of `dir/name` is `name` when `name` has no `/` |
| Paths.ForwardSlashes | src/index.ts:137 | `replace(/\\/g, '/')` keeps the length, turns every backslash into `/`, and keeps every other character in place |
| Paths.ForwardSlashesHasNoBackslash | src/index.ts:137 | the replaced text contains no backslash |
| Config.OrDefault | src/index.ts:23-26 | `option \|\| fallback` gives the option when it is a non-empty string, and the fallback when it is undefined or empty |
| Config.DefaultFileMatches | src/index.ts:31 | the default test `/\.mp3$/`, computed as `EndsWith(id, ".mp3")`; no ensures, its use is stated by `Config.FileMatcher` |
| Config.FileMatcher | src/index.ts:31 | the given `fileRegex` is used as is; without one, an id matches exactly when it ends in `.mp3` |
| Config.Defaults | src/index.ts:23-32 | each setting is its option or its default (`merged-audio`, `temp/audio`, `dist/audio`, `['.mp3', '.webm']`); an empty `outputTypes` array is kept |
| Config.EmptyOutputTypesKept | src/index.ts:32 | an explicitly empty `outputTypes` survives defaulting, so no output is listed |
| Config.MergedPath | src/index.ts:60-63 | `path.join(tempDir, filename + ext)`, the merged file in the temporary directory; no ensures, its properties are `Config.MergedPathsDiffer`, `Config.OutputsInTempDir` and `Config.DefaultMergedMp3` |
| Config.PublishedPath | src/index.ts:178-184 | `path.join(outputDir, filename + ext)`, where `writeBundle` moves the file; no ensures, `Build.WriteBundlePlan` states its use |
| Config.ConcatListPath | src/index.ts:135 | `path.join(tempDir, 'concat-list.txt')`; no ensures, `Build.BuildEndSteps` states that it is written, merged from and removed |
| Config.MergedPathsDiffer | src/index.ts:192-193 | the temporary mp3 and webm paths are different files |
| Config.Outputs | src/index.ts:58-64 | the `outputs` list: the mp3 path if `.mp3` is requested, then the webm path if `.webm` is; no ensures, its contract is `Config.OutputsSpec` |
| Config.OutputsSpec | src/index.ts:58-64 | `outputs` has at most two entries and no duplicates; the temporary mp3 path is in it iff `.mp3` is requested, and likewise for webm; it holds no other path; the mp3 comes first |
| Config.OutputsInTempDir | src/index.ts:58-64 | every output is a path `tempDir/…`, whatever `outputDir` is |
| Config.OutputsIgnoreOutputDir | src/index.ts:58-64 | `outputs` does not depend on `outputDir`: changing it leaves the list unchanged |
| Config.DefaultMergedMp3 | src/index.ts:60 | with no options, the merged mp3 is `temp/audio/merged-audio.mp3` |
| Config.DefaultMergedWebm | src/index.ts:63 | with no options, the merged webm is `temp/audio/merged-audio.webm` |
| Config.DefaultOutputs | src/index.ts:58-64 | with no options, `outputs` is the mp3 path, then the webm path, both under `temp/audio` |
| Duration.DecimalValue | src/index.ts:83 | the value `parseInt` reads from k decimal digits is below 10^k |
| Duration.LeadingDigits | src/index.ts:79 | the greedy `\d+` run at the start of a text: all digits, and followed by a non-digit or the end |
| Duration.Group | src/index.ts:79 | a matched group is a non-empty digit run, and the text is that run, the separator, then the rest |
| Duration.MatchPrefix | src/index.ts:79 | a match anchored at the start of a text begins with `Duration: ` and has four non-empty digit groups |
| Duration.MatchAt | src/index.ts:79 | a match at position p has the label at p and four well-formed groups |
| Duration.FirstMatchFrom | src/index.ts:79 | the position found lies in range and the pattern matches there |
| Duration.FirstMatchLeftmost | src/index.ts:79 | the position found is the leftmost match; none found means no position matches |
| Duration.QuotientBounds | src/index.ts:85 | the quotient q of a by b satisfies b·q ≤ a < b·(q+1) |
| Duration.RoundHalfUpNearest | src/index.ts:85 | `Math.round(num/den)` is the integer r with 2·den·r ≤ 2·num + den < 2·den·(r+1), so halves round up |
| Duration.FractionMillisBound | src/index.ts:85 | the fraction of a second adds between 0 and 1000 milliseconds |
| Duration.RoundHalfUp | src/index.ts:85 | `Math.round(num / den)` on non-negative values, as floor((2·num + den) / (2·den)); no ensures, its contract is `Duration.RoundHalfUpNearest` |
| Duration.SecondsMillis | src/index.ts:85 | `Math.round(parseFloat(seconds) * 1000)` on the exact decimal; no ensures, bounded by `Duration.FractionMillisBound` |
| Duration.ToMillis | src/index.ts:82-85 | h·3600000 + m·60000 + the rounded seconds; no ensures, bounded by `Duration.ParseDurationBounds` and made exact for two fraction digits by `Duration.TwoDigitMillis` |
| Duration.ParseDuration | src/index.ts:79-85 | the first match of the duration pattern, converted to milliseconds; no ensures, its contract in both directions is `Duration.ParseFirstDuration` and `Duration.ParseDurationSound` |
| Duration.ParseDurationFound | src/index.ts:79-80 | a duration is found iff the pattern matches at some position, and then the text contains `Duration: ` |
| Duration.NoLabelNoDuration | src/index.ts:79-80 | a text without `Duration: ` gives no duration |
| Duration.ParseDurationBounds | src/index.ts:82-85 | the parsed milliseconds lie between h·3600000 + m·60000 + s·1000 and that value plus 1000 |
| Duration.LeadingDigitsOf | src/index.ts:79 | a digit run followed by a non-digit is read whole |
| Duration.GroupOf | src/index.ts:79 | a digit run followed by a non-digit separator is read as exactly that group |
| Duration.DurationTextTail | src/index.ts:79 | a printed duration is the label followed by its fields and separators |
| Duration.GroupsOfTail | src/index.ts:79 | after the label, the three separated groups and the fraction's digit run are read back exactly |
| Duration.MatchPrefixOf | src/index.ts:79 | the pattern matches a printed duration that is followed by a non-digit, and gives back its fields |
| Duration.NoMatchBefore | src/index.ts:79 | no match starts inside a prefix without `Duration: ` that comes before the label (it may end inside the label) |
| Duration.FirstMatchIs | src/index.ts:79 | a match at a, with no match between p and a, is the match the regular expression returns when searching from p |
| Duration.ParseFirstDuration | src/index.ts:79-85 | after a prefix in which no match starts (it may hold the label, as in `Duration: N/A`), a printed duration followed by a non-digit is converted exactly from its groups |
| Duration.MatchPrefixParts | src/index.ts:79 | a match at the start of a text reads the label, the four groups with their separators, and a rest that does not start with a digit |
| Duration.MatchPrefixSound | src/index.ts:79 | a match at the start of a text is the printed form of the fields it returns, followed by a non-digit or the end: the converse of `MatchPrefixOf` |
| Duration.MatchAtSound | src/index.ts:79 | a match at position p is the printed form of its fields, placed at p and followed by a non-digit or the end |
| Duration.FirstMatchSound | src/index.ts:79 | the first match splits the text into a part where no match starts, a printed duration, and a rest not starting with a digit |
| Duration.ParseDurationSound | src/index.ts:79-85 | a parse that gives ms splits the text as `ParseFirstDuration` requires, and ms is the conversion of the printed fields: the converse of `ParseFirstDuration` |
| Duration.NatToDigits | src/index.ts:83 | a number is printed as a non-empty digit string that `parseInt` reads back as that number, and numbers below 100 take at most two digits |
| Duration.LeadingZero | src/index.ts:83 | a leading `0` does not change the value `parseInt` reads |
| Duration.TwoDigits | src/index.ts:83 | ffmpeg's zero-padded field has at least two digits and reads back as its number |
| Duration.Render | src/index.ts:79 | ffmpeg's printed fields for h, m, s and cc hundredths are well formed and read back as h, m, s and cc |
| Duration.CentisMillis | src/index.ts:85 | rounding whole hundredths to milliseconds is exact: cc hundredths are 10·cc ms |
| Duration.TwoDigitMillis | src/index.ts:82-85 | fields with a two-digit fraction convert to h·3600000 + m·60000 + s·1000 + cc·10 |
| Duration.RenderRoundTrip | src/index.ts:79-85 | parsing ffmpeg's printed `Duration: hh:mm:ss.cc`, after a prefix in which no match starts, gives that duration in milliseconds |
| Duration.ExampleFields | src/index.ts:79 | the fields 00, 02, 03 and 50 print as `Duration: 00:02:03.50` |
| Duration.ExampleText | src/index.ts:79 | an example probe line splits into a prefix, the printed duration, and the rest |
| Duration.ExampleDuration | src/index.ts:79-85 | `Duration: 00:02:03.50` in a probe line is 123500 ms |
| Timeline.ProbeText | src/index.ts:98 | the text searched for a duration: ffmpeg's output when it exits, `error.stdout` when it throws; no ensures, `Timeline.SameConversion` states its use |
| Timeline.Measure | src/index.ts:98-105 | whether the probe threw is recorded, and a duration is only found where the label occurs |
| Timeline.SameConversion | src/index.ts:79-105 | whichever way ffmpeg ends, the same text gives the same duration, namely `Duration.ParseDuration` of that text |
| Timeline.Step | src/index.ts:44-124 | a non-matching id changes nothing and gives no result. A matching id is appended. With a duration, the record is `(outputs, basename, currentTime, duration)`, the clock advances by that duration and nothing is logged. Without one, the record is undefined, the clock stays, and only a thrown probe is logged |
| Timeline.Run | src/index.ts:44-124 | replaying calls gives one result per call |
| Timeline.RunSnoc | src/index.ts:44-124 | one more call extends the replay by exactly one step |
| Timeline.SumAppend | src/index.ts:94 | adding one more duration adds it to the total |
| Timeline.DurationsAppend | src/index.ts:94 | one more record adds its duration at the end |
| Timeline.AppendRecord | src/index.ts:87-94 | a record that starts where the others end keeps the starts at prefix sums and moves the end on by its duration |
| Timeline.RecordAtEnd | src/index.ts:90-94 | a record starting at the current end keeps the starts at prefix sums and moves the end by its duration |
| Timeline.MatchingIdsSnoc | src/index.ts:45-48 | one more call adds its id to the matching ids exactly when it matches |
| Timeline.EndIsTotal | src/index.ts:94 | with starts at prefix sums, the last record ends at the total of all durations |
| Timeline.StepFiles | src/index.ts:47-48 | after a step, `audioFiles` is the ids of the matching calls so far, in order |
| Timeline.StepTimeline | src/index.ts:87-94 | a step exports a record only where the timeline ends, keeping starts at prefix sums, and leaves the clock at the new end |
| Timeline.StepKeepsConsistent | src/index.ts:44-124 | each step keeps `audioFiles` equal to the matching ids of all calls and the records end to end from 0 up to `currentTime` |
| Timeline.RunAudioFiles | src/index.ts:45-48 | after any calls, `audioFiles` is the old list followed by the matching ids in call order, repeats included |
| Timeline.RunTimeline | src/index.ts:87-94 | after any calls, each record starts at the prefix sum of the earlier durations, and the clock ends at the start plus all durations |
| Timeline.RunDurations | src/index.ts:80-94 | the records of a replay carry exactly the durations the probe found for the matching calls, in call order; a call without a duration adds no record |
| Timeline.DurationsPrefix | src/index.ts:94 | the durations of the first k records are the first k durations |
| Timeline.StartsFromDurations | src/index.ts:90-94 | when starts are prefix sums, the k-th start is the base plus the sum of the first k durations |
| Timeline.RunTimelineProbed | src/index.ts:80-94 | after any calls, the k-th record lasts the k-th probed duration and starts at the old clock plus the probed durations before it; the clock ends past all of them |
| Timeline.RunFromInitial | src/index.ts:20-29 | replaying calls from the fresh state (no files, clock 0) gives a state consistent with them: the matching ids, and records at prefix sums ending at the clock |
| Timeline.FirstStartsAtZero | src/index.ts:29 | from the initial state, the first record starts at 0 |
| Timeline.RecordsAbut | src/index.ts:90-94 | each record starts exactly where the previous one ends |
| Timeline.StartsNonDecreasing | src/index.ts:90-94 | start times never go back |
| Timeline.StepClockMonotone | src/index.ts:94 | `currentTime` never decreases |
| Timeline.RepeatedIdCountedTwice | src/index.ts:48 | transforming the same audio id twice appends it twice and counts its duration twice |
| Timeline.FailedProbeStillListed | src/index.ts:48 | a probe without a duration still lists the file for merging but leaves the clock where it was |
| Timeline.RunAllProbed | src/index.ts:87-92 | when every matching probe gives a duration, the records match the collected ids one to one, in order, by basename |
| ConcatList.ManifestLine | src/index.ts:137 | one `file '<path>'` line with backslashes replaced; no ensures, its contract is `ConcatList.LineRoundTrip` |
| ConcatList.Lines | src/index.ts:136-137 | one `file '<path>'` line per collected file, in the same order, with backslashes replaced |
| ConcatList.AllForwardSlashes | src/index.ts:137 | each path with its backslashes replaced, in the same order |
| ConcatList.JoinLines | src/index.ts:138 | `join('\n')`: the lines with a newline between each two; no ensures, its contract is `ConcatList.SplitJoin` |
| ConcatList.Manifest | src/index.ts:136-138 | the concat list text; no ensures, its contract is `ConcatList.ManifestLines` and `ConcatList.ManifestRoundTrip` |
| ConcatList.ReadFileLine | src/index.ts:137 | a line reads back as a path only when it is `file '`, a path with no quote, and `'` |
| ConcatList.ReadLines | src/index.ts:136-138 | a readable list gives one path per line |
| ConcatList.SplitSingle | src/index.ts:138 | a text without a newline is a single line |
| ConcatList.SplitAfter | src/index.ts:138 | a newline after a newline-free prefix separates exactly that prefix |
| ConcatList.SplitJoin | src/index.ts:138 | splitting at `\n` undoes `join('\n')` for lines without newlines |
| ConcatList.JoinNoBackslash | src/index.ts:138 | joining lines without backslashes adds none |
| ConcatList.LineRoundTrip | src/index.ts:137 | a line reads back as the path with forward slashes iff the path has no single quote; with one, the line no longer names the path (ffmpeg's quoting reads `file 'it's.mp3'` as `its.mp3`), and the model's reader rejects it |
| ConcatList.ManifestNoBackslash | src/index.ts:136-138 | the concat list contains no backslash |
| ConcatList.ManifestLines | src/index.ts:136-138 | the list has exactly one line per collected file, in order, with no trailing newline |
| ConcatList.ReadAllLines | src/index.ts:136-137 | the lines read back as every path with forward slashes, in order |
| ConcatList.ManifestRoundTrip | src/index.ts:136-138 | reading the list gives back every collected path in order, with forward slashes, for paths without newlines or quotes |
| ConcatList.ExampleManifest | src/index.ts:136-138 | `C:\a.mp3` and `/b.mp3` give `file 'C:/a.mp3'`, a newline, and `file '/b.mp3'` |
| Build.Prelude | src/index.ts:131-147 | the first four actions of a build with files: ensure both directories, write the list, merge it into the mp3; no ensures, `Build.BuildEndSteps` states where it stands |
| Build.BuildEndSteps | src/index.ts:127-172 | nothing for no files. Otherwise: both directories, the list written, then the merge, with exactly 4 actions plus one for the transcode when it runs and one for the removal when nothing failed. A failed merge stops there and is rethrown. The transcode runs iff guarded in and merged; a failed transcode stops there and is rethrown. A successful build ends by removing the list |
| Build.BuildEndPlan | src/index.ts:127-172 | `buildEnd` as written, transcoding only when `.webm` is not requested; no ensures, its contract is `Build.BuildEndSteps` with that guard, and `Build.WebmRequestedNeverProduced` |
| Build.WriteBundlePlan | src/index.ts:174-187 | one move per requested type (mp3 first, at most two), each from the temporary path listed in `outputs` to the output directory |
| Build.MergeProducesMp3 | src/index.ts:142-147 | a build that gets past the merge has produced the merged mp3 |
| Build.WebmRequestedNeverProduced | src/index.ts:155 | as written, requesting `.webm` means no step produces the webm, yet `writeBundle` moves it |
| Build.WebmUnrequestedStillGenerated | src/index.ts:155-168 | as written, leaving `.webm` out still transcodes a webm that is never moved |
| Build.IntendedProducesEveryMove | src/index.ts:154-187 | with the guard the comment calls for, a successful build produces every file `writeBundle` moves |
| Build.IntendedTranscodesIffRequested | src/index.ts:154-155 | with the intended guard, the transcode runs exactly when `.webm` is requested |
| DevServer.Route | src/index.ts:191-209 | any url other than the temporary mp3 or webm path passes through. A matching url whose file exists is served as that file, as `audio/mpeg` iff it is the mp3 path and `audio/webm` iff it is the webm path. A matching url without a file gets 404 `File not found` |
| DevServer.WebmIsNotMp3 | src/index.ts:196 | the webm path never ends in `.mp3`, so the extension test picks the requested file |
| DevServer.ExampleServe | src/index.ts:195-200 | with default options, a request for `temp/audio/merged-audio.mp3` is served as `audio/mpeg` when the file exists |
| Plugin.CombineAudio.constructor | src/index.ts:17-32 | the settings are the defaulted options, the file test is `fileRegex` or `.mp3`, and `audioFiles` is empty with the clock at 0 |
| Plugin.CombineAudio.ConfigResolved | src/index.ts:37-42 | both directories are resolved against the root and nothing else changes; the invariant is kept |
| Plugin.CombineAudio.Describe | src/index.ts:58-118 | a record exists iff the probe text holds a duration, and is then `(outputs, basename, currentTime, duration)`; only a thrown probe without a duration is logged |
| Plugin.CombineAudio.Transform | src/index.ts:44-124 | the new `audioFiles`, `currentTime` and result are one `Timeline.Step` from the old state. The call and any exported record join the history, the directories stay, and the invariant is kept |
| Plugin.CombineAudio.Collect | src/index.ts:45-118 | for a matching id: append it, describe it, and advance the clock, exactly as `Timeline.Step` does |
| Plugin.CombineAudio.BuildEnd | src/index.ts:127-172 | the actions taken are `Build.BuildEndPlan` of the current settings and files |
| Plugin.CombineAudio.WriteBundle | src/index.ts:174-187 | the moves started are `Build.WriteBundlePlan` of the current settings |

## Left out

- Running ffmpeg (`execSync` for the probe, the merge and the transcode) is not modelled. The probe's text and the two run outcomes are inputs.
- File-system effects are not performed. `ensureDirSync`, `writeFileSync`, `fs.remove` and `fs.move` are planned actions; `existsSync` is a predicate.
- Streaming the file to the response (`createReadStream(...).pipe(res)`) is not modelled.
- `fs.remove` and `fs.move` return promises that are not awaited. The plans list them in issue order; their completion and failures are not modelled.
- Duration.ParseDuration: the seconds group is converted as an exact decimal rounded half up, not with IEEE double arithmetic. Where `parseFloat(seconds) * 1000` is off by a rounding error (long fractions, a value exactly at .5 ms), the source may round differently.
- Integer widths are not modelled: hours and milliseconds are unbounded, where the source's numbers lose precision above 2^53.
- Paths.Join: does not normalise (`.`, `..`, repeated or trailing separators, Windows separators); paths are taken as normalised POSIX strings.
- Paths.Resolve: does not use the process's working directory when the root is relative.
- Paths.Basename: does not strip trailing separators the way `path.basename` does.
- `fileRegex` is a pure predicate on ids. The `lastIndex` state of a regular expression with the global flag is not modelled.
- The `config` object and every field of Vite's resolved config except the root are not modelled.
- Console output (`console.error`) is reduced to a flag saying whether an error was logged. The logged error object is not kept.
- The `export default ${JSON.stringify(dataItem)}` code string and `map: null` are reduced to `Option<Metadata>`.
- A thrown probe whose error has no `stdout` is not modelled. In the source, reading `error.stdout.match` would then throw a `TypeError`; here every thrown probe carries text.
- `transform` is async, but it has no `await` between reading and updating `currentTime`. Each call is therefore one atomic step, and interleavings of concurrent calls are not modelled.
- ConcatList.ManifestRoundTrip: holds only for paths without newlines or single quotes. The source does not escape them: with a quote the line no longer names the path, since ffmpeg's concat reader takes `'` as a quote toggle and reads `file 'it's.mp3'` as `its.mp3`; the model's reader rejects such a line instead (`ConcatList.LineRoundTrip`). A newline splits the line in two.
- The rollup build configuration has no logic and is not part of this model.

## Findings

| source | as written | input that shows it | evidently intended | confidence | as-written member | corrected member |
|---|---|---|---|---|---|---|
| src/index.ts:155 | the webm transcode runs only when `.webm` is **not** in `outputTypes` | default options (`['.mp3', '.webm']`), one collected file, merge succeeds: no webm is produced, yet `writeBundle` moves `temp/audio/merged-audio.webm`; with `['.mp3']`, a webm is transcoded but never moved | transcode exactly when `.webm` is requested, as the comment "Generate the .webm file" and `writeBundle` expect | high (not executed) | Build.WebmRequestedNeverProduced | Build.IntendedProducesEveryMove |
