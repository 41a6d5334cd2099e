# DAV video converter: a verified model of the conversion logic

`dav2mkv.py` repackages surveillance-camera `.dav` recordings, and other video files, into
MKV or MP4 containers. It runs `ffmpeg -c copy`, either for one file or for every video
file of a directory tree, on a pool of worker threads. This project models the decision
logic around the external tools in Dafny and proves properties of it:

- `Streams` — `VideoInfo`: the per-type stream counts and the primary video and audio streams.
- `Converter` — `VideoConverter`:
  - the statistics counters and `_update_stats`/`get_stats`;
  - the decision flow of `convert_video`: the validation order, the overwrite policy, the
    output-path derivation, the ffmpeg argument list and the success rule;
  - `_verify_output_file`, with its size-ratio warning.
- `Batch` — `BatchConverter`:
  - the worker-count default and the file discovery of `find_video_files`;
  - the output-path mirroring, job submission and result counting of `convert_directory`.
- `EntryPoint` — the part of `main` that maps outcomes to an exit code.
- Support modules:
  - `Paths` — the part of `pathlib` the program relies on: `name`, `suffix`, `with_suffix`,
    `relative_to`, `/` and `str`.
  - `PathOrder` — the order `sorted()` puts paths in.
  - `Sequences` — a filter-map over sequences and its order-independence.
  - `Wrappers` — `Option`.

The model does not touch the filesystem or run ffmpeg. What they would report is an
input to the model:

- For one conversion, an `Env`:
  - whether the input exists and is a file;
  - whether the output exists;
  - whether `mkdir` succeeds;
  - how ffmpeg ends;
  - the sizes `stat()` reports;
  - the elapsed time.
- For a directory, a `DirectoryState` and a `BatchEnv`:
  - the listing;
  - each job's result;
  - the order in which the jobs complete.
- For `main`, a `Session`: tool availability, interruption and the processor count.

Elapsed time is a natural number of clock ticks. Places where the Python raises and is not
caught inside the operation become `None`:

- `with_suffix` or `relative_to` raising `ValueError`;
- `ThreadPoolExecutor` refusing a worker count below 1;
- `mkdir` of the output directory failing.

`main` turns such a `None` into exit code 1.

The statistics are modelled as written. The test suite expects `conversions_failed == 1`
after one failed conversion (tests/test_video_converter.py:178, 191, 207, 225 and 245). The
code gives 2: the attempt-only call at dav2mkv.py:310 also takes the `else` branch of
dav2mkv.py:280-281, so every call that reaches the second update counts one failure more
than its outcome calls for. The class keeps the counters as written, since only the log
reads them. A corrected update is defined and proved beside it (see Findings).

## Model

| member | source | states |
|---|---|---|
| Streams.Tally | dav2mkv.py:159-169 | the count table the constructor's loop builds: it always holds the five standard types, and no count exceeds the number of streams |
| Streams.VideoInfo.constructor | dav2mkv.py:153-169 | takes the stream list and format record, defaulting to empty; the counts its loop builds equal `Tally` of the streams |
| Streams.TallyCounts | dav2mkv.py:159-169 | the count keys are the five standard types plus every occurring type; each key holds exactly the number of streams of that type, a missing `codec_type` counting as "unknown" |
| Streams.CountsSumToStreams | dav2mkv.py:159-169 | summed over any duplicate-free key list covering the table, the counts add up to the number of streams |
| Streams.StreamsOfType | dav2mkv.py:171-177 | the filtered list holds exactly the streams whose `codec_type` is the type, and is no longer than the input; order and multiplicity are given by `StreamsOfTypeAppend` |
| Streams.StreamsOfTypeAppend | dav2mkv.py:171-177 | filtering one more stream appends it exactly when it has the type, so the filter keeps the streams' order and repetitions |
| Streams.FilterMatchesCount | dav2mkv.py:159-177 | for every type other than "unknown", the length of the filtered list equals that type's count |
| Streams.Primary | dav2mkv.py:179-191 | the empty record exactly when no stream has the type; otherwise the first stream of that type in order |
| Streams.VideoInfo.VideoStreams | dav2mkv.py:171-173 | holds exactly the streams whose `codec_type` is "video", and as many as there are video streams |
| Streams.VideoInfo.AudioStreams | dav2mkv.py:175-177 | holds exactly the streams whose `codec_type` is "audio", and as many as there are audio streams |
| Streams.VideoInfo.PrimaryVideoInfo | dav2mkv.py:179-184 | `{}` exactly when there is no video stream; otherwise a video stream, the first of `get_video_streams` |
| Streams.VideoInfo.PrimaryAudioInfo | dav2mkv.py:186-191 | `{}` exactly when there is no audio stream; otherwise an audio stream, the first of `get_audio_streams` |
| Converter.AfterUpdate | dav2mkv.py:268-282 | `attempted` grows by one iff the flag is set; exactly one of `successful`/`failed` grows by one and the other is unchanged, `failed` whenever `successful` is false; the processing time grows by exactly the given time |
| Converter.VideoConverter.constructor | dav2mkv.py:197-207 | the four counters start at zero |
| Converter.VideoConverter.UpdateStats | dav2mkv.py:268-282 | the new counters are `AfterUpdate` of the old ones |
| Converter.VideoConverter.GetStats | dav2mkv.py:510-513 | returns a value copy equal to the current counters; being a value, later changes to it cannot reach the converter |
| Converter.RatioAsIntegers | dav2mkv.py:494-497 | the real-valued test `ratio < 0.8 or ratio > 1.2`, with ratio 0 for an empty input, is equivalent to the integer test `in == 0 or 5*out < 4*in or 5*out > 6*in` |
| Converter.VerifyOutput | dav2mkv.py:472-508 | passes iff the output exists with a size above zero and the input size can be read; a warning only when passing, and then iff the ratio is out of range |
| Converter.FfmpegArgs | dav2mkv.py:354-373 | 13 arguments: `ffmpeg -i <in>`, the eight copy options, `-y` or `-n`, then the output |
| Converter.ParseBuiltArgs | dav2mkv.py:354-373 | reading a built argument list back gives the input, output and overwrite flag it was built from |
| Converter.BuiltFromParsed | dav2mkv.py:354-373 | every argument list that reads back is exactly the list built from what it reads back to |
| Converter.BuildCommand | dav2mkv.py:354-373 | the list built by appending reads back to (input, output, overwrite) and equals `FfmpegCommand` |
| Converter.CommandNamesPaths | dav2mkv.py:354-373 | for paths as pathlib builds them, the input and output arguments of the command read back as exactly the input and output paths |
| Converter.Convert | dav2mkv.py:284-421 | see the breakdown below the table |
| Converter.OutputFor | dav2mkv.py:324-328 | an explicit output is kept as given; without one, an output is derived exactly when `.container` is a valid suffix and the input has a name |
| Converter.DerivedOutput | dav2mkv.py:325-328 | with no explicit output and a valid container, the output exists, lies in the input's directory, keeps the stem and has the suffix `.container` |
| Converter.OverwriteRefusalRunsNothing | dav2mkv.py:331-335 | an existing output with overwrite off gives False and no ffmpeg command |
| Converter.StatsAfterConversion | dav2mkv.py:310-421 | one call, as written: `attempted` +1; `successful` +1 on success; `failed` +1 on success or refusal, +2 on any other failure; time added except on refusal |
| Converter.VideoConverter.ConvertVideo | dav2mkv.py:284-421 | returns `Convert`'s result and command; the new counters are `StatsAfterConversion` of the old ones |
| Converter.AsWrittenTotals | dav2mkv.py:268-282 | from fresh counters, after n calls: attempted = n, successful = successes, failed = 2n − successes − refusals |
| Converter.AsWrittenConservationOnlyWhenAllRefused | dav2mkv.py:276-281 | as written, attempted == successful + failed holds iff every call was a refused overwrite |
| Converter.MissingInputCountsTwoFailures | dav2mkv.py:310-316 | a missing input, from fresh counters, leaves `failed` at 2 |
| Converter.IntendedStatsAfterConversion | dav2mkv.py:268-282 | the corrected update: `attempted` +1, and exactly one of `successful` and `failed` +1, on every call including a refused overwrite |
| Converter.IntendedMissingInputCountsOneFailure | dav2mkv.py:310-316 | with the corrected update, a missing input from fresh counters leaves `failed` at 1 |
| Converter.IntendedConservation | dav2mkv.py:268-282 | with the corrected update, after any run of calls, attempted = calls and attempted = successful + failed |
| Batch.DefaultWorkers | dav2mkv.py:522 | a non-zero request is kept as given; otherwise max(1, cpu − 1); the count is below 1 only for a negative request |
| Batch.BatchConverter.constructor | dav2mkv.py:519-542 | `maxWorkers` is `DefaultWorkers` of the request and the processor count |
| Batch.Discover | dav2mkv.py:544-589 | sorted; empty for a missing path, a non-directory or a failing scan; otherwise, as a multiset, the selected entries' files |
| Batch.Candidates | dav2mkv.py:570-581 | at most one file per entry; which files, and in what order, is given by `CandidateMember` and `CandidatesAppend` |
| Batch.CandidatesAppend | dav2mkv.py:576-581 | enumerating one more entry appends its path exactly when it is in scope, is a file and passes `IsVideoFile` |
| Batch.CandidateMember | dav2mkv.py:570-581 | a path is appended iff some entry is in scope, is a file, has a video suffix in any letter case and names that path |
| Batch.DiscoverFindsExactlySelected | dav2mkv.py:570-585 | a path is returned iff some entry in scope is a file whose lower-cased suffix is a video suffix and names that path |
| Batch.DiscoverOrderIndependent | dav2mkv.py:570-585 | the result does not depend on the order the directory is enumerated in |
| Batch.NonRecursiveFindsChildren | dav2mkv.py:570-574 | a non-recursive scan returns only direct children of the directory |
| Batch.UpperCaseSuffixIsFound | dav2mkv.py:579 | `CLIP.DAV` is recognised as a video file |
| Batch.BatchConverter.FindVideoFiles | dav2mkv.py:544-589 | the appending loop then sorting yields exactly `Discover` |
| Batch.OutputPathFor | dav2mkv.py:643-649 | an output path exists iff `.container` is a valid suffix and the path to rename has a name: the input itself when the two directories are equal, otherwise its path relative to the input directory, which must exist; what the path is, is given by `OutputPathOfFoundFile` |
| Batch.OutputPathOfFoundFile | dav2mkv.py:643-649 | a file found below the input directory maps to its relative path, with the container suffix, joined onto the output directory |
| Batch.PlanWith | dav2mkv.py:641-658 | when the submissions exist there is one per file; when they exist and what each holds is given by `PlanWithMeans` |
| Batch.PlanWithMeans | dav2mkv.py:641-658 | planning fails iff deriving some file's output fails; otherwise submission k pairs file k with its output, the container and the overwrite flag |
| Batch.PlanJobs | dav2mkv.py:641-658 | when submission succeeds, one call per file in order, each passing the batch's container and overwrite flag |
| Batch.PlanJobsMeans | dav2mkv.py:641-658 | submission fails iff some file's output path cannot be derived; otherwise one submission per file, in order, with that file's output path, the container and the overwrite flag |
| Batch.SubmitJobs | dav2mkv.py:641-658 | the submission loop yields exactly `PlanJobs` |
| Batch.Fold | dav2mkv.py:661-680 | the counters after consuming results: the total is kept, and each consumed result adds one to exactly one of `successful` and `failed` |
| Batch.FoldCounts | dav2mkv.py:661-680 | total is kept; successful + failed equals the number of results consumed; successful counts the True results and failed the False and raised ones |
| Batch.CountResults | dav2mkv.py:661-680 | the completion loop yields `Fold` over the results in completion order |
| Batch.CompletionOrderIrrelevant | dav2mkv.py:661-680 | for any completion order that is a permutation of the jobs, the totals are those of submission order |
| Batch.TwoOfFourFail | dav2mkv.py:661-680 | results True, False, raised, True give {total 4, successful 2, failed 2} |
| Batch.BatchOutcome | dav2mkv.py:591-683 | see the breakdown below the table |
| Batch.BatchConverter.ConvertDirectory | dav2mkv.py:591-683 | the method's result equals `BatchOutcome`; when jobs ran, the submitted calls are `PlanJobs` of the found files, each with the given container and overwrite flag |
| EntryPoint.ExitCode | dav2mkv.py:805-849 | 0 iff the single file converted or the batch had no failure; 2 iff the batch had failures and successes; 127 iff ffmpeg is missing; 130 iff interrupted; 1 in every other case |
| EntryPoint.Run | dav2mkv.py:761-851 | see the breakdown below the table |
| EntryPoint.NoToolsExitCode | dav2mkv.py:778-783 | without ffmpeg, in either mode, the exit code is 127 |
| EntryPoint.SingleFileExitCode | dav2mkv.py:791-805 | in single-file mode the exit code is 0 iff `convert_video` returned True, and otherwise 1 |
| EntryPoint.BatchExitCode | dav2mkv.py:829-840 | after a completed batch: 0 iff every job returned True, 2 iff some did and some did not, 1 iff there were jobs and none did |
| EntryPoint.PartialBatchExitsWithTwo | dav2mkv.py:829-838 | four jobs, two of which fail, give exit code 2 |
| EntryPoint.SingleFileSuccessExitsWithZero | dav2mkv.py:791-805 | `clip.dav` converted to mkv, with ffmpeg exiting 0 and an output the size of the input, gives exit code 0 |
| PathOrder.PathLeTotalOrder | dav2mkv.py:585 | the part-wise path comparison is reflexive, total, antisymmetric and transitive |
| PathOrder.SortPaths | dav2mkv.py:585 | the result is a permutation of the input and is sorted |
| PathOrder.SortedIsUnique | dav2mkv.py:585 | two sorted arrangements of the same paths are equal |
| Paths.Name | dav2mkv.py:326 | the name of a non-empty path other than the bare root is its last part; the bare root and the empty path have the name "" |
| Paths.Stem | dav2mkv.py:326 | the stem followed by the suffix is the name, and a name with a suffix has a non-empty stem |
| Paths.Join | dav2mkv.py:645 | an absolute right operand replaces the left; otherwise the parts of both, the left ones first |
| Paths.PathString | dav2mkv.py:354-373 | "." for the empty path; when the first part is not empty, a non-empty string that starts with "/" iff that part does; `PathStringRoundTrip` shows it is the parts joined by "/" |
| Paths.SplitJoinParts | dav2mkv.py:354-373 | splitting at "/" parts joined by "/" gives the parts back, provided none of them contains "/" |
| Paths.PathStringRoundTrip | dav2mkv.py:354-373 | for a path as pathlib builds it, `str(path)` reads back as that path: "." is the empty path, a leading "/" is the root, and the rest splits at "/" into the parts |
| Paths.PathStringInjective | dav2mkv.py:354-373 | two paths as pathlib builds them have the same string only when they are equal |
| Paths.Suffix | dav2mkv.py:579 | non-empty iff the name has a dot that is neither first nor last; it is then the name's tail from the last dot |
| Paths.WithSuffix | dav2mkv.py:325-328 | defined iff the suffix is valid and the name is non-empty |
| Paths.WithSuffixSetsSuffix | dav2mkv.py:325-328 | after `with_suffix(".x")` the suffix is ".x" and the stem is unchanged |
| Paths.WithSuffixIdempotent | dav2mkv.py:325-328 | applying the same one-dot suffix twice equals applying it once |
| Paths.RelativeTo | dav2mkv.py:644 | when defined, the base followed by the result gives the path; undefined iff the base is not a leading part |
| Paths.RelativeToJoin | dav2mkv.py:643-649 | taking a joined child path relative to its base gives back the child |
| Paths.JoinWithSuffixCommutes | dav2mkv.py:643-649 | renaming then joining equals joining then renaming |
| Paths.Lower | dav2mkv.py:579 | same length; each character is mapped through the ASCII lower-casing |
| Sequences.FilterMapPermutation | dav2mkv.py:662 | rearranging the input of a filter-map rearranges its output and nothing more |

The three larger contracts, in detail:

- `Converter.Convert` (dav2mkv.py:284-421):
  - Success holds iff there is no failure reason.
  - Success holds iff the checks pass, ffmpeg exits 0 and verification passes.
  - ffmpeg runs iff validation passes, an output path is derived, there is no refused
    overwrite and `mkdir` succeeds; the command it runs is then `FfmpegCommand`.
  - The input-missing, not-a-file and container checks come first, in that order.
  - The refusal happens exactly on an existing output with overwrite off.
  - A size warning implies success.
- `Batch.BatchOutcome` (dav2mkv.py:591-683):
  - It raises exactly when the output directory cannot be created, or when there are files
    and either the worker count is below 1 or some output path cannot be derived.
  - When it returns, total = |files| = successful + failed.
  - successful is the number of True results, and failed the number of False and raised
    results.
- `EntryPoint.Run` (dav2mkv.py:761-851):
  - The run is interrupted iff the operator interrupts it.
  - ffmpeg is missing iff the run was not interrupted and the check fails.
  - In single-file mode the run ends with `convert_video`'s result.
  - An unexpected error happens iff the batch raised.
  - Otherwise the run ends with the batch totals.

## Left out

- Running ffprobe and ffmpeg, `get_video_info`, JSON parsing and
  `check_ffmpeg_availability`: external processes and a foreign library. Their results are
  inputs: `Env.ffmpeg`, `Session.ffmpegAvailable`, and a parsed `ProbeData` for `VideoInfo`.
  `convert_video` never acts on the probe result beyond logging it.
- Logging, including `setup_logging` and `_log_video_info`, all log calls and the
  system-information lines of `main`. They do not affect any result.
- Concurrency: the locks, `ThreadPoolExecutor` and `as_completed`. The batch is a sequential
  fold over an arbitrary permutation of the job results, and the totals are proved
  independent of that order.
- The side effects of jobs that were already submitted when a later submission raised, and
  the shared converter's statistics during a batch. Each job's result is an input, so
  `BatchConverter.converter` is not modelled.
- The `completed` progress counter of `convert_directory`: it is only logged.
- Floating point:
  - Processing time is a natural number of ticks, so a clock going backwards is not
    modelled.
  - The size ratio is exact, so float rounding at exactly 0.8 or 1.2 is not modelled.
- `Paths.PathStringRoundTrip`: covers paths whose parts are neither empty nor "." and hold no
  "/", which is how pathlib stores them. The model's `Path` does not normalise its parts the
  way pathlib's constructor does.
- `Paths.Lower`: lower-cases ASCII letters only; Python's full Unicode `str.lower` is not
  modelled.
- A `codec_type` that is present but not a string, and stream or format entries that are
  not a list or a dictionary: the model's records are typed.
- The listing is one enumeration of the whole subtree, with a single failure flag.
  `iterdir` versus `rglob` is modelled by keeping only direct children when not recursive.
  `exists()` or `is_dir()` raising is not modelled.
- `create_argument_parser` and argparse: the parsed arguments are the `Mode` input to
  `EntryPoint.Run`.
- `dav2mp4.py`: an OpenCV frame-copy loop made entirely of foreign-library I/O.
- The timeout values (3600 s for ffmpeg, 60 s for `future.result`): a timeout is an input
  outcome (`TimedOut`, or a raised job).
- The interruption is one flag that ends the run with 130. Where it lands, and what was
  converted before it, is not modelled.

## Findings

| source | as written | input that shows it | evidently intended | confidence | as-written member | corrected member |
|---|---|---|---|---|---|---|
| dav2mkv.py:276-281 | `_update_stats(attempted=True)` at dav2mkv.py:310 also takes the `else` branch and increments `conversions_failed`, so a failed conversion counts two failures and a successful one counts one failure and one success | `convert_video` on a missing input file, from fresh counters: `failed == 2` | each call ends as exactly one success or one failure, `attempted == successful + failed`, so one failed conversion counts one failure | not executed | Converter.MissingInputCountsTwoFailures | Converter.IntendedConservation |

The finding has two sides in the model:

- As written, `Converter.AsWrittenConservationOnlyWhenAllRefused` shows that
  `attempted == successful + failed` holds only when every call was a refused overwrite.
- Corrected, the attempt-only call counts no outcome, and the refused overwrite records its
  outcome before returning False. `Converter.IntendedStatsAfterConversion` then counts one
  failure for every call that returns False, and `Converter.IntendedMissingInputCountsOneFailure`
  gives the count of 1 the test suite expects.
- `Converter.IntendedConservation` proves `attempted == successful + failed` after any run of
  calls.
