/** `main`: checks that ffmpeg is available, converts one file or one directory, and turns
    the outcome into the process exit code. */
module EntryPoint {
  import opened Wrappers
  import opened Paths
  import opened Converter
  import opened Batch

  /** What the command line asked for: `--file` with `--output`, `--container` and
      `--overwrite`, or `--directory` with `--output`, `--container`, `--recursive`,
      `--overwrite` and `--concurrent`. */
  datatype Mode =
    | SingleFile(request: Request)
    | Directory(inputDir: Path, outputDir: Option<Path>, container: string, recursive: bool, overwrite: bool,
                concurrent: Option<int>)

  /** What the run meets: whether `check_ffmpeg_availability` succeeds, whether the operator
      interrupts it, the processor count, and the environment of the single-file or the
      directory conversion. */
  datatype Session = Session(ffmpegAvailable: bool, interrupted: bool, cpuCount: nat, file: Env, batch: BatchEnv)

  /** How `main` leaves its `try` block. */
  datatype RunEnd =
    | ToolsUnavailable               // FFmpegNotFoundError
    | Interrupted                    // KeyboardInterrupt
    | UnexpectedError                // any other exception
    | SingleFileDone(success: bool)
    | DirectoryDone(totals: BatchTotals)

  const ExitToolsUnavailable: int := 127
  const ExitInterrupted: int := 130

  /** The exit code `main` returns: 0 when the one file converted or no file of the batch
      failed, 2 when a batch partly failed, 127 without ffmpeg, 130 on interruption, and 1
      in every other case. */
  function ExitCode(end: RunEnd): (code: int)
    ensures code == 0 <==> end == SingleFileDone(true) || (end.DirectoryDone? && end.totals.failed == 0)
    ensures code == 2 <==> end.DirectoryDone? && end.totals.failed > 0 && end.totals.successful > 0
    ensures code == ExitToolsUnavailable <==> end == ToolsUnavailable
    ensures code == ExitInterrupted <==> end == Interrupted
    ensures code == 1 <==>
      end == UnexpectedError || end == SingleFileDone(false) ||
      (end.DirectoryDone? && end.totals.failed > 0 && end.totals.successful == 0)
  {
    match end
    case ToolsUnavailable => ExitToolsUnavailable
    case Interrupted => ExitInterrupted
    case UnexpectedError => 1
    case SingleFileDone(success) => if success then 0 else 1
    case DirectoryDone(totals) =>
      if totals.failed == 0 then 0
      else if totals.successful > 0 then 2
      else 1
  }

  /** The directory environment gives one result per file the scan finds. */
  predicate SessionFits(mode: Mode, s: Session) {
    mode.Directory? ==> |s.batch.results| == |Discover(mode.inputDir, s.batch.input, mode.recursive)|
  }

  /** The directory conversion `main` runs, with the worker count `BatchConverter` derives
      from `--concurrent`. */
  function DirectoryOutcome(mode: Mode, s: Session): Option<BatchTotals>
    requires mode.Directory? && SessionFits(mode, s)
  {
    BatchOutcome(DefaultWorkers(mode.concurrent, s.cpuCount), mode.inputDir, mode.outputDir,
                 mode.container, mode.recursive, mode.overwrite, s.batch)
  }

  /** The body of `main` after argument parsing. An interruption anywhere ends the run with
      130; a missing ffmpeg ends it before any conversion; otherwise the one conversion or
      the batch decides, and a batch that raises is an unexpected error. */
  function Run(mode: Mode, s: Session): (end: RunEnd)
    requires SessionFits(mode, s)
    ensures s.interrupted <==> end == Interrupted
    ensures end == ToolsUnavailable <==> !s.interrupted && !s.ffmpegAvailable
    ensures end.SingleFileDone? <==> mode.SingleFile? && !s.interrupted && s.ffmpegAvailable
    ensures end.SingleFileDone? ==> end.success == Convert(mode.request, s.file).succeeded
    ensures end == UnexpectedError <==>
      mode.Directory? && !s.interrupted && s.ffmpegAvailable && DirectoryOutcome(mode, s).None?
    ensures end.DirectoryDone? ==> Some(end.totals) == DirectoryOutcome(mode, s)
  {
    if s.interrupted then Interrupted
    else if !s.ffmpegAvailable then ToolsUnavailable
    else match mode
      case SingleFile(req) => SingleFileDone(Convert(req, s.file).succeeded)
      case Directory(_, _, _, _, _, _) =>
        match DirectoryOutcome(mode, s)
        case None => UnexpectedError
        case Some(totals) => DirectoryDone(totals)
  }

  /** Without ffmpeg nothing is converted and the exit code is 127, whatever the mode. */
  lemma NoToolsExitCode(mode: Mode, s: Session)
    requires SessionFits(mode, s) && !s.interrupted && !s.ffmpegAvailable
    ensures ExitCode(Run(mode, s)) == 127
  {
  }

  /** In single-file mode the exit code is 0 exactly when `convert_video` returned True. */
  lemma SingleFileExitCode(req: Request, s: Session)
    requires !s.interrupted && s.ffmpegAvailable
    ensures ExitCode(Run(SingleFile(req), s)) == 0 <==> Convert(req, s.file).succeeded
    ensures ExitCode(Run(SingleFile(req), s)) == 1 <==> !Convert(req, s.file).succeeded
  {
  }

  /** The number of occurrences of `x` is the length exactly when every element is `x`. */
  lemma {:induction false} CountIsLength<T>(s: seq<T>, x: T)
    ensures multiset(s)[x] == |s| <==> forall i :: 0 <= i < |s| ==> s[i] == x
  {
    if |s| > 0 {
      var prefix := s[..|s| - 1];
      assert s == prefix + [s[|s| - 1]];
      assert multiset(s) == multiset(prefix) + multiset{s[|s| - 1]};
      assert multiset(prefix)[x] <= |prefix| by { assert |multiset(prefix)| == |prefix|; MultiplicityBound(multiset(prefix), x); }
      CountIsLength(prefix, x);
      if forall i :: 0 <= i < |prefix| ==> prefix[i] == x {
        forall i | 0 <= i < |s| - 1 ensures s[i] == x { assert s[i] == prefix[i]; }
      }
      if forall i :: 0 <= i < |s| ==> s[i] == x {
        forall i | 0 <= i < |prefix| ensures prefix[i] == x { assert prefix[i] == s[i]; }
      }
    }
  }

  lemma MultiplicityBound<T>(m: multiset<T>, x: T)
    ensures m[x] <= |m|
  {
    if m[x] > 0 {
      var rest := m[x := 0];
      assert m == rest + multiset{x}[x := m[x]];
    }
  }

  /** After a batch that ran to the end, the exit code depends only on the jobs' results: 0
      when every job returned True (in particular when there were none), 2 when some did and
      some did not, 1 when there were jobs and none returned True. */
  lemma BatchExitCode(mode: Mode, s: Session)
    requires mode.Directory? && SessionFits(mode, s) && !s.interrupted && s.ffmpegAvailable
    requires DirectoryOutcome(mode, s).Some?
    ensures var rs := s.batch.results; var code := ExitCode(Run(mode, s));
      (code == 0 <==> forall i :: 0 <= i < |rs| ==> rs[i] == Returned(true)) &&
      (code == 2 <==> Returned(true) in rs && exists i :: 0 <= i < |rs| && rs[i] != Returned(true)) &&
      (code == 1 <==> |rs| > 0 && Returned(true) !in rs)
  {
    var rs := s.batch.results;
    var t := DirectoryOutcome(mode, s).value;
    CountIsLength(rs, Returned(true));
    assert Returned(true) in rs <==> Returned(true) in multiset(rs);
    assert t.successful + t.failed == |rs|;
  }

  /** A batch of four files of which two fail to convert exits with 2. */
  lemma PartialBatchExitsWithTwo(mode: Mode, s: Session)
    requires mode.Directory? && SessionFits(mode, s) && !s.interrupted && s.ffmpegAvailable
    requires DirectoryOutcome(mode, s).Some?
    requires s.batch.results == [Returned(true), Returned(false), JobResult.Raised, Returned(true)]
    ensures ExitCode(Run(mode, s)) == 2
  {
    BatchExitCode(mode, s);
    assert s.batch.results[0] == Returned(true) && s.batch.results[1] != Returned(true);
  }

  /** `clip.dav` converted to mkv, ffmpeg exiting with 0 and the output as large as the input:
      the run succeeds and exits with 0. */
  lemma SingleFileSuccessExitsWithZero(s: Session)
    requires !s.interrupted && s.ffmpegAvailable
    requires s.file == Env(true, true, false, true, Exited(0), Present(1000), Some(1000), 3)
    ensures ExitCode(Run(SingleFile(Request(Path(["clip.dav"]), None, "mkv", false)), s)) == 0
  {
    var req := Request(Path(["clip.dav"]), None, "mkv", false);
    assert Name(req.input) == "clip.dav";
    assert ValidSuffix("." + "mkv") by { assert ("." + "mkv")[0] == '.'; }
    assert OutputFor(req).Some?;
  }
}
