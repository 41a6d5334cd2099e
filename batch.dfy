/** `BatchConverter`: finds the video files of a directory and converts them on a pool of
    workers, counting how many conversions succeeded. The directory listing, the outcome of
    each job and the order in which the jobs complete are given as inputs. */
module Batch {
  import opened Wrappers
  import opened Paths
  import opened PathOrder
  import opened Sequences

  /** The suffixes, lower-cased, of the files a directory scan picks up. */
  const VideoExtensions: set<string> :=
    {".dav", ".avi", ".mp4", ".mkv", ".mov", ".wmv", ".flv", ".webm",
     ".m4v", ".3gp", ".3g2", ".asf", ".rm", ".rmvb", ".vob", ".ts"}

  /** `max_workers or max(1, cpu_count() - 1)`: a requested count other than 0 is kept as it
      is, even when negative; otherwise one worker fewer than the processors, but at least one. */
  function DefaultWorkers(requested: Option<int>, cpuCount: nat): (w: int)
    ensures requested.Some? && requested.value != 0 ==> w == requested.value
    ensures requested.None? || requested.value == 0 ==>
      w >= 1 && w >= cpuCount - 1 && (w == 1 || w == cpuCount - 1)
    ensures w <= 0 ==> requested.Some? && requested.value < 0
  {
    if requested.Some? && requested.value != 0 then requested.value
    else if cpuCount - 1 > 1 then cpuCount - 1 else 1
  }

  // ---------------------------------------------------------------------------------------
  // File discovery

  /** One entry below the scanned directory: its path relative to that directory and whether
      `is_file()` holds for it. */
  datatype Entry = Entry(relative: Path, isFile: bool)

  /** What enumerating the directory's whole tree yields, or that the enumeration raised. */
  datatype Listing = Listed(entries: seq<Entry>) | ScanFailed

  /** The directory as `exists()`, `is_dir()` and the enumeration see it. */
  datatype DirectoryState = DirectoryState(present: bool, isDir: bool, listing: Listing)

  /** `iterdir()` yields the direct children only; the recursive glob the whole tree. */
  predicate InScope(e: Entry, recursive: bool) {
    recursive || |e.relative.parts| == 1
  }

  predicate IsVideoFile(p: Path) {
    Lower(PathSuffix(p)) in VideoExtensions
  }

  predicate Selected(dir: Path, e: Entry, recursive: bool) {
    InScope(e, recursive) && e.isFile && IsVideoFile(Join(dir, e.relative))
  }

  function CandidateOf(dir: Path, recursive: bool): Entry -> Option<Path> {
    e => if Selected(dir, e, recursive) then Some(Join(dir, e.relative)) else None
  }

  /** The files the scan appends, in enumeration order: at most one per entry. */
  function Candidates(dir: Path, entries: seq<Entry>, recursive: bool): (r: seq<Path>)
    ensures |r| <= |entries|
  {
    FilterMap(CandidateOf(dir, recursive), entries)
  }

  lemma CandidatesAppend(dir: Path, entries: seq<Entry>, recursive: bool, e: Entry)
    ensures Candidates(dir, entries + [e], recursive) ==
      Candidates(dir, entries, recursive) + (if Selected(dir, e, recursive) then [Join(dir, e.relative)] else [])
  {
    assert (entries + [e])[..|entries|] == entries;
  }

  /** Entry `e` is selected and names the file `p`. */
  predicate LeadsTo(dir: Path, e: Entry, recursive: bool, p: Path) {
    Selected(dir, e, recursive) && p == Join(dir, e.relative)
  }

  /** A path is a candidate exactly when some selected entry leads to it. */
  lemma {:induction false} CandidateMember(dir: Path, entries: seq<Entry>, recursive: bool, p: Path)
    ensures p in Candidates(dir, entries, recursive) <==> exists i :: 0 <= i < |entries| && LeadsTo(dir, entries[i], recursive, p)
  {
    if |entries| > 0 {
      var prefix := entries[..|entries| - 1];
      var last := entries[|entries| - 1];
      assert entries == prefix + [last];
      CandidatesAppend(dir, prefix, recursive, last);
      CandidateMember(dir, prefix, recursive, p);
      assert p in Candidates(dir, entries, recursive) <==>
        p in Candidates(dir, prefix, recursive) || LeadsTo(dir, last, recursive, p);
      if exists i :: 0 <= i < |entries| && LeadsTo(dir, entries[i], recursive, p) {
        var i :| 0 <= i < |entries| && LeadsTo(dir, entries[i], recursive, p);
        if i < |prefix| { assert prefix[i] == entries[i]; }
      }
      if exists i :: 0 <= i < |prefix| && LeadsTo(dir, prefix[i], recursive, p) {
        var i :| 0 <= i < |prefix| && LeadsTo(dir, prefix[i], recursive, p);
        assert entries[i] == prefix[i];
      }
    }
  }

  /** `find_video_files`: nothing for a missing path, a path that is not a directory or a scan
      that raised; otherwise every file in scope with a video suffix in any letter case,
      sorted. */
  function Discover(dir: Path, state: DirectoryState, recursive: bool): (files: seq<Path>)
    ensures Sorted(files)
    ensures !state.present || !state.isDir || state.listing.ScanFailed? ==> files == []
    ensures state.present && state.isDir && state.listing.Listed? ==>
      multiset(files) == multiset(Candidates(dir, state.listing.entries, recursive))
  {
    if !state.present || !state.isDir then []
    else match state.listing
      case ScanFailed => []
      case Listed(entries) => SortPaths(Candidates(dir, entries, recursive))
  }

  /** Every file the scan returns comes from a selected entry, and every selected entry's file
      is returned. */
  lemma DiscoverFindsExactlySelected(dir: Path, entries: seq<Entry>, recursive: bool, p: Path)
    ensures p in Discover(dir, DirectoryState(true, true, Listed(entries)), recursive) <==>
      exists i :: 0 <= i < |entries| && LeadsTo(dir, entries[i], recursive, p)
  {
    var files := Discover(dir, DirectoryState(true, true, Listed(entries)), recursive);
    assert p in files <==> p in multiset(files);
    CandidateMember(dir, entries, recursive, p);
  }

  /** The result of a scan does not depend on the order the entries were enumerated in. */
  lemma DiscoverOrderIndependent(dir: Path, present: bool, isDir: bool, a: seq<Entry>, b: seq<Entry>, recursive: bool)
    requires multiset(a) == multiset(b)
    ensures Discover(dir, DirectoryState(present, isDir, Listed(a)), recursive) ==
            Discover(dir, DirectoryState(present, isDir, Listed(b)), recursive)
  {
    FilterMapPermutation(CandidateOf(dir, recursive), a, b);
    SortPathsOrderIndependent(Candidates(dir, a, recursive), Candidates(dir, b, recursive));
  }

  /** A non-recursive scan returns direct children of the directory only. */
  lemma NonRecursiveFindsChildren(dir: Path, entries: seq<Entry>, p: Path)
    requires p in Discover(dir, DirectoryState(true, true, Listed(entries)), false)
    ensures exists name: string :: p == Join(dir, Path([name]))
  {
    DiscoverFindsExactlySelected(dir, entries, false, p);
    var i :| 0 <= i < |entries| && LeadsTo(dir, entries[i], false, p);
    var rel := entries[i].relative;
    assert rel == Path([rel.parts[0]]);
  }

  /** The suffix test ignores letter case: "CLIP.DAV" is found like "clip.dav". */
  lemma UpperCaseSuffixIsFound()
    ensures IsVideoFile(Path(["/", "in", "CLIP.DAV"]))
  {
    StemOfSimpleSuffixed("CLIP", ".DAV");
    assert "CLIP" + ".DAV" == "CLIP.DAV";
    assert Lower(".DAV") == ".dav";
  }

  // ---------------------------------------------------------------------------------------
  // Batch conversion

  /** What `future.result()` gave for one job: the job's return value, or an exception. */
  datatype JobResult = Returned(success: bool) | Raised

  /** The dictionary `convert_directory` returns. */
  datatype BatchTotals = BatchTotals(total: nat, successful: nat, failed: nat)

  /** One submitted `convert_video(input, output, container, overwrite)` call. */
  datatype Submission = Submission(input: Path, output: Path, container: string, overwrite: bool)

  /** The output path of one file: beside the input when the output directory is the input
      directory, otherwise at the same relative place below the output directory; in both
      cases with the container's suffix. None where `relative_to` or `with_suffix` raises. */
  function OutputPathFor(inputDir: Path, outputDir: Path, file: Path, container: string): (r: Option<Path>)
    ensures outputDir == inputDir ==> (r.Some? <==> ValidSuffix("." + container) && Name(file) != "")
    ensures outputDir != inputDir ==>
      (r.Some? <==> ValidSuffix("." + container) && RelativeTo(file, inputDir).Some? &&
                    Name(RelativeTo(file, inputDir).value) != "")
  {
    if outputDir != inputDir then
      match RelativeTo(file, inputDir)
      case None => None
      case Some(rel) =>
        match WithSuffix(rel, "." + container)
        case None => None
        case Some(renamed) => Some(Join(outputDir, renamed))
    else WithSuffix(file, "." + container)
  }

  /** A file found below the input directory gets, as its output, its relative path with the
      container's suffix joined onto the output directory; when the two directories are the
      same this is the input with its suffix replaced. */
  lemma OutputPathOfFoundFile(inputDir: Path, outputDir: Path, rel: Path, container: string)
    requires IsChildPath(rel) && ValidSuffix("." + container)
    ensures WithSuffix(rel, "." + container).Some?
    ensures OutputPathFor(inputDir, outputDir, Join(inputDir, rel), container) ==
            Some(Join(outputDir, WithSuffix(rel, "." + container).value))
  {
    JoinWithSuffixCommutes(inputDir, rel, "." + container);
    RelativeToJoin(inputDir, rel);
  }

  /** The calls submitted for `files`, in order, each paired with the output `derive` gives
      it, or None when `derive` fails for one of them. */
  function PlanWith(derive: Path -> Option<Path>, container: string, overwrite: bool, files: seq<Path>): (r: Option<seq<Submission>>)
    ensures r.Some? ==> |r.value| == |files|
  {
    if |files| == 0 then Some([])
    else
      match PlanWith(derive, container, overwrite, files[..|files| - 1])
      case None => None
      case Some(planned) =>
        match derive(files[|files| - 1])
        case None => None
        case Some(out) => Some(planned + [Submission(files[|files| - 1], out, container, overwrite)])
  }

  function OutputOf(inputDir: Path, outputDir: Path, container: string): Path -> Option<Path> {
    file => OutputPathFor(inputDir, outputDir, file, container)
  }

  /** The calls `convert_directory` submits, or None when deriving an output path raises.
      Every submission passes on the batch's container and overwrite flag. */
  function PlanJobs(inputDir: Path, outputDir: Path, files: seq<Path>, container: string, overwrite: bool): (r: Option<seq<Submission>>)
    ensures r.Some? ==> |r.value| == |files|
    ensures r.Some? ==> forall k :: 0 <= k < |r.value| ==>
      r.value[k].input == files[k] && r.value[k].container == container && r.value[k].overwrite == overwrite
  {
    PlanWithMeans(OutputOf(inputDir, outputDir, container), container, overwrite, files);
    PlanWith(OutputOf(inputDir, outputDir, container), container, overwrite, files)
  }

  lemma {:induction false} PlanWithMeans(derive: Path -> Option<Path>, container: string, overwrite: bool, files: seq<Path>)
    ensures var r := PlanWith(derive, container, overwrite, files);
      r.None? <==> exists k :: 0 <= k < |files| && derive(files[k]).None?
    ensures var r := PlanWith(derive, container, overwrite, files);
      r.Some? ==> forall k :: 0 <= k < |files| ==> r.value[k] == Submission(files[k], derive(files[k]).value, container, overwrite)
  {
    if |files| > 0 {
      var prefix := files[..|files| - 1];
      var last := files[|files| - 1];
      PlanWithMeans(derive, container, overwrite, prefix);
      forall k | 0 <= k < |prefix| ensures prefix[k] == files[k] { }
      if PlanWith(derive, container, overwrite, prefix).None? {
        var k :| 0 <= k < |prefix| && derive(prefix[k]).None?;
        assert derive(files[k]).None?;
      } else if derive(last).Some? {
        forall k | 0 <= k < |files| ensures derive(files[k]).Some? {
          if k < |prefix| { assert files[k] == prefix[k]; }
        }
      }
    }
  }

  /** Planning fails exactly when some file's output path cannot be derived; otherwise there
      is one submission per file, in order, pairing the file with its output path. */
  lemma PlanJobsMeans(inputDir: Path, outputDir: Path, files: seq<Path>, container: string, overwrite: bool)
    ensures var r := PlanJobs(inputDir, outputDir, files, container, overwrite);
      r.None? <==> exists k :: 0 <= k < |files| && OutputPathFor(inputDir, outputDir, files[k], container).None?
    ensures var r := PlanJobs(inputDir, outputDir, files, container, overwrite);
      r.Some? ==> |r.value| == |files| && forall k :: 0 <= k < |files| ==>
        r.value[k] == Submission(files[k], OutputPathFor(inputDir, outputDir, files[k], container).value, container, overwrite)
  {
    PlanWithMeans(OutputOf(inputDir, outputDir, container), container, overwrite, files);
  }

  /** The counters after the results in `completed` have been consumed, out of `total` jobs. */
  function Fold(total: nat, completed: seq<JobResult>): (r: BatchTotals)
    ensures r.total == total && r.successful + r.failed == |completed|
  {
    if |completed| == 0 then BatchTotals(total, 0, 0)
    else
      var t := Fold(total, completed[..|completed| - 1]);
      if completed[|completed| - 1] == Returned(true) then t.(successful := t.successful + 1)
      else t.(failed := t.failed + 1)
  }

  /** Each consumed result counts once: the True ones as successful, the False and the raised
      ones as failed. */
  lemma {:induction false} FoldCounts(total: nat, completed: seq<JobResult>)
    ensures Fold(total, completed).total == total
    ensures Fold(total, completed).successful + Fold(total, completed).failed == |completed|
    ensures Fold(total, completed).successful == multiset(completed)[Returned(true)]
    ensures Fold(total, completed).failed == multiset(completed)[Returned(false)] + multiset(completed)[Raised]
  {
    if |completed| > 0 {
      var prefix := completed[..|completed| - 1];
      var r := completed[|completed| - 1];
      assert completed == prefix + [r];
      assert multiset(completed) == multiset(prefix) + multiset{r};
      FoldCounts(total, prefix);
      match r
      case Returned(b) =>
      case Raised =>
    }
  }

  function ResultOf(results: seq<JobResult>): nat -> Option<JobResult> {
    (k: nat) => if k < |results| then Some(results[k]) else None
  }

  /** The job results in the order their futures complete. */
  function Completed(results: seq<JobResult>, order: seq<nat>): seq<JobResult> {
    FilterMap(ResultOf(results), order)
  }

  lemma {:induction false} CompletedInSubmissionOrder(results: seq<JobResult>, n: nat)
    requires n <= |results|
    ensures Completed(results, Indices(n)) == results[..n]
  {
    if n > 0 {
      assert Indices(n)[..n - 1] == Indices(n - 1);
      CompletedInSubmissionOrder(results, n - 1);
      assert results[..n] == results[..n - 1] + [results[n - 1]];
    }
  }

  /** Consuming the results in any completion order gives the counters of consuming them in
      submission order. */
  lemma CompletionOrderIrrelevant(results: seq<JobResult>, order: seq<nat>)
    requires IsPermutationOf(order, |results|)
    ensures Fold(|results|, Completed(results, order)) == Fold(|results|, results)
  {
    FilterMapPermutation(ResultOf(results), order, Indices(|results|));
    CompletedInSubmissionOrder(results, |results|);
    assert results[..|results|] == results;
    FoldCounts(|results|, Completed(results, order));
    FoldCounts(|results|, results);
  }

  /** What the environment reports during `convert_directory`: whether creating the output
      directory succeeds, the input directory, the result of each submitted job in submission
      order and the order in which the jobs complete (indices into the submissions). */
  datatype BatchEnv = BatchEnv(outputDirCreated: bool, input: DirectoryState, results: seq<JobResult>, completion: seq<nat>)

  /** `output_dir` if one is given (and not empty), else the input directory. */
  function TargetDir(inputDir: Path, outputDir: Option<Path>): Path {
    outputDir.GetOr(inputDir)
  }

  /** The one result the executor and `as_completed` can give: one result per file, each
      consumed once. */
  predicate JobsMatch(inputDir: Path, recursive: bool, env: BatchEnv) {
    |env.results| == |Discover(inputDir, env.input, recursive)| && IsPermutationOf(env.completion, |env.results|)
  }

  /** `convert_directory`: None where it raises (creating the output directory fails, the
      pool refuses a worker count below 1, or an output path cannot be derived); otherwise
      the totals, which count each file once whatever order the jobs complete in, with every
      raised job counted as failed. */
  function BatchOutcome(maxWorkers: int, inputDir: Path, outputDir: Option<Path>, container: string, recursive: bool, overwrite: bool, env: BatchEnv): (r: Option<BatchTotals>)
    requires |env.results| == |Discover(inputDir, env.input, recursive)|
    ensures var files := Discover(inputDir, env.input, recursive);
      r.None? <==> (outputDir.Some? && !env.outputDirCreated) ||
                   (|files| > 0 && (maxWorkers <= 0 || PlanJobs(inputDir, TargetDir(inputDir, outputDir), files, container, overwrite).None?))
    ensures r.Some? ==> r.value.total == |env.results| && r.value.successful + r.value.failed == r.value.total
    ensures r.Some? ==> r.value.successful == multiset(env.results)[Returned(true)]
    ensures r.Some? ==> r.value.failed == multiset(env.results)[Returned(false)] + multiset(env.results)[Raised]
  {
    if outputDir.Some? && !env.outputDirCreated then None
    else
      var files := Discover(inputDir, env.input, recursive);
      if |files| == 0 then Some(BatchTotals(0, 0, 0))
      else if maxWorkers <= 0 then None
      else if PlanJobs(inputDir, TargetDir(inputDir, outputDir), files, container, overwrite).None? then None
      else
        FoldCounts(|files|, env.results);
        Some(Fold(|files|, env.results))
  }

  lemma PlanJobsStep(inputDir: Path, outputDir: Path, files: seq<Path>, k: nat, container: string, overwrite: bool)
    requires k < |files|
    ensures PlanJobs(inputDir, outputDir, files[..k + 1], container, overwrite) ==
      match PlanJobs(inputDir, outputDir, files[..k], container, overwrite)
      case None => None
      case Some(planned) =>
        match OutputPathFor(inputDir, outputDir, files[k], container)
        case None => None
        case Some(out) => Some(planned + [Submission(files[k], out, container, overwrite)])
  {
    assert files[..k + 1][..k] == files[..k];
  }

  /** Once planning a prefix fails, planning the whole list fails. */
  lemma {:induction false} PlanJobsPrefixFails(inputDir: Path, outputDir: Path, files: seq<Path>, n: nat, container: string, overwrite: bool)
    requires n <= |files| && PlanJobs(inputDir, outputDir, files[..n], container, overwrite).None?
    ensures PlanJobs(inputDir, outputDir, files, container, overwrite).None?
    decreases |files| - n
  {
    if n < |files| {
      PlanJobsStep(inputDir, outputDir, files, n, container, overwrite);
      PlanJobsPrefixFails(inputDir, outputDir, files, n + 1, container, overwrite);
    } else {
      assert files[..n] == files;
    }
  }

  /** The submission loop of `convert_directory`: one `submit` per file, in order; None when
      an output path raises part-way. */
  method SubmitJobs(inputDir: Path, outputDir: Path, files: seq<Path>, container: string, overwrite: bool)
    returns (submitted: Option<seq<Submission>>)
    ensures submitted == PlanJobs(inputDir, outputDir, files, container, overwrite)
  {
    var planned: seq<Submission> := [];
    for k := 0 to |files|
      invariant PlanJobs(inputDir, outputDir, files[..k], container, overwrite) == Some(planned)
    {
      PlanJobsStep(inputDir, outputDir, files, k, container, overwrite);
      var out := OutputPathFor(inputDir, outputDir, files[k], container);
      if out.None? {
        PlanJobsPrefixFails(inputDir, outputDir, files, k + 1, container, overwrite);
        return None;
      }
      planned := planned + [Submission(files[k], out.value, container, overwrite)];
    }
    assert files[..|files|] == files;
    submitted := Some(planned);
  }

  lemma CompletedStep(results: seq<JobResult>, order: seq<nat>, j: nat)
    requires j < |order|
    ensures Completed(results, order[..j + 1]) ==
      Completed(results, order[..j]) + (if order[j] < |results| then [results[order[j]]] else [])
  {
    assert order[..j + 1][..j] == order[..j];
  }

  lemma FoldStep(total: nat, completed: seq<JobResult>, r: JobResult)
    ensures Fold(total, completed + [r]) ==
      var t := Fold(total, completed);
      if r == Returned(true) then t.(successful := t.successful + 1) else t.(failed := t.failed + 1)
  {
    assert (completed + [r])[..|completed|] == completed;
  }

  /** One step of the `as_completed` loop: the next completed future either names a job,
      whose result is counted, or adds nothing. */
  lemma CountStep(total: nat, results: seq<JobResult>, order: seq<nat>, j: nat)
    requires j < |order|
    ensures var t := Fold(total, Completed(results, order[..j]));
      Fold(total, Completed(results, order[..j + 1])) ==
        if order[j] >= |results| then t
        else if results[order[j]] == Returned(true) then t.(successful := t.successful + 1)
        else t.(failed := t.failed + 1)
  {
    CompletedStep(results, order, j);
    if order[j] < |results| {
      assert Completed(results, order[..j + 1]) == Completed(results, order[..j]) + [results[order[j]]];
      FoldStep(total, Completed(results, order[..j]), results[order[j]]);
    } else {
      assert Completed(results, order[..j + 1]) == Completed(results, order[..j]);
    }
  }

  /** The `as_completed` loop of `convert_directory`: adds one to `successful` for each job
      that returned True and one to `failed` for each that returned False or raised. */
  method CountResults(total: nat, results: seq<JobResult>, completion: seq<nat>) returns (totals: BatchTotals)
    ensures totals == Fold(total, Completed(results, completion))
  {
    totals := BatchTotals(total, 0, 0);
    for j := 0 to |completion|
      invariant totals == Fold(total, Completed(results, completion[..j]))
    {
      var k := completion[j];
      CountStep(total, results, completion, j);
      if k < |results| {
        if results[k] == Returned(true) {
          totals := totals.(successful := totals.successful + 1);
        } else {
          totals := totals.(failed := totals.failed + 1);
        }
      }
    }
    assert completion[..|completion|] == completion;
  }

  /** Four jobs of which two fail, one by returning False and one by raising: two successful
      and two failed. */
  lemma TwoOfFourFail()
    ensures Fold(4, [Returned(true), Returned(false), Raised, Returned(true)]) == BatchTotals(4, 2, 2)
  {
    var r1: seq<JobResult> := [Returned(true)];
    var r2 := r1 + [Returned(false)];
    var r3 := r2 + [Raised];
    FoldStep(4, [], Returned(true));
    assert [] + [Returned(true)] == r1;
    FoldStep(4, r1, Returned(false));
    FoldStep(4, r2, Raised);
    FoldStep(4, r3, Returned(true));
    assert r3 + [Returned(true)] == [Returned(true), Returned(false), Raised, Returned(true)];
  }

  class BatchConverter {
    const maxWorkers: int
    const videoExtensions: set<string> := VideoExtensions

    /** `BatchConverter(converter, max_workers)`; `cpuCount` is `multiprocessing.cpu_count()`. */
    constructor (requested: Option<int>, cpuCount: nat)
      ensures maxWorkers == DefaultWorkers(requested, cpuCount)
    {
      maxWorkers := DefaultWorkers(requested, cpuCount);
    }

    /** `find_video_files`: appends the matching entries in enumeration order, then sorts. */
    method FindVideoFiles(dir: Path, state: DirectoryState, recursive: bool) returns (files: seq<Path>)
      ensures files == Discover(dir, state, recursive)
    {
      if !state.present || !state.isDir || state.listing.ScanFailed? {
        return [];
      }
      var entries := state.listing.entries;
      var found: seq<Path> := [];
      for i := 0 to |entries|
        invariant found == Candidates(dir, entries[..i], recursive)
      {
        var e := entries[i];
        assert entries[..i + 1] == entries[..i] + [e];
        CandidatesAppend(dir, entries[..i], recursive, e);
        if InScope(e, recursive) && e.isFile && Lower(PathSuffix(Join(dir, e.relative))) in videoExtensions {
          found := found + [Join(dir, e.relative)];
        }
      }
      assert entries[..|entries|] == entries;
      files := SortPaths(found);
    }

    /** `convert_directory`: returns the totals, or None where it raises, and the calls it
        submitted to the pool. */
    method ConvertDirectory(inputDir: Path, outputDir: Option<Path>, container: string, recursive: bool, overwrite: bool, env: BatchEnv)
      returns (outcome: Option<BatchTotals>, submitted: seq<Submission>)
      requires JobsMatch(inputDir, recursive, env)
      ensures outcome == BatchOutcome(maxWorkers, inputDir, outputDir, container, recursive, overwrite, env)
      ensures outcome.Some? && |env.results| > 0 ==>
        Some(submitted) == PlanJobs(inputDir, TargetDir(inputDir, outputDir), Discover(inputDir, env.input, recursive), container, overwrite)
    {
      submitted := [];
      if outputDir.Some? && !env.outputDirCreated {
        return None, [];
      }
      var target := TargetDir(inputDir, outputDir);
      var files := FindVideoFiles(inputDir, env.input, recursive);
      if |files| == 0 {
        return Some(BatchTotals(0, 0, 0)), [];
      }
      if maxWorkers <= 0 {
        return None, [];
      }
      var planned := SubmitJobs(inputDir, target, files, container, overwrite);
      if planned.None? {
        return None, [];
      }
      submitted := planned.value;
      var totals := CountResults(|files|, env.results, env.completion);
      CompletionOrderIrrelevant(env.results, env.completion);
      outcome := Some(totals);
    }
  }
}
