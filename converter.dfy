/** `VideoConverter`: converts one file by stream copy with ffmpeg, verifies the output and
    keeps conversion statistics. The filesystem and the ffmpeg run are not performed here:
    what they would report is given as an `Env`. */
module Converter {
  import opened Wrappers
  import opened Paths

  // ---------------------------------------------------------------------------------------
  // Statistics

  /** The four counters of `_stats`. Processing time is counted in whole clock ticks. */
  datatype Stats = Stats(attempted: nat, successful: nat, failed: nat, processingTime: nat)

  const NoStats: Stats := Stats(0, 0, 0, 0)

  /** One `_update_stats(attempted, successful, processing_time)` call as written: `failed`
      is incremented whenever `successful` is false, the attempt-only call included. */
  function AfterUpdate(s: Stats, attempted: bool, successful: bool, processingTime: nat): (r: Stats)
    ensures r.attempted == s.attempted + (if attempted then 1 else 0)
    ensures r.successful + r.failed == s.successful + s.failed + 1
    ensures r.successful > s.successful <==> successful
    ensures r.failed > s.failed <==> !successful
    ensures r.successful >= s.successful && r.failed >= s.failed
    ensures r.processingTime == s.processingTime + processingTime
  {
    Stats(s.attempted + (if attempted then 1 else 0),
          s.successful + (if successful then 1 else 0),
          s.failed + (if successful then 0 else 1),
          s.processingTime + processingTime)
  }

  // ---------------------------------------------------------------------------------------
  // Output verification

  /** What `stat()` on the output reports after ffmpeg has run. */
  datatype FileState = Absent | Present(size: nat) | Unreadable

  /** The result of `_verify_output_file`, and whether it logged the size warning. */
  datatype Verification = Verification(passed: bool, sizeWarning: bool)

  /** The warning condition as `_verify_output_file` states it, on the real ratio
      output/input, with the ratio taken as 0 when the input is empty. */
  predicate RatioOutOfRange(outSize: nat, inSize: nat) {
    var ratio: real := if inSize > 0 then outSize as real / inSize as real else 0.0;
    ratio < 0.8 || ratio > 1.2
  }

  lemma ScaleLess(a: real, b: real, c: real)
    requires c > 0.0
    ensures a < b <==> a * c < b * c
  {
    if a < b { assert (b - a) * c > 0.0; }
    if a * c < b * c { assert (b - a) * c > 0.0; }
  }

  lemma RatioBound(o: real, i: real)
    requires i > 0.0
    ensures o / i < 0.8 <==> 5.0 * o < 4.0 * i
    ensures o / i > 1.2 <==> 5.0 * o > 6.0 * i
  {
    var ratio := o / i;
    assert ratio * i == o;
    ScaleLess(ratio, 0.8, i);
    ScaleLess(1.2, ratio, i);
  }

  /** The integer test VerifyOutput uses is exactly the ratio test. */
  lemma RatioAsIntegers(outSize: nat, inSize: nat)
    ensures RatioOutOfRange(outSize, inSize) <==> inSize == 0 || 5 * outSize < 4 * inSize || 5 * outSize > 6 * inSize
  {
    if inSize > 0 {
      RatioBound(outSize as real, inSize as real);
    }
  }

  /** `_verify_output_file`: fails when the output is missing, empty, or cannot be read, or
      when the input's size cannot be read; otherwise passes, warning when the sizes differ
      by more than a fifth. */
  function VerifyOutput(output: FileState, inputSize: Option<nat>): (v: Verification)
    ensures v.passed <==> output.Present? && output.size > 0 && inputSize.Some?
    ensures v.sizeWarning ==> v.passed
    ensures v.passed ==> (v.sizeWarning <==> RatioOutOfRange(output.size, inputSize.value))
  {
    match output
    case Absent => Verification(false, false)
    case Unreadable => Verification(false, false)
    case Present(outSize) =>
      if outSize == 0 then Verification(false, false)
      else match inputSize
        case None => Verification(false, false)
        case Some(inSize) =>
          RatioAsIntegers(outSize, inSize);
          Verification(true, inSize == 0 || 5 * outSize < 4 * inSize || 5 * outSize > 6 * inSize)
  }

  // ---------------------------------------------------------------------------------------
  // The ffmpeg command line

  /** The options between the input and the overwrite flag: copy every stream, map all of
      them, shift timestamps to start at zero and generate presentation timestamps. */
  const CopyOptions: seq<string> := ["-c", "copy", "-map", "0", "-avoid_negative_ts", "make_zero", "-fflags", "+genpts"]

  /** The three things a command line varies in. */
  datatype CommandLine = CommandLine(input: string, output: string, overwrite: bool)

  function OverwriteFlag(overwrite: bool): string {
    if overwrite then "-y" else "-n"
  }

  /** The argument list `convert_video` hands to ffmpeg. */
  function FfmpegArgs(line: CommandLine): (cmd: seq<string>)
    ensures |cmd| == 13 && cmd[0] == "ffmpeg" && cmd[1] == "-i" && cmd[2] == line.input
    ensures cmd[3..11] == CopyOptions
    ensures cmd[11] == OverwriteFlag(line.overwrite) && cmd[12] == line.output
  {
    ["ffmpeg", "-i", line.input] + CopyOptions + [OverwriteFlag(line.overwrite), line.output]
  }

  /** Reads an argument list of that shape back, or None for any other list. */
  function ParseFfmpegArgs(cmd: seq<string>): Option<CommandLine> {
    if |cmd| == 13 && cmd[0] == "ffmpeg" && cmd[1] == "-i" && cmd[3..11] == CopyOptions && (cmd[11] == "-y" || cmd[11] == "-n")
    then Some(CommandLine(cmd[2], cmd[12], cmd[11] == "-y"))
    else None
  }

  /** Reading a command line back gives what built it. */
  lemma ParseBuiltArgs(line: CommandLine)
    ensures ParseFfmpegArgs(FfmpegArgs(line)) == Some(line)
  {
  }

  /** Every argument list that reads back is the one built from what it reads back to. */
  lemma BuiltFromParsed(cmd: seq<string>)
    requires ParseFfmpegArgs(cmd).Some?
    ensures FfmpegArgs(ParseFfmpegArgs(cmd).value) == cmd
  {
    var built := FfmpegArgs(ParseFfmpegArgs(cmd).value);
    assert forall i :: 3 <= i < 11 ==> built[i] == CopyOptions[i - 3] == cmd[i];
    assert forall i :: 0 <= i < 13 ==> built[i] == cmd[i];
  }

  function FfmpegCommand(input: Path, output: Path, overwrite: bool): seq<string> {
    FfmpegArgs(CommandLine(PathString(input), PathString(output), overwrite))
  }

  /** Builds the command the way `convert_video` does, by appending to a fixed prefix. */
  method BuildCommand(input: Path, output: Path, overwrite: bool) returns (cmd: seq<string>)
    ensures ParseFfmpegArgs(cmd) == Some(CommandLine(PathString(input), PathString(output), overwrite))
    ensures cmd == FfmpegCommand(input, output, overwrite)
  {
    cmd := ["ffmpeg", "-i", PathString(input), "-c", "copy", "-map", "0",
            "-avoid_negative_ts", "make_zero", "-fflags", "+genpts"];
    if overwrite {
      cmd := cmd + ["-y"];
    } else {
      cmd := cmd + ["-n"];
    }
    cmd := cmd + [PathString(output)];
    ParseBuiltArgs(CommandLine(PathString(input), PathString(output), overwrite));
  }

  /** With paths as pathlib stores them, the command names its paths: reading the input and
      output arguments back as paths gives the input and output the command was built for. */
  lemma CommandNamesPaths(input: Path, output: Path, overwrite: bool)
    requires WellFormedPath(input) && WellFormedPath(output)
    ensures ParseFfmpegArgs(FfmpegCommand(input, output, overwrite)).Some?
    ensures var line := ParseFfmpegArgs(FfmpegCommand(input, output, overwrite)).value;
      ParsePathString(line.input) == input && ParsePathString(line.output) == output && line.overwrite == overwrite
  {
    ParseBuiltArgs(CommandLine(PathString(input), PathString(output), overwrite));
    PathStringRoundTrip(input);
    PathStringRoundTrip(output);
  }

  // ---------------------------------------------------------------------------------------
  // One conversion

  /** The containers `convert_video` accepts. */
  const Containers: seq<string> := ["mkv", "mp4"]

  /** The arguments of `convert_video`. */
  datatype Request = Request(input: Path, output: Option<Path>, container: string, overwrite: bool)

  /** What ffmpeg did: exited with a code, ran past the timeout, or could not be started. */
  datatype ToolRun = Exited(code: int) | TimedOut | Raised

  /** What the filesystem and ffmpeg report during one conversion: whether the input exists and
      is a regular file, whether the output exists beforehand, whether creating its directory
      succeeds, how ffmpeg ends, the output and input as `stat()` then sees them, and the
      time the conversion took. */
  datatype Env = Env(inputExists: bool, inputIsFile: bool, outputExists: bool, mkdirOk: bool,
                     ffmpeg: ToolRun, outputAfter: FileState, inputSize: Option<nat>, elapsed: nat)

  /** Why a conversion returned False. */
  datatype Failure =
    | InputNotFound
    | InputNotAFile
    | UnsupportedContainer
    | InvalidOutputName   // `with_suffix` raised ValueError
    | OutputExists        // existing output with overwrite disabled
    | DirectoryError      // creating the output directory raised
    | ToolRaised          // ffmpeg could not be started
    | Timeout
    | ToolFailed(code: int)
    | VerificationFailed

  /** The outcome of `convert_video`: its result, why it failed, the output path it settled
      on, the command it ran, and whether verification logged the size warning. */
  datatype Conversion = Conversion(succeeded: bool, reason: Option<Failure>, output: Option<Path>,
                                   command: Option<seq<string>>, sizeWarning: bool)

  function Fail(reason: Failure, output: Option<Path>, command: Option<seq<string>>): Conversion {
    Conversion(false, Some(reason), output, command, false)
  }

  /** The output path: the one given, or the input with its suffix replaced by the container's
      (None where `with_suffix` raises). */
  function OutputFor(req: Request): (r: Option<Path>)
    ensures req.output.Some? ==> r == req.output
    ensures req.output.None? ==> (r.Some? <==> ValidSuffix("." + req.container) && Name(req.input) != "")
  {
    if req.output.Some? then req.output else WithSuffix(req.input, "." + req.container)
  }

  /** Input and container checks, in the order `convert_video` makes them. */
  predicate InputValid(req: Request, env: Env) {
    env.inputExists && env.inputIsFile && req.container in Containers
  }

  /** Whether `convert_video` gets as far as running ffmpeg. */
  predicate ReachesTool(req: Request, env: Env) {
    InputValid(req, env) && OutputFor(req).Some? && !(env.outputExists && !req.overwrite) && env.mkdirOk
  }

  /** The decision flow of `convert_video`. */
  function Convert(req: Request, env: Env): (c: Conversion)
    ensures c.succeeded <==> c.reason.None?
    ensures c.succeeded <==>
      ReachesTool(req, env) && env.ffmpeg == Exited(0) && VerifyOutput(env.outputAfter, env.inputSize).passed
    ensures c.command.Some? <==> ReachesTool(req, env)
    ensures c.command.Some? ==> c.output == OutputFor(req) && c.command.value == FfmpegCommand(req.input, c.output.value, req.overwrite)
    ensures !env.inputExists ==> c.reason == Some(InputNotFound)
    ensures env.inputExists && !env.inputIsFile ==> c.reason == Some(InputNotAFile)
    ensures env.inputExists && env.inputIsFile && req.container !in Containers ==> c.reason == Some(UnsupportedContainer)
    ensures c.reason == Some(OutputExists) <==> InputValid(req, env) && OutputFor(req).Some? && env.outputExists && !req.overwrite
    ensures c.sizeWarning ==> c.succeeded
  {
    if !env.inputExists then Fail(InputNotFound, None, None)
    else if !env.inputIsFile then Fail(InputNotAFile, None, None)
    else if req.container !in Containers then Fail(UnsupportedContainer, None, None)
    else match OutputFor(req)
      case None => Fail(InvalidOutputName, None, None)
      case Some(out) =>
        if env.outputExists && !req.overwrite then Fail(OutputExists, Some(out), None)
        else if !env.mkdirOk then Fail(DirectoryError, Some(out), None)
        else
          var cmd := FfmpegCommand(req.input, out, req.overwrite);
          match env.ffmpeg
          case Raised => Fail(ToolRaised, Some(out), Some(cmd))
          case TimedOut => Fail(Timeout, Some(out), Some(cmd))
          case Exited(code) =>
            if code != 0 then Fail(ToolFailed(code), Some(out), Some(cmd))
            else
              var v := VerifyOutput(env.outputAfter, env.inputSize);
              if v.passed then Conversion(true, None, Some(out), Some(cmd), v.sizeWarning)
              else Fail(VerificationFailed, Some(out), Some(cmd))
  }

  /** Both containers give a one-dot suffix. */
  lemma ContainerSuffix(container: string)
    requires container in Containers
    ensures SimpleSuffix("." + container)
  {
    if container == "mkv" {
      assert "." + container == ".mkv";
      assert ".mkv"[1..] == "mkv";
    } else {
      assert "." + container == ".mp4";
      assert ".mp4"[1..] == "mp4";
    }
  }

  /** Without an explicit output, the output lies beside the input, keeps its stem and takes
      the container as its only suffix. */
  lemma DerivedOutput(req: Request)
    requires req.output.None? && req.container in Containers && Name(req.input) != ""
    ensures OutputFor(req).Some?
    ensures PathSuffix(OutputFor(req).value) == "." + req.container
    ensures Stem(Name(OutputFor(req).value)) == Stem(Name(req.input))
    ensures |OutputFor(req).value.parts| == |req.input.parts|
    ensures OutputFor(req).value.parts[..|req.input.parts| - 1] == req.input.parts[..|req.input.parts| - 1]
  {
    var suffix := "." + req.container;
    ContainerSuffix(req.container);
    WithSuffixSetsSuffix(req.input, suffix);
    RenamedLast(req.input, suffix);
  }

  /** A refused overwrite never runs ffmpeg. */
  lemma OverwriteRefusalRunsNothing(req: Request, env: Env)
    requires InputValid(req, env) && OutputFor(req).Some? && env.outputExists && !req.overwrite
    ensures !Convert(req, env).succeeded && Convert(req, env).command.None?
  {
  }

  // ---------------------------------------------------------------------------------------
  // Statistics of conversions

  /** A conversion that stopped at the overwrite check, which returns before the second
      statistics update. */
  predicate Refused(c: Conversion) {
    !c.succeeded && c.reason == Some(OutputExists)
  }

  /** The statistics after one `convert_video`, as written: the attempt-only update on entry,
      then one more update on every path except the refused overwrite. */
  function StatsAfterConversion(s: Stats, c: Conversion, elapsed: nat): (r: Stats)
    ensures r.attempted == s.attempted + 1
    ensures r.successful == s.successful + (if c.succeeded then 1 else 0)
    ensures r.failed == s.failed + (if c.succeeded || Refused(c) then 1 else 2)
    ensures r.processingTime == s.processingTime + (if Refused(c) then 0 else elapsed)
  {
    var started := AfterUpdate(s, true, false, 0);
    if Refused(c) then started else AfterUpdate(started, false, c.succeeded, elapsed)
  }

  /** One entry per `convert_video` call: what it decided and how long it took. */
  datatype Attempt = Attempt(conversion: Conversion, elapsed: nat)

  function AfterAttempts(s: Stats, attempts: seq<Attempt>): Stats {
    if |attempts| == 0 then s
    else
      var last := attempts[|attempts| - 1];
      StatsAfterConversion(AfterAttempts(s, attempts[..|attempts| - 1]), last.conversion, last.elapsed)
  }

  function Successes(attempts: seq<Attempt>): nat {
    if |attempts| == 0 then 0
    else Successes(attempts[..|attempts| - 1]) + (if attempts[|attempts| - 1].conversion.succeeded then 1 else 0)
  }

  function Refusals(attempts: seq<Attempt>): nat {
    if |attempts| == 0 then 0
    else Refusals(attempts[..|attempts| - 1]) + (if Refused(attempts[|attempts| - 1].conversion) then 1 else 0)
  }

  /** From fresh statistics, as written: every call is attempted, successes are counted once,
      and `failed` is twice the number of calls less the successes and the refusals. */
  lemma {:induction false} AsWrittenTotals(attempts: seq<Attempt>)
    ensures Successes(attempts) + Refusals(attempts) <= |attempts|
    ensures AfterAttempts(NoStats, attempts).attempted == |attempts|
    ensures AfterAttempts(NoStats, attempts).successful == Successes(attempts)
    ensures AfterAttempts(NoStats, attempts).failed == 2 * |attempts| - Successes(attempts) - Refusals(attempts)
  {
    if |attempts| > 0 { AsWrittenTotals(attempts[..|attempts| - 1]); }
  }

  /** As written, `attempted == successful + failed` holds after a run of calls only when every
      one of them was a refused overwrite. */
  lemma AsWrittenConservationOnlyWhenAllRefused(attempts: seq<Attempt>)
    ensures var s := AfterAttempts(NoStats, attempts);
      s.attempted == s.successful + s.failed <==> Refusals(attempts) == |attempts|
  {
    AsWrittenTotals(attempts);
  }

  /** A missing input, converted with fresh statistics, leaves `failed` at 2. */
  lemma MissingInputCountsTwoFailures(req: Request, env: Env)
    requires !env.inputExists
    ensures StatsAfterConversion(NoStats, Convert(req, env), env.elapsed).failed == 2
  {
  }

  /** The evidently intended update: the attempt-only call counts no outcome. */
  function IntendedAfterUpdate(s: Stats, attempted: bool, successful: bool, processingTime: nat): Stats {
    Stats(s.attempted + (if attempted then 1 else 0),
          s.successful + (if successful then 1 else 0),
          s.failed + (if successful || attempted then 0 else 1),
          s.processingTime + processingTime)
  }

  /** The statistics after one `convert_video` with the intended update, where the refused
      overwrite also records its outcome before returning False: every call that returns
      False counts exactly one failure. */
  function IntendedStatsAfterConversion(s: Stats, c: Conversion, elapsed: nat): (r: Stats)
    ensures r.attempted == s.attempted + 1
    ensures r.successful == s.successful + (if c.succeeded then 1 else 0)
    ensures r.failed == s.failed + (if c.succeeded then 0 else 1)
    ensures r.processingTime == s.processingTime + (if Refused(c) then 0 else elapsed)
  {
    var started := IntendedAfterUpdate(s, true, false, 0);
    IntendedAfterUpdate(started, false, c.succeeded, if Refused(c) then 0 else elapsed)
  }

  function IntendedAfterAttempts(s: Stats, attempts: seq<Attempt>): Stats {
    if |attempts| == 0 then s
    else
      var last := attempts[|attempts| - 1];
      IntendedStatsAfterConversion(IntendedAfterAttempts(s, attempts[..|attempts| - 1]), last.conversion, last.elapsed)
  }

  /** With the intended update a missing input counts one failure, as a caller of
      `get_stats` expects after one failed conversion. */
  lemma IntendedMissingInputCountsOneFailure(req: Request, env: Env)
    requires !env.inputExists
    ensures IntendedStatsAfterConversion(NoStats, Convert(req, env), env.elapsed).failed == 1
  {
  }

  /** With the intended update every call is attempted once and ends as exactly one success
      or one failure: `attempted == successful + failed`, whatever the calls returned. */
  lemma {:induction false} IntendedConservation(attempts: seq<Attempt>)
    ensures var s := IntendedAfterAttempts(NoStats, attempts);
      s.attempted == |attempts| &&
      s.successful == Successes(attempts) &&
      s.attempted == s.successful + s.failed
  {
    if |attempts| > 0 {
      IntendedConservation(attempts[..|attempts| - 1]);
    }
  }

  // ---------------------------------------------------------------------------------------
  // The converter object

  class VideoConverter {
    var attempted: nat
    var successful: nat
    var failed: nat
    var processingTime: nat

    function Snapshot(): Stats
      reads this
    {
      Stats(attempted, successful, failed, processingTime)
    }

    constructor ()
      ensures Snapshot() == NoStats
    {
      attempted, successful, failed, processingTime := 0, 0, 0, 0;
    }

    /** `_update_stats`. */
    method UpdateStats(attempted: bool, successful: bool, processingTime: nat)
      modifies this
      ensures Snapshot() == AfterUpdate(old(Snapshot()), attempted, successful, processingTime)
    {
      if attempted {
        this.attempted := this.attempted + 1;
      }
      if successful {
        this.successful := this.successful + 1;
      } else {
        this.failed := this.failed + 1;
      }
      this.processingTime := this.processingTime + processingTime;
    }

    /** `get_stats`: a copy, which the caller can change without touching the converter. */
    method GetStats() returns (s: Stats)
      ensures s == Snapshot()
    {
      s := Stats(attempted, successful, failed, processingTime);
    }

    /** `convert_video`: returns its result and the command it ran, if any, and updates the
        statistics as `convert_video` does. */
    method ConvertVideo(req: Request, env: Env) returns (ok: bool, command: Option<seq<string>>)
      modifies this
      ensures ok == Convert(req, env).succeeded
      ensures command == Convert(req, env).command
      ensures Snapshot() == StatsAfterConversion(old(Snapshot()), Convert(req, env), env.elapsed)
    {
      UpdateStats(true, false, 0);
      ok, command := false, None;
      if !env.inputExists || !env.inputIsFile || req.container !in Containers {
        UpdateStats(false, false, env.elapsed);
        return;
      }
      var output := if req.output.Some? then req.output else WithSuffix(req.input, "." + req.container);
      if output.None? {
        UpdateStats(false, false, env.elapsed);
        return;
      }
      if env.outputExists && !req.overwrite {
        return;
      }
      if !env.mkdirOk {
        UpdateStats(false, false, env.elapsed);
        return;
      }
      var cmd := BuildCommand(req.input, output.value, req.overwrite);
      command := Some(cmd);
      match env.ffmpeg {
        case Exited(code) =>
          if code == 0 {
            var v := VerifyOutput(env.outputAfter, env.inputSize);
            ok := v.passed;
          }
          UpdateStats(false, ok, env.elapsed);
        case TimedOut =>
          UpdateStats(false, false, env.elapsed);
        case Raised =>
          UpdateStats(false, false, env.elapsed);
      }
    }
  }
}
