/** The ffprobe and ffmpeg adapters of video.go, after the subprocess has run.
    The subprocess outcome, the JSON decoding of ffprobe's report and the
    file-system state after ffmpeg are inputs; what is modelled is what the
    adapters decide from them. */
module VideoTools {
  import opened Wrappers

  /** One entry of ffprobe's `streams` array; only `display_aspect_ratio` is read. */
  datatype Stream = Stream(displayAspectRatio: string)

  /** ffprobe's JSON report, as decoded into the Go struct. */
  datatype FFProbeOutput = FFProbeOutput(streams: seq<Stream>)

  /** Why an adapter returned a non-nil error. */
  datatype ToolError =
    | CommandFailed    // the subprocess could not start or exited non-zero
    | ReportMalformed  // ffprobe's standard output did not decode as a report
    | OutputMissing    // ffmpeg reported success but its output file is not there

  /** Go's `(value, error)` pair: `err` is None exactly when Go's error is nil. */
  datatype Returned<T> = Returned(value: T, err: Option<ToolError>)

  /** What running `ffprobe -v error -print_format json -show_streams <path>`
      produced: whether it exited zero, and the decoding of its standard
      output (None when the JSON does not decode). */
  datatype ProbeRun = ProbeRun(exitedOk: bool, report: Option<FFProbeOutput>)

  /** What running `ffmpeg -i <in> -c copy -movflags faststart -f mp4 <out>`
      produced: whether it exited zero, and the set of paths that exist after it. */
  datatype RemuxRun = RemuxRun(exitedOk: bool, existingPaths: set<string>)

  /** `getVideoAspectRatio`: the display aspect ratio of the first stream of
      the report, "" when the report lists no stream; an error (and "") when
      ffprobe fails or its report is malformed. */
  function GetVideoAspectRatio(run: ProbeRun): (r: Returned<string>)
    ensures !run.exitedOk ==> r == Returned("", Some(CommandFailed))
    ensures run.exitedOk && run.report.None? ==> r == Returned("", Some(ReportMalformed))
    ensures r.err.None? <==> run.exitedOk && run.report.Some?
    ensures r.err.None? && run.report.value.streams == [] ==> r.value == ""
    ensures r.err.None? && run.report.value.streams != [] ==>
              r.value == run.report.value.streams[0].displayAspectRatio
  {
    if !run.exitedOk then Returned("", Some(CommandFailed))
    else match run.report
      case None => Returned("", Some(ReportMalformed))
      case Some(report) =>
        if |report.streams| == 0 then Returned("", None)
        else Returned(report.streams[0].displayAspectRatio, None)
  }

  /** Only the first stream counts: whatever follows it, the ratio is the same. */
  lemma AspectRatioIgnoresLaterStreams(first: Stream, rest1: seq<Stream>, rest2: seq<Stream>)
    ensures GetVideoAspectRatio(ProbeRun(true, Some(FFProbeOutput([first] + rest1))))
         == GetVideoAspectRatio(ProbeRun(true, Some(FFProbeOutput([first] + rest2))))
         == Returned(first.displayAspectRatio, None)
  {
  }

  const ProcessingSuffix: string := ".processing"

  /** The path ffmpeg writes the fast-start copy to: the input path with
      ".processing" appended. */
  function FastStartOutputPath(input: string): (out: string)
    ensures |out| == |input| + |ProcessingSuffix|
    ensures out[..|input|] == input && out[|input|..] == ProcessingSuffix
    ensures out != input
  {
    input + ProcessingSuffix
  }

  /** Distinct inputs never share an output path, so the derivation can be
      inverted by dropping the suffix. */
  lemma FastStartOutputPathInjective(a: string, b: string)
    requires FastStartOutputPath(a) == FastStartOutputPath(b)
    ensures a == b
  {

  }

  /** `processVideoForFastStart`: the output path when ffmpeg exited zero and
      the output path exists afterwards; otherwise an error and "". A zero
      exit alone is not trusted, but existence is all that is checked. */
  function ProcessVideoForFastStart(input: string, run: RemuxRun): (r: Returned<string>)
    ensures r.err.None? <==> run.exitedOk && FastStartOutputPath(input) in run.existingPaths
    ensures r.err.None? ==> r.value == FastStartOutputPath(input) && r.value != input
    ensures r.err.Some? ==> r.value == ""
    ensures !run.exitedOk ==> r.err == Some(CommandFailed)
    ensures run.exitedOk && FastStartOutputPath(input) !in run.existingPaths ==> r.err == Some(OutputMissing)
  {
    var output := FastStartOutputPath(input);
    if !run.exitedOk then Returned("", Some(CommandFailed))
    else if output !in run.existingPaths then Returned("", Some(OutputMissing))
    else Returned(output, None)
  }
}
