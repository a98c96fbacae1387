/** The file driver's construction rules and its text rendering of an entry (file_driver.go). */
module FileDrivers {
  import opened Wrappers
  import opened Text
  import opened Levels
  import opened Configs
  import opened Entries

  /** A constructed file driver: the file it appends to and the layout of its timestamps. */
  datatype FileDriver = FileDriver(path: string, dateFormat: string)

  /** What the operating system answers to `os.MkdirAll` on the directory and then
      `os.OpenFile` on the path. */
  datatype OpenOutcome = Opened | MkdirFailed(err: string) | OpenFailed(err: string)

  function EffectivePath(fc: FileConfig): string {
    if fc.path == "" then DefaultPath else fc.path
  }

  function EffectiveDateFormat(fc: FileConfig): string {
    if fc.dateFormat == "" then DefaultDateFormat else fc.dateFormat
  }

  /** `NewFileDriver`: a nil FileConfig is an error; an empty path or date format takes its
      default; the driver exists only if the directory and file could be opened. */
  function NewFileDriver(cfg: ChannelConfig, open: string -> OpenOutcome): (r: Result<FileDriver, string>)
    ensures cfg.file.None? ==> r == Failure("file configuration is required")
    ensures cfg.file.Some? ==> (r.Success? <==> open(EffectivePath(cfg.file.value)).Opened?)
    ensures r.Success? ==> r.value.path != "" && r.value.dateFormat != ""
    ensures r.Success? ==> (
      && cfg.file.Some?
      && (cfg.file.value.path != "" ==> r.value.path == cfg.file.value.path)
      && (cfg.file.value.path == "" ==> r.value.path == DefaultPath)
      && (cfg.file.value.dateFormat != "" ==> r.value.dateFormat == cfg.file.value.dateFormat)
      && (cfg.file.value.dateFormat == "" ==> r.value.dateFormat == DefaultDateFormat))
  {
    match cfg.file
    case None => Failure("file configuration is required")
    case Some(fc) =>
      var path := EffectivePath(fc);
      match open(path)
      case MkdirFailed(err) => Failure("failed to create log directory: " + err)
      case OpenFailed(err) => Failure("failed to open log file: " + err)
      case Opened => Success(FileDriver(path, EffectiveDateFormat(fc)))
  }

  /** `FileDriver.Name`. */
  function Name(d: FileDriver): (r: string)
    ensures r == "file"
  {
    "file"
  }

  /** `formatValue`: strings and byte slices verbatim, everything else as `%v` prints it. */
  function FormatValue(v: Value): (r: string)
    ensures v.Str? ==> r == v.s
    ensures v.Bytes? ==> r == v.text
    ensures v.Int? ==> r == IntToDecimal(v.i)
    ensures v.Bool? ==> (r == "true" <==> v.b) && (r == "false" <==> !v.b)
  {
    match v
    case Str(s) => s
    case Bytes(t) => t
    case Int(i) => IntToDecimal(i)
    case Bool(b) => if b then "true" else "false"
    case Opaque(p, _) => p
  }

  function Concat(parts: seq<string>): string {
    if parts == [] then "" else parts[0] + Concat(parts[1..])
  }

  /** The channel shown in a record: the entry's, or "local" when it has none. */
  function ChannelLabel(channel: string): (r: string)
    ensures r != ""
    ensures channel != "" ==> r == channel
    ensures channel == "" ==> r == "local"
  {
    if channel == "" then "local" else channel
  }

  /** `[ts] channel.LEVEL: message`; `stamp` is the timestamp already laid out by `time.Format`. */
  function Header(e: Entry, stamp: string): string {
    "[" + stamp + "] " + ChannelLabel(e.channel) + "." + Levels.Name(e.level) + ": " + e.message
  }

  /** One context line; the key is printed as it is. */
  function ContextLine(key: string, v: Value): string {
    "  " + key + ": " + FormatValue(v) + "\n"
  }

  /** The context lines, in the iteration order `keys` (Go's map order is unspecified). */
  function ContextLines(ctx: Context, keys: seq<string>): (lines: seq<string>)
    ensures |lines| <= |keys|
  {
    if keys == [] then []
    else (if keys[0] in ctx then [ContextLine(keys[0], ctx[keys[0]])] else []) + ContextLines(ctx, keys[1..])
  }

  function ContextBlock(ctx: Context, keys: seq<string>): string {
    if |ctx| > 0 then "\n" + Concat(ContextLines(ctx, keys)) else ""
  }

  const TraceShown := 11

  function TraceLine(i: nat, t: string): string {
    "      #" + NatToDecimal(i) + " " + t + "\n"
  }

  function TraceSummary(more: int): string {
    "      ... and " + IntToDecimal(more) + " more\n"
  }

  /** Reference for the trace loop: the first 11 frames numbered from #0, then, when the
      eleventh frame was printed, a summary counting `len - 10` more. */
  function TraceLines(trace: seq<string>): seq<string> {
    var shown := if |trace| < TraceShown then |trace| else TraceShown;
    seq(shown, i requires 0 <= i < shown => TraceLine(i, trace[i]))
      + (if |trace| >= TraceShown then [TraceSummary(|trace| - 10)] else [])
  }

  /** The trace loop of `format`, with its `break` after index 10. */
  method PrintTrace(trace: seq<string>) returns (lines: seq<string>)
    ensures lines == TraceLines(trace)
  {
    lines := [];
    var i := 0;
    while i < |trace|
      invariant 0 <= i <= |trace| && i <= TraceShown
      invariant lines == seq(i, j requires 0 <= j < i => TraceLine(j, trace[j]))
      invariant i == TraceShown ==> false
    {
      lines := lines + [TraceLine(i, trace[i])];
      if i >= 10 {
        lines := lines + [TraceSummary(|trace| - 10)];
        return;
      }
      i := i + 1;
    }
  }

  /** The exception block: Class and Message always, Code when non-zero, File:Line when a
      file is known, and the numbered trace when there is one. */
  function ExceptionLines(x: ExceptionInfo): seq<string> {
    ["\n  Exception:\n",
     "    Class: " + x.className + "\n",
     "    Message: " + x.message + "\n"]
    + (if x.code != 0 then ["    Code: " + IntToDecimal(x.code) + "\n"] else [])
    + (if x.file != "" then ["    File: " + x.file + ":" + IntToDecimal(x.line) + "\n"] else [])
    + (if |x.trace| > 0 then ["    Trace:\n"] + TraceLines(x.trace) else [])
  }

  function ExceptionBlock(e: Entry): string {
    if e.exception.Some? then Concat(ExceptionLines(e.exception.value)) else ""
  }

  /** `FileDriver.format`: header, context block, exception block and the closing newline. */
  function Format(e: Entry, stamp: string, keys: seq<string>): string {
    Header(e, stamp) + ContextBlock(e.context, keys) + ExceptionBlock(e) + "\n"
  }

  /** A record starts with its header and ends with a newline. */
  lemma FormatFrame(e: Entry, stamp: string, keys: seq<string>)
    ensures Header(e, stamp) <= Format(e, stamp, keys)
    ensures var f := Format(e, stamp, keys); |f| > 0 && f[|f| - 1] == '\n'
    ensures ("[" + stamp + "] " + ChannelLabel(e.channel) + "." + Levels.Name(e.level) + ": ") <= Format(e, stamp, keys)
  {
    var h := Header(e, stamp);
    var rest := ContextBlock(e.context, keys) + ExceptionBlock(e) + "\n";
    assert Format(e, stamp, keys) == h + rest;
    var p := "[" + stamp + "] " + ChannelLabel(e.channel) + "." + Levels.Name(e.level) + ": ";
    assert h == p + e.message;
    assert (h + rest)[..|h|] == h;
    assert (p + e.message)[..|p|] == p;
  }

  /** The context block is present exactly when the context is non-empty. */
  lemma ContextBlockPresence(ctx: Context, keys: seq<string>)
    ensures ContextBlock(ctx, keys) == "" <==> |ctx| == 0
  {
  }

  /** Under a map iteration order, there is exactly one line per context entry, in that order,
      each printing its key verbatim; so the set of lines is the set of the entries' lines. */
  lemma {:induction false} ContextLinesPerEntry(ctx: Context, keys: seq<string>)
    requires Enumerates(keys, ctx.Keys)
    ensures |ContextLines(ctx, keys)| == |keys| == |ctx|
    ensures forall i :: 0 <= i < |keys| ==> ContextLines(ctx, keys)[i] == ContextLine(keys[i], ctx[keys[i]])
    ensures forall k :: k in ctx ==> ContextLine(k, ctx[k]) in ContextLines(ctx, keys)
  {
    LinesOfListedKeys(ctx, keys);
    var s := set k | k in keys;
    EnumerationSize(keys, ctx.Keys);
  }

  lemma {:induction false} LinesOfListedKeys(ctx: Context, keys: seq<string>)
    requires forall i :: 0 <= i < |keys| ==> keys[i] in ctx
    ensures |ContextLines(ctx, keys)| == |keys|
    ensures forall i :: 0 <= i < |keys| ==> ContextLines(ctx, keys)[i] == ContextLine(keys[i], ctx[keys[i]])
    decreases |keys|
  {
    if keys != [] {
      LinesOfListedKeys(ctx, keys[1..]);
    }
  }

  /** Class and Message are always printed; Code exactly when non-zero; File:Line exactly when
      a file is known. */
  lemma ExceptionFields(x: ExceptionInfo)
    ensures "    Class: " + x.className + "\n" in ExceptionLines(x)
    ensures "    Message: " + x.message + "\n" in ExceptionLines(x)
    ensures x.code != 0 ==> "    Code: " + IntToDecimal(x.code) + "\n" in ExceptionLines(x)
    ensures x.code == 0 ==> forall l :: l in ExceptionLines(x) ==> !("    Code: " <= l)
    ensures x.file != "" ==> "    File: " + x.file + ":" + IntToDecimal(x.line) + "\n" in ExceptionLines(x)
    ensures x.file == "" ==> forall l :: l in ExceptionLines(x) ==> !("    File: " <= l)
  {
    var fixed := ["\n  Exception:\n", "    Class: " + x.className + "\n", "    Message: " + x.message + "\n"];
    var codePart := if x.code != 0 then ["    Code: " + IntToDecimal(x.code) + "\n"] else [];
    var filePart := if x.file != "" then ["    File: " + x.file + ":" + IntToDecimal(x.line) + "\n"] else [];
    var tracePart := if |x.trace| > 0 then ["    Trace:\n"] + TraceLines(x.trace) else [];
    var lines := ExceptionLines(x);
    assert lines == fixed + codePart + filePart + tracePart;
    forall l | l in lines
      ensures x.code == 0 ==> !("    Code: " <= l)
      ensures x.file == "" ==> !("    File: " <= l)
    {
      if l in fixed {
        assert l[0] == '\n' || l[5] == 'l' || l[4] == 'M';
      } else if l in codePart {
        assert l[4] == 'C' && l[5] == 'o';
      } else if l in filePart {
        assert l[4] == 'F';
      } else {
        assert l in tracePart;
        if l == "    Trace:\n" {
          assert l[4] == 'T';
        } else {
          TraceLinesIndented(x.trace);
          IndentedIsUnlabelled(l);
        }
      }
    }
  }

  /** Every trace line is indented by six spaces and has text after them. */
  lemma TraceLinesIndented(trace: seq<string>)
    ensures forall l :: l in TraceLines(trace) ==> |l| > 6 && "      " <= l
  {
    forall l | l in TraceLines(trace) ensures |l| > 6 && "      " <= l {
      var j :| 0 <= j < |TraceLines(trace)| && TraceLines(trace)[j] == l;
      TraceLineIndented(trace, j);
    }
  }

  lemma TraceLineIndented(trace: seq<string>, j: nat)
    requires j < |TraceLines(trace)|
    ensures |TraceLines(trace)[j]| > 6 && "      " <= TraceLines(trace)[j]
  {
    var shown := if |trace| < TraceShown then |trace| else TraceShown;
    if j < shown {
      assert TraceLines(trace)[j] == TraceLine(j, trace[j]);
      FrameLineIndented(j, trace[j]);
    } else {
      assert TraceLines(trace)[j] == TraceSummary(|trace| - 10);
      SummaryIndented(|trace| - 10);
    }
  }

  lemma FrameLineIndented(i: nat, t: string)
    ensures |TraceLine(i, t)| > 6 && "      " <= TraceLine(i, t)
  {
    assert TraceLine(i, t) == "      " + ("#" + NatToDecimal(i) + " " + t + "\n");
  }

  lemma SummaryIndented(more: int)
    ensures |TraceSummary(more)| > 6 && "      " <= TraceSummary(more)
  {
    assert TraceSummary(more) == "      " + ("... and " + IntToDecimal(more) + " more\n");
  }

  /** A line indented by six spaces carries neither the Code nor the File label. */
  lemma IndentedIsUnlabelled(l: string)
    requires "      " <= l
    ensures !("    Code: " <= l) && !("    File: " <= l)
  {
    assert l[4] == ' ';
  }

  /** A trace of at most ten frames is printed in full with no summary. */
  lemma ShortTrace(trace: seq<string>)
    requires |trace| <= 10
    ensures |TraceLines(trace)| == |trace|
    ensures forall i :: 0 <= i < |trace| ==> TraceLines(trace)[i] == TraceLine(i, trace[i])
  {
  }

  /** A trace of eleven or more frames prints exactly #0..#10 and then "... and (len-10) more". */
  lemma LongTrace(trace: seq<string>)
    requires |trace| >= TraceShown
    ensures |TraceLines(trace)| == TraceShown + 1
    ensures forall i :: 0 <= i < TraceShown ==> TraceLines(trace)[i] == TraceLine(i, trace[i])
    ensures TraceLines(trace)[TraceShown] == TraceSummary(|trace| - 10)
  {
  }

  /** As written, the summary counts one frame too many: the frames printed plus the frames it
      says remain add up to one more than the trace holds (11 frames: all 11 printed, "1 more"). */
  lemma TraceSummaryCount(trace: seq<string>)
    requires |trace| >= TraceShown
    ensures var lines := TraceLines(trace);
      && lines[|lines| - 1] == TraceSummary(|trace| - 10)
      && (|lines| - 1) + (|trace| - 10) == |trace| + 1
    ensures |trace| == TraceShown ==> TraceLines(trace)[TraceShown] == TraceSummary(1)
  {
  }
}
