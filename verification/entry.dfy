/** The log record and its builder operations (entry.go). */
module Entries {
  import opened Wrappers
  import opened Text
  import opened Levels

  /** A context value. Go allows `any`; the model keeps the cases the formatters tell apart.
      `Bytes` carries the text `string(b)` decodes to; `Opaque` stands for every other Go value
      and carries its `%v` rendering and the rendering the Slack formatter gives it. */
  datatype Value =
    | Str(s: string)
    | Int(i: int)
    | Bool(b: bool)
    | Bytes(text: string)
    | Opaque(plain: string, slack: string)

  type Context = map<string, Value>

  datatype ExceptionInfo = ExceptionInfo(
    className: string,
    message: string,
    code: int,
    file: string,
    line: int,
    trace: seq<string>)

  /** `timestamp` is the instant as Unix seconds; `exception` is the nil-able pointer. */
  datatype Entry = Entry(
    message: string,
    level: Level,
    timestamp: int,
    context: Context,
    exception: Option<ExceptionInfo>,
    channel: string)

  /** A non-nil Go error: its dynamic type name as `%T` prints it, and its `Error()` text. */
  datatype GoError = GoError(typeName: string, message: string)

  /** One frame reported by `runtime.CallersFrames`. */
  datatype Frame = Frame(file: string, line: int, funcName: string)

  /** What the Go runtime reports at a `WithError` call: the frames above it and the
      `runtime.Caller(1)` position, when available. */
  datatype CallSite = CallSite(frames: seq<Frame>, caller: Option<(string, int)>)

  /** The overlay every context merge in the library performs: `top`'s keys win, every other
      key of `base` keeps its value. */
  function Overlay(base: Context, top: Context): (r: Context)
    ensures r.Keys == base.Keys + top.Keys
    ensures forall k :: k in top ==> r[k] == top[k]
    ensures forall k :: k in base && k !in top ==> r[k] == base[k]
  {
    base + top
  }

  /** `NewEntry`: the clock reading is a parameter. */
  function NewEntry(level: Level, message: string, now: int): (e: Entry)
    ensures e.message == message && e.level == level && e.timestamp == now
    ensures |e.context| == 0 && e.exception.None? && e.channel == ""
  {
    Entry(message, level, now, map[], None, "")
  }

  /** `Entry.WithContext`: the given keys win, the others and every other field are unchanged. */
  function WithContext(e: Entry, ctx: Context): (r: Entry)
    ensures r == e.(context := r.context)
    ensures r.context.Keys == e.context.Keys + ctx.Keys
    ensures forall k :: k in ctx ==> r.context[k] == ctx[k]
    ensures forall k :: k in e.context && k !in ctx ==> r.context[k] == e.context[k]
  {
    e.(context := Overlay(e.context, ctx))
  }

  /** `Entry.With`: exactly `key` is (re)bound. */
  function With(e: Entry, key: string, value: Value): (r: Entry)
    ensures r == e.(context := r.context)
    ensures r.context.Keys == e.context.Keys + {key}
    ensures r.context[key] == value
    ensures forall k :: k in e.context && k != key ==> r.context[k] == e.context[k]
  {
    e.(context := e.context[key := value])
  }

  /** `getErrorType`: the `%T` name with one leading '*' removed. */
  function ErrorClass(f: GoError): (r: string)
    ensures "*" <= f.typeName ==> "*" + r == f.typeName
    ensures !("*" <= f.typeName) ==> r == f.typeName
  {
    if |f.typeName| > 0 && f.typeName[0] == '*' then f.typeName[1..] else f.typeName
  }

  /** `Entry.WithError`: a nil error leaves the entry as it is; otherwise the exception is
      replaced by the error's class and text, the filtered trace and the caller position. */
  function WithError(e: Entry, err: Option<GoError>, site: CallSite): (r: Entry)
    ensures err.None? ==> r == e
    ensures err.Some? ==> r == e.(exception := r.exception) && r.exception.Some?
    ensures err.Some? ==> (
      && r.exception.value.message == err.value.message
      && r.exception.value.className == ErrorClass(err.value)
      && r.exception.value.code == 0
      && r.exception.value.trace == KeptTrace(site.frames))
    ensures err.Some? && site.caller.Some? ==>
      r.exception.value.file == site.caller.value.0 && r.exception.value.line == site.caller.value.1
    ensures err.Some? && site.caller.None? ==>
      r.exception.value.file == "" && r.exception.value.line == 0
  {
    match err
    case None => e
    case Some(f) =>
      var (file, line) := if site.caller.Some? then site.caller.value else ("", 0);
      e.(exception := Some(ExceptionInfo(ErrorClass(f), f.message, 0, file, line, KeptTrace(site.frames))))
  }

  /** `Entry.WithException`: every argument is stored verbatim and nothing else changes. */
  function WithException(e: Entry, className: string, message: string, code: int, file: string, line: int,
                         trace: seq<string>): (r: Entry)
    ensures r.message == e.message && r.level == e.level && r.timestamp == e.timestamp
    ensures r.context == e.context && r.channel == e.channel
    ensures r.exception.Some?
    ensures var x := r.exception.value;
      x.className == className && x.message == message && x.code == code && x.file == file
      && x.line == line && x.trace == trace
  {
    e.(exception := Some(ExceptionInfo(className, message, code, file, line, trace)))
  }

  /** `Entry.SetChannel`: only the channel changes. */
  function SetChannel(e: Entry, channel: string): (r: Entry)
    ensures r.channel == channel
    ensures r.message == e.message && r.level == e.level && r.timestamp == e.timestamp
    ensures r.context == e.context && r.exception == e.exception
  {
    e.(channel := channel)
  }

  /** Frames of the Go runtime itself are dropped from traces. */
  predicate IsRuntimeFrame(f: Frame) {
    Contains(f.file, "runtime/")
  }

  /** `"%s:%d (%s)"` of a frame. */
  function FrameText(f: Frame): string {
    f.file + ":" + IntToDecimal(f.line) + " (" + f.funcName + ")"
  }

  const MaxTrace := 20

  /** `CallersFrames` over no program counters still yields one zero frame before stopping. */
  function Walked(frames: seq<Frame>): (r: seq<Frame>)
    ensures |r| > 0
    ensures frames == [] ==> r == [Frame("", 0, "")]
    ensures frames != [] ==> r == frames
  {
    if frames == [] then [Frame("", 0, "")] else frames
  }

  /** The rendered frames that are not runtime frames, in order. */
  function Unfiltered(frames: seq<Frame>): (r: seq<string>)
    ensures |r| <= |frames|
    ensures forall t :: t in r ==> exists f :: f in frames && !IsRuntimeFrame(f) && t == FrameText(f)
  {
    if frames == [] then []
    else if IsRuntimeFrame(frames[0]) then Unfiltered(frames[1..])
    else [FrameText(frames[0])] + Unfiltered(frames[1..])
  }

  /** Reference for `captureStackTrace`: the first 20 non-runtime frames. */
  function KeptTrace(frames: seq<Frame>): (r: seq<string>)
  {
    var all := Unfiltered(Walked(frames));
    if |all| <= MaxTrace then all else all[..MaxTrace]
  }

  /** The captured trace is capped at 20 entries and holds only rendered non-runtime frames. */
  lemma KeptTraceBounds(frames: seq<Frame>)
    ensures |KeptTrace(frames)| <= MaxTrace
    ensures forall t :: t in KeptTrace(frames) ==>
      exists f :: f in Walked(frames) && !IsRuntimeFrame(f) && t == FrameText(f)
  {
    var all := Unfiltered(Walked(frames));
    assert forall t :: t in KeptTrace(frames) ==> t in all;
  }

  lemma {:induction false} UnfilteredAppend(a: seq<Frame>, f: Frame)
    ensures Unfiltered(a + [f]) == Unfiltered(a) + (if IsRuntimeFrame(f) then [] else [FrameText(f)])
    decreases |a|
  {
    if a == [] {
      assert a + [f] == [f];
    } else {
      assert (a + [f])[0] == a[0];
      assert (a + [f])[1..] == a[1..] + [f];
      UnfilteredAppend(a[1..], f);
    }
  }

  lemma {:induction false} UnfilteredPrefixGrows(frames: seq<Frame>, i: nat, j: nat)
    requires i <= j <= |frames|
    ensures Unfiltered(frames[..i]) <= Unfiltered(frames[..j])
    decreases j - i
  {
    if i < j {
      UnfilteredPrefixGrows(frames, i, j - 1);
      assert frames[..j] == frames[..j - 1] + [frames[j - 1]];
      UnfilteredAppend(frames[..j - 1], frames[j - 1]);
    }
  }

  /** `captureStackTrace` over the frames the runtime reports: the Go loop, with its two
      exits (no more frames, or 20 kept), proved equal to the reference. */
  method CaptureStackTrace(frames: seq<Frame>) returns (trace: seq<string>)
    ensures trace == KeptTrace(frames)
    ensures |trace| <= MaxTrace
  {
    var walk := Walked(frames);
    trace := [];
    var i := 0;
    while true
      invariant 0 <= i < |walk|
      invariant trace == Unfiltered(walk[..i])
      invariant |trace| < MaxTrace || i == 0
      invariant |trace| <= MaxTrace
      decreases |walk| - i
    {
      var frame := walk[i];
      assert walk[..i + 1] == walk[..i] + [frame];
      UnfilteredAppend(walk[..i], frame);
      if !IsRuntimeFrame(frame) {
        trace := trace + [FrameText(frame)];
      }
      var more := i + 1 < |walk|;
      if !more {
        assert walk[..i + 1] == walk;
        break;
      }
      if |trace| >= MaxTrace {
        UnfilteredPrefixGrows(walk, i + 1, |walk|);
        assert walk[..|walk|] == walk;
        assert Unfiltered(walk)[..MaxTrace] == trace;
        break;
      }
      i := i + 1;
    }
  }

  /** `ContextJSON`: the encoder's text for a non-empty context, "" for an empty one.
      `encode` stands for `json.MarshalIndent` with its `%v` fallback, neither of which is empty. */
  function ContextJson(e: Entry, encode: Context -> NonEmptyString): (r: string)
    ensures r == "" <==> |e.context| == 0
  {
    if |e.context| == 0 then "" else encode(e.context)
  }

  /** `ExceptionJSON`: the encoder's text for an attached exception, "" for none. */
  function ExceptionJson(e: Entry, encode: ExceptionInfo -> NonEmptyString): (r: string)
    ensures r == "" <==> e.exception.None?
  {
    if e.exception.None? then "" else encode(e.exception.value)
  }

  /** `keys` lists every key of the set exactly once: one possible map iteration order. */
  predicate Enumerates(keys: seq<string>, s: set<string>) {
    && (forall i, j :: 0 <= i < j < |keys| ==> keys[i] != keys[j])
    && (forall i :: 0 <= i < |keys| ==> keys[i] in s)
    && (forall k :: k in s ==> k in keys)
  }

  /** An enumeration of a set is exactly as long as the set is large. */
  lemma {:induction false} EnumerationSize(keys: seq<string>, s: set<string>)
    requires Enumerates(keys, s)
    ensures |keys| == |s|
    decreases |keys|
  {
    if keys != [] {
      var k := keys[0];
      var rest := keys[1..];
      assert Enumerates(rest, s - {k}) by {
        forall k' | k' in s - {k} ensures k' in rest {
          var i :| 0 <= i < |keys| && keys[i] == k';
          assert i != 0;
          assert rest[i - 1] == k';
        }
        forall i | 0 <= i < |rest| ensures rest[i] in s - {k} {
          assert rest[i] == keys[i + 1];
        }
      }
      EnumerationSize(rest, s - {k});
    } else {
      assert forall k :: k !in s;
      assert s == {};
    }
  }
}
