/** The Driver interface as a datatype, the factory registry and the dispatch of
    `Log`/`Close` over the driver kinds (driver.go, with the StackDriver of manager.go). */
module Drivers {
  import opened Wrappers
  import opened Text
  import opened Configs
  import opened Entries
  import opened FileDrivers
  import opened SlackDrivers

  /** Every driver the library can hold. Members of a stack are drivers themselves. */
  datatype Driver =
    | File(file: FileDriver)
    | Slack(slack: SlackDriver)
    | Custom(kind: string, name: string)
    | Stack(members: seq<Driver>, ignoreExceptions: bool)

  /** `Driver.Name`. */
  function Name(d: Driver): (r: string)
    ensures d.File? ==> r == "file"
    ensures d.Slack? ==> r == "slack"
    ensures d.Stack? ==> r == "stack"
    ensures d.Custom? ==> r == d.name
  {
    match d
    case File(f) => FileDrivers.Name(f)
    case Slack(s) => SlackDrivers.Name(s)
    case Custom(_, n) => n
    case Stack(_, _) => "stack"
  }

  /** A `DriverFactory`: the two built-in constructors, or a custom one registered under `kind`. */
  datatype Factory = FileFactory | SlackFactory | CustomFactory(kind: string)

  /** The `driverFactories` map. */
  type Registry = map<string, Factory>

  const InitialRegistry: Registry := map["file" := FileFactory, "slack" := SlackFactory]

  /** `RegisterDriver`: binds `name` to `f`, replacing any earlier binding. */
  function RegisterDriver(reg: Registry, name: string, f: Factory): (r: Registry)
    ensures r.Keys == reg.Keys + {name}
    ensures r[name] == f
    ensures forall n :: n in reg && n != name ==> r[n] == reg[n]
  {
    reg[name := f]
  }

  /** `GetDriverFactory`: found exactly when the name is registered. */
  function GetDriverFactory(reg: Registry, name: string): (r: Option<Factory>)
    ensures r.Some? <==> name in reg
    ensures r.Some? ==> r.value == reg[name]
  {
    if name in reg then Some(reg[name]) else None
  }

  /** The seeded registry knows exactly "file" and "slack"; in particular "stack" is not a
      registered kind. */
  lemma InitialRegistryContents()
    ensures InitialRegistry.Keys == {"file", "slack"}
    ensures GetDriverFactory(InitialRegistry, "file") == Some(FileFactory)
    ensures GetDriverFactory(InitialRegistry, "slack") == Some(SlackFactory)
    ensures GetDriverFactory(InitialRegistry, "stack").None?
    ensures forall n :: n != "file" && n != "slack" ==> GetDriverFactory(InitialRegistry, n).None?
  {
  }

  /** Registering twice under one name: the later factory is the one found, and names other than
      the registered one keep their lookups. */
  lemma RegisterLastWins(reg: Registry, name: string, f1: Factory, f2: Factory, other: string)
    requires other != name
    ensures GetDriverFactory(RegisterDriver(RegisterDriver(reg, name, f1), name, f2), name) == Some(f2)
    ensures GetDriverFactory(RegisterDriver(reg, name, f1), other) == GetDriverFactory(reg, other)
  {
  }

  /** Everything the drivers depend on that the model does not compute: the order in which Go
      happens to iterate a map's keys, `time.Format`, the JSON encoder, the operating system's
      answer to opening a log file, the result of each custom factory, and whether each
      `Log`/`Close` call on a driver succeeds (disk writes, HTTP round trips, custom code). */
  datatype World = World(
    keyOrder: set<string> -> seq<string>,
    stamp: (int, string) -> string,
    encodeException: ExceptionInfo -> NonEmptyString,
    open: string -> OpenOutcome,
    custom: (string, ChannelConfig) -> Result<string, string>,
    logOutcome: (Driver, Entry) -> Option<string>,
    closeOutcome: Driver -> Option<string>)

  /** Go's `range` over a map visits every key exactly once, in some order: the key order a
      world reports for a set of keys lists that set. */
  ghost predicate RangesOverMaps(w: World) {
    forall keys: set<string> :: Enumerates(w.keyOrder(keys), keys)
  }

  /** Calling a factory on a channel configuration. */
  function Build(f: Factory, cfg: ChannelConfig, w: World): (r: Result<Driver, string>)
    ensures r.Success? ==> !r.value.Stack?
    ensures f.FileFactory? ==> (r.Success? <==> NewFileDriver(cfg, w.open).Success?)
    ensures f.FileFactory? && r.Success? ==> r.value == File(NewFileDriver(cfg, w.open).value)
    ensures f.SlackFactory? ==> (r.Success? <==> NewSlackDriver(cfg).Success?)
    ensures f.SlackFactory? && r.Success? ==> r.value == Slack(NewSlackDriver(cfg).value)
    ensures f.CustomFactory? ==> (r.Success? <==> w.custom(f.kind, cfg).Success?)
  {
    match f
    case FileFactory =>
      (match NewFileDriver(cfg, w.open)
       case Success(d) => Success(File(d))
       case Failure(err) => Failure(err))
    case SlackFactory =>
      (match NewSlackDriver(cfg)
       case Success(d) => Success(Slack(d))
       case Failure(err) => Failure(err))
    case CustomFactory(kind) =>
      (match w.custom(kind, cfg)
       case Success(n) => Success(Custom(kind, n))
       case Failure(err) => Failure(err))
  }

  /** What the drivers leave behind: the lines appended to each log file, and the Slack
      messages handed to the webhook transport, with the URL they were posted to. */
  datatype Sinks = Sinks(files: map<string, seq<string>>, posts: seq<(string, SlackMessage)>)

  function Written(s: Sinks, path: string): seq<string> {
    if path in s.files then s.files[path] else []
  }

  /** Appending one record to one file: that file grows by the record, the others stay. */
  function Append(s: Sinks, path: string, text: string): (r: Sinks)
    ensures Written(r, path) == Written(s, path) + [text]
    ensures forall p :: p != path ==> Written(r, p) == Written(s, p)
    ensures r.posts == s.posts
  {
    s.(files := s.files[path := Written(s, path) + [text]])
  }

  /** The position of the last failure in the sequence, if any. */
  function LastFailureIndex(errs: seq<Option<string>>): (i: Option<nat>)
    ensures i.None? <==> forall k :: 0 <= k < |errs| ==> errs[k].None?
    ensures i.Some? ==> (i.value < |errs| && errs[i.value].Some?
      && forall k :: i.value < k < |errs| ==> errs[k].None?)
  {
    if errs == [] then None
    else if errs[|errs| - 1].Some? then Some(|errs| - 1)
    else
      var init := errs[..|errs| - 1];
      assert forall k :: 0 <= k < |init| ==> init[k] == errs[k];
      LastFailureIndex(init)
  }

  /** Last-error-wins aggregation: the last failure in the sequence, or none when none failed. */
  function LastFailure(errs: seq<Option<string>>): (r: Option<string>)
    ensures r.None? <==> forall i :: 0 <= i < |errs| ==> errs[i].None?
    ensures r.Some? ==> exists j :: (0 <= j < |errs| && errs[j] == r
      && forall k :: j < k < |errs| ==> errs[k].None?)
  {
    match LastFailureIndex(errs)
    case None => None
    case Some(j) => errs[j]
  }

  /** One more error: it wins if it is a failure, otherwise the earlier verdict stands. */
  lemma LastFailureSnoc(errs: seq<Option<string>>, x: Option<string>)
    ensures LastFailure(errs + [x]) == if x.Some? then x else LastFailure(errs)
  {
    var all := errs + [x];
    assert all[..|all| - 1] == errs;
    assert LastFailureIndex(all) == if x.Some? then Some(|errs|) else LastFailureIndex(errs);
  }

  /** The error `d.Log(e)` returns. An asynchronous Slack driver always returns nil; a stack
      returns nil when it ignores exceptions and its members' last error otherwise. */
  function Outcome(d: Driver, e: Entry, w: World): Option<string>
    decreases d
  {
    match d
    case File(_) => w.logOutcome(d, e)
    case Slack(sd) => if sd.async then None else w.logOutcome(d, e)
    case Custom(_, _) => w.logOutcome(d, e)
    case Stack(ms, ignore) =>
      if ignore then None else LastFailure(seq(|ms|, i requires 0 <= i < |ms| => Outcome(ms[i], e, w)))
  }

  /** The record a file driver renders for an entry. */
  function FileRecord(fd: FileDriver, e: Entry, w: World): string {
    Format(e, w.stamp(e.timestamp, fd.dateFormat), w.keyOrder(e.context.Keys))
  }

  /** What `d.Log(e)` leaves in the sinks. A file driver appends its record when the write
      succeeds; a Slack driver hands one message to the transport; a stack runs every member,
      in order. */
  function Effect(d: Driver, e: Entry, w: World, s: Sinks): Sinks
    decreases d, 1
  {
    match d
    case File(fd) => if w.logOutcome(d, e).None? then Append(s, fd.path, FileRecord(fd, e, w)) else s
    case Slack(sd) =>
      s.(posts := s.posts + [(sd.webhookUrl, BuildMessage(sd, e, w.keyOrder(e.context.Keys), w.encodeException))])
    case Custom(_, _) => s
    case Stack(ms, _) => EffectMembers(d, |ms|, e, w, s)
  }

  /** The effect of the first `n` members of a stack, one after the other. */
  function EffectMembers(d: Driver, n: nat, e: Entry, w: World, s: Sinks): Sinks
    requires d.Stack? && n <= |d.members|
    decreases d, 0, n
  {
    if n == 0 then s else Effect(d.members[n - 1], e, w, EffectMembers(d, n - 1, e, w, s))
  }

  /** The errors the members of a stack return for one entry, in member order. */
  function MemberOutcomes(members: seq<Driver>, e: Entry, w: World): (r: seq<Option<string>>)
    ensures |r| == |members|
    ensures forall i :: 0 <= i < |members| ==> r[i] == Outcome(members[i], e, w)
  {
    seq(|members|, i requires 0 <= i < |members| => Outcome(members[i], e, w))
  }

  /** A stack's error: none when it ignores exceptions; otherwise none exactly when no member
      failed, and else the last member error. */
  lemma StackOutcome(members: seq<Driver>, ignoreExceptions: bool, e: Entry, w: World)
    ensures Outcome(Stack(members, ignoreExceptions), e, w)
      == if ignoreExceptions then None else LastFailure(MemberOutcomes(members, e, w))
    ensures !ignoreExceptions ==> (Outcome(Stack(members, ignoreExceptions), e, w).None? <==>
      forall i :: 0 <= i < |members| ==> Outcome(members[i], e, w).None?)
  {
    assert MemberOutcomes(members, e, w) == seq(|members|, i requires 0 <= i < |members| => Outcome(members[i], e, w));
  }

  /** Running one more member of a stack applies that member's effect on top. */
  lemma EffectMembersStep(d: Driver, i: nat, e: Entry, w: World, s: Sinks)
    requires d.Stack? && i < |d.members|
    ensures EffectMembers(d, i + 1, e, w, s) == Effect(d.members[i], e, w, EffectMembers(d, i, e, w, s))
  {
  }

  /** A stack's effect is that of all its members, one after the other. */
  lemma StackEffect(members: seq<Driver>, ignoreExceptions: bool, e: Entry, w: World, s: Sinks)
    ensures Effect(Stack(members, ignoreExceptions), e, w, s)
      == EffectMembers(Stack(members, ignoreExceptions), |members|, e, w, s)
  {
  }

  /** `StackDriver.Log`: the Go loop. Every member is called, in order, whatever the earlier
      ones returned; the result is nil when exceptions are ignored and the last member error
      otherwise. */
  method StackLog(members: seq<Driver>, ignoreExceptions: bool, e: Entry, w: World, s: Sinks)
    returns (s': Sinks, err: Option<string>)
    ensures s' == Effect(Stack(members, ignoreExceptions), e, w, s)
    ensures err == Outcome(Stack(members, ignoreExceptions), e, w)
    ensures ignoreExceptions ==> err.None?
    ensures !ignoreExceptions ==> (err.None? <==> forall i :: 0 <= i < |members| ==> Outcome(members[i], e, w).None?)
  {
    ghost var d := Stack(members, ignoreExceptions);
    ghost var outs := MemberOutcomes(members, e, w);
    s' := s;
    err := None;
    var i := 0;
    while i < |members|
      invariant 0 <= i <= |members|
      invariant s' == EffectMembers(d, i, e, w, s)
      invariant err == if ignoreExceptions then None else LastFailure(outs[..i])
    {
      var r := Outcome(members[i], e, w);
      EffectMembersStep(d, i, e, w, s);
      s' := Effect(members[i], e, w, s');
      if r.Some? && !ignoreExceptions {
        err := r;
      }
      assert outs[..i + 1] == outs[..i] + [r];
      LastFailureSnoc(outs[..i], r);
      i := i + 1;
    }
    assert outs[..|members|] == outs;
    StackOutcome(members, ignoreExceptions, e, w);
    StackEffect(members, ignoreExceptions, e, w, s);
  }

  /** The error `d.Close()` returns: a Slack driver never fails to close, a stack returns its
      members' last close error whatever its `ignoreExceptions` flag says. */
  function Shutdown(d: Driver, w: World): Option<string>
    decreases d
  {
    match d
    case File(_) => w.closeOutcome(d)
    case Slack(_) => None
    case Custom(_, _) => w.closeOutcome(d)
    case Stack(ms, _) => LastFailure(seq(|ms|, i requires 0 <= i < |ms| => Shutdown(ms[i], w)))
  }

  /** `StackDriver.Close`: the Go loop, closing every member and keeping the last error. */
  method StackClose(members: seq<Driver>, ignoreExceptions: bool, w: World) returns (err: Option<string>)
    ensures err == Shutdown(Stack(members, ignoreExceptions), w)
    ensures err.None? <==> forall i :: 0 <= i < |members| ==> Shutdown(members[i], w).None?
  {
    ghost var outs := seq(|members|, i requires 0 <= i < |members| => Shutdown(members[i], w));
    err := None;
    var i := 0;
    while i < |members|
      invariant 0 <= i <= |members|
      invariant err == LastFailure(outs[..i])
    {
      var r := Shutdown(members[i], w);
      if r.Some? {
        err := r;
      }
      assert outs[..i + 1] == outs[..i] + [r];
      LastFailureSnoc(outs[..i], r);
      i := i + 1;
    }
    assert outs[..|members|] == outs;
    assert forall i :: 0 <= i < |members| ==> outs[i] == Shutdown(members[i], w);
  }

  /** A stack's close result does not depend on `ignoreExceptions`. */
  lemma StackCloseIgnoresFlag(members: seq<Driver>, w: World)
    ensures Shutdown(Stack(members, true), w) == Shutdown(Stack(members, false), w)
  {
  }

  /** A file driver's `Log` appends exactly its record to its own file when the write succeeds
      and leaves every sink untouched when it fails. */
  lemma FileLogAppends(fd: FileDriver, e: Entry, w: World, s: Sinks)
    ensures var s' := Effect(File(fd), e, w, s);
      && (w.logOutcome(File(fd), e).None? ==> Written(s', fd.path) == Written(s, fd.path) + [FileRecord(fd, e, w)])
      && (w.logOutcome(File(fd), e).Some? ==> s' == s)
      && (forall p :: p != fd.path ==> Written(s', p) == Written(s, p))
      && s'.posts == s.posts
  {
  }

  /** A Slack driver's `Log` hands exactly one message, built from the entry, to the transport
      for its webhook and writes no file; in asynchronous mode it reports no error. */
  lemma SlackLogPosts(sd: SlackDriver, e: Entry, w: World, s: Sinks)
    ensures var s' := Effect(Slack(sd), e, w, s);
      && s'.posts == s.posts + [(sd.webhookUrl, BuildMessage(sd, e, w.keyOrder(e.context.Keys), w.encodeException))]
      && s'.files == s.files
    ensures sd.async ==> Outcome(Slack(sd), e, w).None?
    ensures !sd.async ==> Outcome(Slack(sd), e, w) == w.logOutcome(Slack(sd), e)
  {
  }

  /** In a world whose key order is a real map iteration, a file record is the formatting under
      an enumeration of the entry's keys: one context line per entry, none missing. */
  lemma FileRecordListsContext(fd: FileDriver, e: Entry, w: World)
    requires RangesOverMaps(w)
    ensures var keys := w.keyOrder(e.context.Keys);
      && Enumerates(keys, e.context.Keys)
      && FileRecord(fd, e, w) == Format(e, w.stamp(e.timestamp, fd.dateFormat), keys)
      && |ContextLines(e.context, keys)| == |e.context|
      && (forall k :: k in e.context ==> ContextLine(k, e.context[k]) in ContextLines(e.context, keys))
  {
    ContextLinesPerEntry(e.context, w.keyOrder(e.context.Keys));
  }

  /** In such a world the posted Slack message carries Message, Level, one field per context
      entry with none missing, and the Exception field when there is one. */
  lemma SlackMessageListsContext(sd: SlackDriver, e: Entry, w: World)
    requires RangesOverMaps(w)
    ensures var fields := BuildMessage(sd, e, w.keyOrder(e.context.Keys), w.encodeException).attachments[0].fields;
      && |fields| == 2 + |e.context| + |SlackDrivers.ExceptionFields(e, w.encodeException)|
      && (forall k :: k in e.context ==> ContextField(k, e.context[k]) in fields)
  {
    var keys := w.keyOrder(e.context.Keys);
    var fields := BuildMessage(sd, e, keys, w.encodeException).attachments[0].fields;
    FieldsAfterHeader(fields, e.context, keys, SlackDrivers.ExceptionFields(e, w.encodeException));
  }

  lemma FieldsAfterHeader(fields: seq<SlackField>, ctx: Context, keys: seq<string>, more: seq<SlackField>)
    requires Enumerates(keys, ctx.Keys)
    requires |fields| >= 2 && fields[2..] == ContextFields(ctx, keys) + more
    ensures |fields| == 2 + |ctx| + |more|
    ensures forall k :: k in ctx ==> ContextField(k, ctx[k]) in fields
  {
    var cf := ContextFields(ctx, keys);
    ContextFieldsPerEntry(ctx, keys);
    forall k | k in ctx ensures ContextField(k, ctx[k]) in fields {
      var i :| 0 <= i < |keys| && keys[i] == k;
      assert (cf + more)[i] == cf[i];
      assert fields[2 + i] == fields[2..][i];
    }
  }

  /** Stacks of file drivers on distinct paths: each member whose write succeeds gets the
      record appended to its own file, whatever the other members' outcomes are. */
  lemma {:induction false} StackFileMembersWrite(d: Driver, n: nat, e: Entry, w: World, s: Sinks, j: nat)
    requires d.Stack? && n <= |d.members| && j < n
    requires forall i :: 0 <= i < |d.members| ==> d.members[i].File?
    requires forall i, k :: 0 <= i < k < |d.members| ==> d.members[i].file.path != d.members[k].file.path
    requires w.logOutcome(d.members[j], e).None?
    ensures var fd := d.members[j].file;
      Written(EffectMembers(d, n, e, w, s), fd.path) == Written(s, fd.path) + [FileRecord(fd, e, w)]
    decreases n
  {
    var fd := d.members[j].file;
    var before := EffectMembers(d, n - 1, e, w, s);
    FileLogAppends(d.members[n - 1].file, e, w, before);
    if j < n - 1 {
      StackFileMembersWrite(d, n - 1, e, w, s, j);
    } else {
      FileMembersUntouched(d, n - 1, e, w, s, fd.path);
    }
  }

  /** Members writing to other paths leave a file as it was. */
  lemma {:induction false} FileMembersUntouched(d: Driver, n: nat, e: Entry, w: World, s: Sinks, path: string)
    requires d.Stack? && n <= |d.members|
    requires forall i :: 0 <= i < n ==> d.members[i].File? && d.members[i].file.path != path
    ensures Written(EffectMembers(d, n, e, w, s), path) == Written(s, path)
    decreases n
  {
    if n > 0 {
      FileMembersUntouched(d, n - 1, e, w, s, path);
      FileLogAppends(d.members[n - 1].file, e, w, EffectMembers(d, n - 1, e, w, s));
    }
  }
}
