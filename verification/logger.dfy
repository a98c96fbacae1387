/** Loggers bound to a channel, with their own context snapshot (logger.go). */
module Loggers {
  import opened Wrappers
  import opened Levels
  import opened Entries
  import opened Drivers

  /** A configured channel: its name, driver, minimum level and channel context. */
  datatype LogChannel = LogChannel(name: string, driver: Driver, level: Level, ctx: Context)

  /** A logger: the channel it writes to and its own copy of the context. Loggers are values;
      every derivation builds a new one and leaves its origin as it was. */
  datatype Logger = Logger(channel: LogChannel, ctx: Context)

  /** `NewLogger`: the channel context, overridden by the manager's shared context. */
  function NewLogger(ch: LogChannel, shared: Context): (l: Logger)
    ensures l.channel == ch
    ensures l.ctx.Keys == ch.ctx.Keys + shared.Keys
    ensures forall k :: k in shared ==> l.ctx[k] == shared[k]
    ensures forall k :: k in ch.ctx && k !in shared ==> l.ctx[k] == ch.ctx[k]
  {
    Logger(ch, Overlay(ch.ctx, shared))
  }

  /** `Logger.WithContext`: a logger on the same channel whose context has `ctx` laid over. */
  function WithContext(l: Logger, ctx: Context): (r: Logger)
    ensures r.channel == l.channel
    ensures r.ctx.Keys == l.ctx.Keys + ctx.Keys
    ensures forall k :: k in ctx ==> r.ctx[k] == ctx[k]
    ensures forall k :: k in l.ctx && k !in ctx ==> r.ctx[k] == l.ctx[k]
  {
    Logger(l.channel, Overlay(l.ctx, ctx))
  }

  /** `Logger.With`: one key (re)bound. */
  function With(l: Logger, key: string, value: Value): (r: Logger)
    ensures r.channel == l.channel
    ensures r.ctx.Keys == l.ctx.Keys + {key} && r.ctx[key] == value
    ensures forall k :: k in l.ctx && k != key ==> r.ctx[k] == l.ctx[k]
  {
    WithContext(l, map[key := value])
  }

  /** `Logger.WithoutContext`: every listed key removed; keys that are absent are ignored. */
  function WithoutContext(l: Logger, keys: seq<string>): (r: Logger)
    ensures r.channel == l.channel
    ensures forall k :: k in r.ctx <==> k in l.ctx && k !in keys
    ensures forall k :: k in r.ctx ==> r.ctx[k] == l.ctx[k]
  {
    Logger(l.channel, l.ctx - set k | k in keys)
  }

  /** Binding a key and removing it again leaves the context without that key and with every
      other binding as it was. */
  lemma WithThenWithout(l: Logger, key: string, value: Value)
    ensures WithoutContext(With(l, key, value), [key]).ctx == l.ctx - {key}
  {
  }

  /** `mergeContext`: every key of every map survives; no map gives the empty context. */
  function MergeContext(ctxs: seq<Context>): (r: Context)
    ensures forall j :: 0 <= j < |ctxs| ==> ctxs[j].Keys <= r.Keys
  {
    if ctxs == [] then map[]
    else
      var init := MergeContext(ctxs[..|ctxs| - 1]);
      assert forall j :: 0 <= j < |ctxs| - 1 ==> ctxs[..|ctxs| - 1][j] == ctxs[j];
      Overlay(init, ctxs[|ctxs| - 1])
  }

  /** `mergeContext` invents no keys: each comes from one of the maps. */
  lemma {:induction false} MergeContextKeys(ctxs: seq<Context>, k: string)
    requires k in MergeContext(ctxs)
    ensures exists j :: 0 <= j < |ctxs| && k in ctxs[j]
  {
    var n := |ctxs| - 1;
    var init := ctxs[..n];
    assert MergeContext(ctxs) == Overlay(MergeContext(init), ctxs[n]);
    if k !in ctxs[n] {
      MergeContextKeys(init, k);
      var j :| 0 <= j < |init| && k in init[j];
      assert init[j] == ctxs[j];
    }
  }

  /** In `mergeContext`, the last map binding a key decides its value. */
  lemma {:induction false} MergeContextLastWins(ctxs: seq<Context>, k: string, j: nat)
    requires j < |ctxs| && k in ctxs[j]
    requires forall i :: j < i < |ctxs| ==> k !in ctxs[i]
    ensures k in MergeContext(ctxs) && MergeContext(ctxs)[k] == ctxs[j][k]
  {
    var n := |ctxs| - 1;
    var init := ctxs[..n];
    assert MergeContext(ctxs) == Overlay(MergeContext(init), ctxs[n]);
    if j < n {
      assert init[j] == ctxs[j];
      assert k !in ctxs[n];
      MergeContextLastWins(init, k, j);
    }
  }

  /** The result of a logging call: what the sinks hold afterwards, and the entry handed to the
      driver (none when the level gate dropped the call). The driver's error is discarded. */
  datatype Emission = Emission(sinks: Sinks, entry: Option<Entry>)

  /** What every logging call promises: it is dropped exactly when its level is below the
      channel's minimum, and a dropped call touches nothing; otherwise the channel's driver
      receives one entry with the given level, message and clock reading, labelled with the
      channel name, whose context is the logger's context overridden by the call's context. */
  predicate Delivered(r: Emission, l: Logger, level: Level, message: string, ctx: Context, now: int,
                      w: World, s: Sinks)
  {
    && (r.entry.None? <==> level < l.channel.level)
    && (r.entry.None? ==> r.sinks == s)
    && (r.entry.Some? ==> (
      && r.entry.value.level == level
      && r.entry.value.message == message
      && r.entry.value.timestamp == now
      && r.entry.value.channel == l.channel.name
      && r.entry.value.context.Keys == l.ctx.Keys + ctx.Keys
      && (forall k :: k in ctx ==> r.entry.value.context[k] == ctx[k])
      && (forall k :: k in l.ctx && k !in ctx ==> r.entry.value.context[k] == l.ctx[k])
      && r.sinks == Effect(l.channel.driver, r.entry.value, w, s)))
  }

  /** `Logger.log`. */
  function LogEntry(l: Logger, level: Level, message: string, ctx: Context, now: int, w: World, s: Sinks)
    : (r: Emission)
    ensures Delivered(r, l, level, message, ctx, now, w, s)
    ensures r.entry.Some? ==> r.entry.value.exception.None?
  {
    if level < l.channel.level then Emission(s, None)
    else
      var e0 := SetChannel(NewEntry(level, message, now), l.channel.name);
      var e := Entries.WithContext(Entries.WithContext(e0, l.ctx), ctx);
      LayeredContext(e0, l.ctx, ctx);
      Emission(Effect(l.channel.driver, e, w, s), Some(e))
  }

  /** `Logger.logWithError`: as `LogEntry`, with the error attached as `Entry.WithError` does. */
  function LogEntryWithError(l: Logger, level: Level, message: string, err: Option<GoError>, site: CallSite,
                             ctx: Context, now: int, w: World, s: Sinks): (r: Emission)
    ensures Delivered(r, l, level, message, ctx, now, w, s)
    ensures r.entry.Some? ==> r.entry.value.exception == WithError(NewEntry(level, message, now), err, site).exception
  {
    if level < l.channel.level then Emission(s, None)
    else
      var e := WithError(SetChannel(NewEntry(level, message, now), l.channel.name), err, site);
      var e' := Entries.WithContext(Entries.WithContext(e, l.ctx), ctx);
      LayeredContext(e, l.ctx, ctx);
      Emission(Effect(l.channel.driver, e', w, s), Some(e'))
  }

  /** The logger's context laid over an entry with none, then the call's context over that. */
  lemma LayeredContext(e: Entry, base: Context, call: Context)
    requires |e.context| == 0
    ensures var r := Entries.WithContext(Entries.WithContext(e, base), call);
      && r == e.(context := r.context)
      && r.context.Keys == base.Keys + call.Keys
      && (forall k :: k in call ==> r.context[k] == call[k])
      && (forall k :: k in base && k !in call ==> r.context[k] == base[k])
  {
    var m := Entries.WithContext(e, base);
    assert m.context.Keys == base.Keys;
  }

  /** A nil error makes `logWithError` behave exactly as `log`. */
  lemma NilErrorIsPlainLog(l: Logger, level: Level, message: string, site: CallSite, ctx: Context, now: int,
                           w: World, s: Sinks)
    ensures LogEntryWithError(l, level, message, None, site, ctx, now, w, s) == LogEntry(l, level, message, ctx, now, w, s)
  {
  }

  /** The level gate: a call at or above the channel's level always reaches the driver, one
      below never does. */
  lemma LevelGate(l: Logger, level: Level, message: string, ctx: Context, now: int, w: World, s: Sinks)
    ensures level >= l.channel.level ==> LogEntry(l, level, message, ctx, now, w, s).entry.Some?
    ensures level < l.channel.level ==> LogEntry(l, level, message, ctx, now, w, s) == Emission(s, None)
  {
  }

  /** `Logger.Log`: the variadic contexts merged, then `log`. */
  function Log(l: Logger, level: Level, message: string, ctxs: seq<Context>, now: int, w: World, s: Sinks)
    : (r: Emission)
    ensures Delivered(r, l, level, message, MergeContext(ctxs), now, w, s)
  {
    LogEntry(l, level, message, MergeContext(ctxs), now, w, s)
  }

  function Debug(l: Logger, message: string, ctxs: seq<Context>, now: int, w: World, s: Sinks): (r: Emission)
    ensures Delivered(r, l, Levels.Debug, message, MergeContext(ctxs), now, w, s)
  {
    Log(l, Levels.Debug, message, ctxs, now, w, s)
  }

  function Info(l: Logger, message: string, ctxs: seq<Context>, now: int, w: World, s: Sinks): (r: Emission)
    ensures Delivered(r, l, Levels.Info, message, MergeContext(ctxs), now, w, s)
  {
    Log(l, Levels.Info, message, ctxs, now, w, s)
  }

  function Notice(l: Logger, message: string, ctxs: seq<Context>, now: int, w: World, s: Sinks): (r: Emission)
    ensures Delivered(r, l, Levels.Notice, message, MergeContext(ctxs), now, w, s)
  {
    Log(l, Levels.Notice, message, ctxs, now, w, s)
  }

  function Warning(l: Logger, message: string, ctxs: seq<Context>, now: int, w: World, s: Sinks): (r: Emission)
    ensures Delivered(r, l, Levels.Warning, message, MergeContext(ctxs), now, w, s)
  {
    Log(l, Levels.Warning, message, ctxs, now, w, s)
  }

  function Error(l: Logger, message: string, ctxs: seq<Context>, now: int, w: World, s: Sinks): (r: Emission)
    ensures Delivered(r, l, Levels.Error, message, MergeContext(ctxs), now, w, s)
  {
    Log(l, Levels.Error, message, ctxs, now, w, s)
  }

  function Critical(l: Logger, message: string, ctxs: seq<Context>, now: int, w: World, s: Sinks): (r: Emission)
    ensures Delivered(r, l, Levels.Critical, message, MergeContext(ctxs), now, w, s)
  {
    Log(l, Levels.Critical, message, ctxs, now, w, s)
  }

  function Alert(l: Logger, message: string, ctxs: seq<Context>, now: int, w: World, s: Sinks): (r: Emission)
    ensures Delivered(r, l, Levels.Alert, message, MergeContext(ctxs), now, w, s)
  {
    Log(l, Levels.Alert, message, ctxs, now, w, s)
  }

  function Emergency(l: Logger, message: string, ctxs: seq<Context>, now: int, w: World, s: Sinks): (r: Emission)
    ensures Delivered(r, l, Levels.Emergency, message, MergeContext(ctxs), now, w, s)
  {
    Log(l, Levels.Emergency, message, ctxs, now, w, s)
  }

  /** The `...WithException` variants: `logWithError` at a fixed level with merged contexts. */
  function LogWithException(l: Logger, level: Level, message: string, err: Option<GoError>, site: CallSite,
                            ctxs: seq<Context>, now: int, w: World, s: Sinks): (r: Emission)
    ensures Delivered(r, l, level, message, MergeContext(ctxs), now, w, s)
    ensures r.entry.Some? ==> (err.None? <==> r.entry.value.exception.None?)
    ensures r.entry.Some? && err.Some? ==> r.entry.value.exception.value.message == err.value.message
  {
    LogEntryWithError(l, level, message, err, site, MergeContext(ctxs), now, w, s)
  }

  function ErrorWithException(l: Logger, message: string, err: Option<GoError>, site: CallSite,
                              ctxs: seq<Context>, now: int, w: World, s: Sinks): (r: Emission)
    ensures Delivered(r, l, Levels.Error, message, MergeContext(ctxs), now, w, s)
    ensures r.entry.Some? ==> (err.None? <==> r.entry.value.exception.None?)
  {
    LogWithException(l, Levels.Error, message, err, site, ctxs, now, w, s)
  }

  function CriticalWithException(l: Logger, message: string, err: Option<GoError>, site: CallSite,
                                 ctxs: seq<Context>, now: int, w: World, s: Sinks): (r: Emission)
    ensures Delivered(r, l, Levels.Critical, message, MergeContext(ctxs), now, w, s)
    ensures r.entry.Some? ==> (err.None? <==> r.entry.value.exception.None?)
  {
    LogWithException(l, Levels.Critical, message, err, site, ctxs, now, w, s)
  }

  function AlertWithException(l: Logger, message: string, err: Option<GoError>, site: CallSite,
                              ctxs: seq<Context>, now: int, w: World, s: Sinks): (r: Emission)
    ensures Delivered(r, l, Levels.Alert, message, MergeContext(ctxs), now, w, s)
    ensures r.entry.Some? ==> (err.None? <==> r.entry.value.exception.None?)
  {
    LogWithException(l, Levels.Alert, message, err, site, ctxs, now, w, s)
  }

  function EmergencyWithException(l: Logger, message: string, err: Option<GoError>, site: CallSite,
                                  ctxs: seq<Context>, now: int, w: World, s: Sinks): (r: Emission)
    ensures Delivered(r, l, Levels.Emergency, message, MergeContext(ctxs), now, w, s)
    ensures r.entry.Some? ==> (err.None? <==> r.entry.value.exception.None?)
  {
    LogWithException(l, Levels.Emergency, message, err, site, ctxs, now, w, s)
  }

  /** Context precedence in a delivered entry: call context over logger context, and within the
      logger, `With`/`WithContext` over what the logger was created with. */
  lemma CallContextWins(l: Logger, key: string, v1: Value, v2: Value, message: string, now: int, w: World, s: Sinks)
    requires Levels.Info >= l.channel.level
    ensures var r := Info(With(l, key, v1), message, [map[key := v2]], now, w, s);
      r.entry.Some? && r.entry.value.context[key] == v2
  {
    var ctxs := [map[key := v2]];
    assert key in ctxs[0];
  }
}
