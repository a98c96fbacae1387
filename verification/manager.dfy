/** The channel manager: lazy channel creation and caching, stacks, shared context and shutdown
    (manager.go). The driver registry, a process-wide map in Go, is passed in explicitly. */
module Managers {
  import opened Wrappers
  import opened Levels
  import opened Configs
  import opened Entries
  import opened Drivers
  import opened Loggers

  datatype Manager = Manager(
    config: Config,
    channels: map<string, LogChannel>,
    defaultChannel: string,
    shared: Context)

  /** `NewManager`: a nil configuration means `DefaultConfig()`; nothing is created yet. */
  function NewManager(config: Option<Config>): (m: Manager)
    ensures config.Some? ==> m.config == config.value
    ensures config.None? ==> m.config == DefaultConfig()
    ensures m.defaultChannel == m.config.default
    ensures |m.channels| == 0 && |m.shared| == 0
  {
    var c := if config.Some? then config.value else DefaultConfig();
    Manager(c, map[], c.default, map[])
  }

  /** What the manager keeps true: each cached channel is filed under its own name, comes from
      a configured channel, and never nests a stack in a stack. */
  predicate Valid(m: Manager) {
    forall n :: n in m.channels ==> (
      && m.channels[n].name == n
      && n in m.config.channels
      && NoNestedStack(m.channels[n].driver))
  }

  predicate NoNestedStack(d: Driver) {
    d.Stack? ==> forall i :: 0 <= i < |d.members| ==> !d.members[i].Stack?
  }

  function NotSupported(kind: string): string {
    "driver [" + kind + "] is not supported"
  }

  function CreateFailed(kind: string, err: string): string {
    "failed to create driver [" + kind + "]: " + err
  }

  /** The drivers a stack gets, in list order: each listed channel must be configured and its
      kind registered; a factory error aborts the stack unless exceptions are ignored, in
      which case that member is skipped. */
  function StackMembers(config: Config, names: seq<string>, ignore: bool, reg: Registry, w: World)
    : (r: Result<seq<Driver>, string>)
    ensures r.Success? ==> |r.value| <= |names|
    ensures r.Success? ==> forall i :: 0 <= i < |r.value| ==> !r.value[i].Stack?
    decreases |names|
  {
    if names == [] then Success([])
    else
      var n := names[0];
      if n !in config.channels then Failure("channel [" + n + "] in stack is not defined")
      else
        var c := config.channels[n];
        if c.driver !in reg then Failure(NotSupported(c.driver))
        else match Build(reg[c.driver], c, w)
          case Failure(err) =>
            if !ignore then Failure(CreateFailed(c.driver, err)) else StackMembers(config, names[1..], ignore, reg, w)
          case Success(d) =>
            match StackMembers(config, names[1..], ignore, reg, w)
            case Failure(err) => Failure(err)
            case Success(ds) => Success([d] + ds)
  }

  /** The members collected so far, put in front of what the rest of the list yields. */
  function Prepend(ds: seq<Driver>, r: Result<seq<Driver>, string>): Result<seq<Driver>, string> {
    match r
    case Failure(err) => Failure(err)
    case Success(more) => Success(ds + more)
  }

  /** The member loop of `createStackChannel`, with its early returns and its `continue`. */
  method CreateStackMembers(config: Config, names: seq<string>, ignore: bool, reg: Registry, w: World)
    returns (r: Result<seq<Driver>, string>)
    ensures r == StackMembers(config, names, ignore, reg, w)
  {
    var drivers: seq<Driver> := [];
    var i := 0;
    assert names[0..] == names;
    PrependNothing(StackMembers(config, names, ignore, reg, w));
    while i < |names|
      invariant 0 <= i <= |names|
      invariant StackMembers(config, names, ignore, reg, w)
        == Prepend(drivers, StackMembers(config, names[i..], ignore, reg, w))
    {
      assert names[i..][1..] == names[i + 1..];
      var n := names[i];
      if n !in config.channels {
        return Failure("channel [" + n + "] in stack is not defined");
      }
      var c := config.channels[n];
      if c.driver !in reg {
        return Failure(NotSupported(c.driver));
      }
      var built := Build(reg[c.driver], c, w);
      if built.Failure? {
        if !ignore {
          return Failure(CreateFailed(c.driver, built.error));
        }
        i := i + 1;
        continue;
      }
      PrependOne(drivers, built.value, StackMembers(config, names[i + 1..], ignore, reg, w));
      drivers := drivers + [built.value];
      i := i + 1;
    }
    assert names[|names|..] == [];
    assert drivers + [] == drivers;
    return Success(drivers);
  }

  lemma PrependNothing(r: Result<seq<Driver>, string>)
    ensures Prepend([], r) == r
  {
    if r.Success? {
      assert [] + r.value == r.value;
    }
  }

  /** Collecting one more member before the rest is prepending it to the rest. */
  lemma PrependOne(ds: seq<Driver>, d: Driver, rest: Result<seq<Driver>, string>)
    ensures Prepend(ds, match rest case Failure(err) => Failure(err) case Success(more) => Success([d] + more))
      == Prepend(ds + [d], rest)
  {
    if rest.Success? {
      assert ds + ([d] + rest.value) == ds + [d] + rest.value;
    }
  }

  /** Whether a listed channel can be instantiated: configured, registered, and its factory
      succeeds. */
  predicate Buildable(config: Config, n: string, reg: Registry, w: World) {
    && n in config.channels
    && config.channels[n].driver in reg
    && Build(reg[config.channels[n].driver], config.channels[n], w).Success?
  }

  /** The drivers of the buildable channels of a list, in order. */
  function Built(config: Config, names: seq<string>, reg: Registry, w: World): (r: seq<Driver>)
    ensures |r| <= |names|
    decreases |names|
  {
    if names == [] then []
    else
      var rest := Built(config, names[1..], reg, w);
      if Buildable(config, names[0], reg, w)
      then [Build(reg[config.channels[names[0]].driver], config.channels[names[0]], w).value] + rest
      else rest
  }

  /** When every listed channel is configured and registered: with exceptions ignored the stack
      holds exactly the members whose factory succeeded (none at all when every factory fails);
      otherwise it is built iff every factory succeeds, and then holds all of them. */
  lemma {:induction false} StackMembersBuilt(config: Config, names: seq<string>, ignore: bool, reg: Registry, w: World)
    requires forall i :: 0 <= i < |names| ==> names[i] in config.channels && config.channels[names[i]].driver in reg
    ensures ignore ==> StackMembers(config, names, ignore, reg, w) == Success(Built(config, names, reg, w))
    ensures !ignore ==> (StackMembers(config, names, ignore, reg, w).Success? <==>
      forall i :: 0 <= i < |names| ==> Buildable(config, names[i], reg, w))
    ensures !ignore && StackMembers(config, names, ignore, reg, w).Success? ==>
      StackMembers(config, names, ignore, reg, w).value == Built(config, names, reg, w)
      && |Built(config, names, reg, w)| == |names|
    decreases |names|
  {
    if names != [] {
      var rest := names[1..];
      assert forall i :: 0 <= i < |rest| ==> rest[i] == names[i + 1];
      StackMembersBuilt(config, rest, ignore, reg, w);
      if !ignore && (forall i :: 0 <= i < |rest| ==> Buildable(config, rest[i], reg, w)) && Buildable(config, names[0], reg, w) {
        assert forall i :: 0 <= i < |names| ==> Buildable(config, names[i], reg, w) by {
          forall i | 0 <= i < |names| ensures Buildable(config, names[i], reg, w) {
            if i > 0 { assert names[i] == rest[i - 1]; }
          }
        }
      }
    }
  }

  /** A listed channel that is not defined, or whose driver kind is not registered, makes the
      whole stack fail, wherever it stands in the list and whatever `IgnoreExceptions` says:
      only factory errors are ever skipped. A member of kind "stack" is one such member while
      "stack" is not a registered kind. */
  lemma {:induction false} BadMemberFails(config: Config, names: seq<string>, ignore: bool, reg: Registry, w: World)
    requires exists i :: 0 <= i < |names| && (names[i] !in config.channels || config.channels[names[i]].driver !in reg)
    ensures StackMembers(config, names, ignore, reg, w).Failure?
    decreases |names|
  {
    var i :| 0 <= i < |names| && (names[i] !in config.channels || config.channels[names[i]].driver !in reg);
    if i > 0 && names[0] in config.channels && config.channels[names[0]].driver in reg {
      assert names[1..][i - 1] == names[i];
      BadMemberFails(config, names[1..], ignore, reg, w);
    }
  }

  /** The first listed channel decides the error message when it is undefined or unregistered. */
  lemma FirstMemberError(config: Config, names: seq<string>, ignore: bool, reg: Registry, w: World)
    requires |names| > 0
    ensures names[0] !in config.channels ==>
      StackMembers(config, names, ignore, reg, w) == Failure("channel [" + names[0] + "] in stack is not defined")
    ensures names[0] in config.channels && config.channels[names[0]].driver !in reg ==>
      StackMembers(config, names, ignore, reg, w) == Failure(NotSupported(config.channels[names[0]].driver))
  {
  }

  /** `createStackChannel`. */
  function CreateStackChannel(m: Manager, name: string, cfg: ChannelConfig, reg: Registry, w: World)
    : (r: Result<LogChannel, string>)
    ensures cfg.stack.None? || |cfg.stack.value.channels| == 0 ==>
      r == Failure("stack channel [" + name + "] requires channel list")
    ensures r.Success? ==> (
      && r.value.name == name
      && |r.value.ctx| == 0
      && r.value.driver.Stack?
      && r.value.driver.ignoreExceptions == cfg.stack.value.ignoreExceptions
      && StackMembers(m.config, cfg.stack.value.channels, cfg.stack.value.ignoreExceptions, reg, w)
           == Success(r.value.driver.members)
      && r.value.level == if cfg.level == "" then Levels.Debug else ParseLevel(cfg.level))
    ensures cfg.stack.Some? && |cfg.stack.value.channels| > 0 ==>
      (r.Success? <==> StackMembers(m.config, cfg.stack.value.channels, cfg.stack.value.ignoreExceptions, reg, w).Success?)
  {
    if cfg.stack.None? || |cfg.stack.value.channels| == 0 then
      Failure("stack channel [" + name + "] requires channel list")
    else
      var sc := cfg.stack.value;
      match StackMembers(m.config, sc.channels, sc.ignoreExceptions, reg, w)
      case Failure(err) => Failure(err)
      case Success(ds) =>
        var level := if cfg.level == "" then Levels.Debug else ParseLevel(cfg.level);
        Success(LogChannel(name, Stack(ds, sc.ignoreExceptions), level, map[]))
  }

  /** `createChannel`: "stack" is recognised before the registry is consulted. */
  function CreateChannel(m: Manager, name: string, reg: Registry, w: World): (r: Result<LogChannel, string>)
    ensures name !in m.config.channels ==> r == Failure("channel [" + name + "] is not defined")
    ensures r.Success? ==> r.value.name == name && |r.value.ctx| == 0 && NoNestedStack(r.value.driver)
    ensures name in m.config.channels && m.config.channels[name].driver == "stack" ==>
      r == CreateStackChannel(m, name, m.config.channels[name], reg, w)
    ensures name in m.config.channels && m.config.channels[name].driver != "stack" ==> (
      var c := m.config.channels[name];
      && (c.driver !in reg ==> r == Failure(NotSupported(c.driver)))
      && (c.driver in reg ==> (r.Success? <==> Build(reg[c.driver], c, w).Success?))
      && (c.driver in reg && r.Failure? ==> r.error == CreateFailed(c.driver, Build(reg[c.driver], c, w).error))
      && (r.Success? ==> r.value.driver == Build(reg[c.driver], c, w).value && r.value.level == ParseLevel(c.level)))
  {
    if name !in m.config.channels then Failure("channel [" + name + "] is not defined")
    else
      var c := m.config.channels[name];
      if c.driver == "stack" then CreateStackChannel(m, name, c, reg, w)
      else if c.driver !in reg then Failure(NotSupported(c.driver))
      else match Build(reg[c.driver], c, w)
        case Failure(err) => Failure(CreateFailed(c.driver, err))
        case Success(d) => Success(LogChannel(name, d, ParseLevel(c.level), map[]))
  }

  /** An empty level means Debug for a stack channel but Info for any other channel. */
  lemma EmptyLevelDefaults(m: Manager, name: string, reg: Registry, w: World)
    requires name in m.config.channels && m.config.channels[name].level == ""
    requires CreateChannel(m, name, reg, w).Success?
    ensures m.config.channels[name].driver == "stack" ==> CreateChannel(m, name, reg, w).value.level == Levels.Debug
    ensures m.config.channels[name].driver != "stack" ==> CreateChannel(m, name, reg, w).value.level == Levels.Info
  {
    ParseDefaults();
  }

  /** `Manager.Channel`: a cached channel is reused as it is; otherwise the channel is created
      and cached. On failure nothing is cached. The logger starts from the channel context
      overridden by the shared context. */
  function Channel(m: Manager, name: string, reg: Registry, w: World): (r: Result<(Manager, Logger), string>)
    ensures name in m.channels ==> r == Success((m, NewLogger(m.channels[name], m.shared)))
    ensures name !in m.channels ==> (r.Success? <==> CreateChannel(m, name, reg, w).Success?)
    ensures name !in m.channels && r.Failure? ==> r.error == CreateChannel(m, name, reg, w).error
    ensures r.Success? ==> (
      var (m', l) := r.value;
      && m'.config == m.config && m'.defaultChannel == m.defaultChannel && m'.shared == m.shared
      && m'.channels.Keys == m.channels.Keys + {name}
      && (forall n :: n in m.channels ==> m'.channels[n] == m.channels[n])
      && l.channel == m'.channels[name]
      && l == NewLogger(l.channel, m.shared))
  {
    if name in m.channels then Success((m, NewLogger(m.channels[name], m.shared)))
    else match CreateChannel(m, name, reg, w)
      case Failure(err) => Failure(err)
      case Success(ch) => Success((m.(channels := m.channels[name := ch]), NewLogger(ch, m.shared)))
  }

  /** Channels are created once: asking again for a channel that was just created returns the
      same channel and manager, whatever the registry and the world look like by then. */
  lemma ChannelIsCached(m: Manager, name: string, reg: Registry, w: World, reg2: Registry, w2: World)
    ensures Channel(m, name, reg, w).Success? ==>
      var (m', l) := Channel(m, name, reg, w).value;
      Channel(m', name, reg2, w2) == Success((m', l))
  {
  }

  /** `Channel` keeps `Valid`. */
  lemma ChannelKeepsValid(m: Manager, name: string, reg: Registry, w: World)
    requires Valid(m)
    ensures Channel(m, name, reg, w).Success? ==> Valid(Channel(m, name, reg, w).value.0)
  {
    if name !in m.channels && CreateChannel(m, name, reg, w).Success? {
      assert name in m.config.channels;
    }
  }

  /** `Manager.Default`. */
  function Default(m: Manager, reg: Registry, w: World): (r: Result<(Manager, Logger), string>)
    ensures m.defaultChannel in m.channels ==> r == Success((m, NewLogger(m.channels[m.defaultChannel], m.shared)))
    ensures m.defaultChannel !in m.channels ==> (r.Success? <==> CreateChannel(m, m.defaultChannel, reg, w).Success?)
    ensures m.defaultChannel !in m.channels && r.Failure? ==> r.error == CreateChannel(m, m.defaultChannel, reg, w).error
    ensures r.Success? ==> (
      var (m', l) := r.value;
      && m'.config == m.config && m'.defaultChannel == m.defaultChannel && m'.shared == m.shared
      && m'.channels.Keys == m.channels.Keys + {m.defaultChannel}
      && (forall n :: n in m.channels ==> m'.channels[n] == m.channels[n])
      && l.channel == m'.channels[m.defaultChannel]
      && l == NewLogger(l.channel, m.shared))
    ensures Valid(m) && r.Success? ==> r.value.1.channel.name == m.defaultChannel
    ensures m.defaultChannel !in m.channels && m.defaultChannel !in m.config.channels ==>
      r == Failure("channel [" + m.defaultChannel + "] is not defined")
  {
    Channel(m, m.defaultChannel, reg, w)
  }

  /** `Manager.SetDefault`: no validation; only the default name changes. */
  function SetDefault(m: Manager, name: string): (r: Manager)
    ensures r.defaultChannel == name
    ensures r.config == m.config && r.channels == m.channels && r.shared == m.shared
  {
    m.(defaultChannel := name)
  }

  /** Setting an unknown default is accepted; the error surfaces at the next `Default`. */
  lemma UnknownDefaultFailsLater(m: Manager, name: string, reg: Registry, w: World)
    requires name !in m.channels && name !in m.config.channels
    ensures Default(SetDefault(m, name), reg, w) == Failure("channel [" + name + "] is not defined")
  {
  }

  /** `Manager.ShareContext`: laid over the shared context and over the context of every channel
      created so far; nothing else changes. */
  function ShareContext(m: Manager, ctx: Context): (r: Manager)
    ensures r.config == m.config && r.defaultChannel == m.defaultChannel
    ensures r.shared == Overlay(m.shared, ctx)
    ensures r.channels.Keys == m.channels.Keys
    ensures forall n :: n in m.channels ==>
      r.channels[n] == m.channels[n].(ctx := Overlay(m.channels[n].ctx, ctx))
  {
    var chans := map n | n in m.channels :: m.channels[n].(ctx := Overlay(m.channels[n].ctx, ctx));
    m.(shared := Overlay(m.shared, ctx), channels := chans)
  }

  /** `Manager.SharedContext`: the shared context, as a copy. */
  function SharedContext(m: Manager): Context {
    m.shared
  }

  /** `Manager.FlushSharedContext`: only the shared context is cleared. */
  function FlushSharedContext(m: Manager): (r: Manager)
    ensures |SharedContext(r)| == 0
    ensures r.config == m.config && r.channels == m.channels && r.defaultChannel == m.defaultChannel
  {
    m.(shared := map[])
  }

  /** `ShareContext` and the management operations keep `Valid`. */
  lemma OperationsKeepValid(m: Manager, ctx: Context, name: string)
    requires Valid(m)
    ensures Valid(ShareContext(m, ctx)) && Valid(FlushSharedContext(m)) && Valid(SetDefault(m, name))
  {
  }

  /** Loggers of a channel opened after `ShareContext` see the shared values, and so do those of
      a channel opened before it. */
  lemma SharedContextReachesLoggers(m: Manager, ctx: Context, name: string, reg: Registry, w: World, k: string)
    requires k in ctx
    ensures Channel(ShareContext(m, ctx), name, reg, w).Success? ==>
      var l := Channel(ShareContext(m, ctx), name, reg, w).value.1;
      k in l.ctx && l.ctx[k] == ctx[k]
  {
  }

  /** The flush leaves what was already copied into cached channels: a logger of a channel that
      existed at `ShareContext` time still carries the shared key after the flush, while a
      channel first created after the flush does not. */
  lemma FlushKeepsChannelCopies(m: Manager, ctx: Context, name: string, reg: Registry, w: World, k: string)
    requires k in ctx
    ensures name in m.channels ==>
      var m' := FlushSharedContext(ShareContext(m, ctx));
      var l := Channel(m', name, reg, w).value.1;
      k in l.ctx && l.ctx[k] == ctx[k]
    ensures name !in m.channels && Channel(FlushSharedContext(ShareContext(m, ctx)), name, reg, w).Success? ==>
      |Channel(FlushSharedContext(ShareContext(m, ctx)), name, reg, w).value.1.ctx| == 0
  {
  }

  /** `Manager.Close`: every cached channel's driver is closed, in the map's arbitrary order; the
      cache is emptied and the last error seen is returned. */
  method Close(m: Manager, w: World) returns (m': Manager, err: Option<string>)
    ensures m' == m.(channels := map[])
    ensures err.None? <==> forall n :: n in m.channels ==> Shutdown(m.channels[n].driver, w).None?
    ensures err.Some? ==> exists n :: n in m.channels && Shutdown(m.channels[n].driver, w) == err
  {
    var remaining := m.channels.Keys;
    ghost var done: set<string> := {};
    err := None;
    while remaining != {}
      invariant remaining + done == m.channels.Keys && remaining !! done
      invariant err.None? <==> forall n :: n in done ==> Shutdown(m.channels[n].driver, w).None?
      invariant err.Some? ==> exists n :: n in done && Shutdown(m.channels[n].driver, w) == err
      decreases |remaining|
    {
      var n :| n in remaining;
      var r := Shutdown(m.channels[n].driver, w);
      if r.Some? {
        err := r;
      }
      remaining := remaining - {n};
      done := done + {n};
    }
    m' := m.(channels := map[]);
  }
}
