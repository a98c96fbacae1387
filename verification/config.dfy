/** Configuration records, defaults and functional options (config.go). */
module Configs {
  import opened Wrappers

  /** One second, in the nanoseconds of Go's `time.Duration`. */
  const Second: int := 1_000_000_000

  const DefaultPath := "logs/app.log"
  const DefaultDateFormat := "2006-01-02 15:04:05"
  const DefaultUsername := "GoLog"
  const DefaultEmoji := ":robot_face:"
  const DefaultTimeout: int := 10 * Second

  datatype FileConfig = FileConfig(
    path: string,
    maxSize: int,
    maxBackups: int,
    maxAge: int,
    compress: bool,
    permission: string,
    dateFormat: string)

  datatype SlackConfig = SlackConfig(
    webhookUrl: string,
    username: string,
    iconEmoji: string,
    iconUrl: string,
    slackChannel: string,
    timeout: int,
    async: bool)

  datatype StackConfig = StackConfig(channels: seq<string>, ignoreExceptions: bool)

  /** A channel's settings; each driver-specific part is a nil-able pointer in Go. */
  datatype ChannelConfig = ChannelConfig(
    driver: string,
    level: string,
    file: Option<FileConfig>,
    slack: Option<SlackConfig>,
    stack: Option<StackConfig>)

  datatype Config = Config(default: string, channels: map<string, ChannelConfig>, appName: string)

  /** The file settings `NewFileChannelConfig` starts from, before any option. */
  function FileDefaults(path: string): FileConfig {
    FileConfig(path, 100, 3, 28, true, "", DefaultDateFormat)
  }

  /** `DefaultConfig`: one "file" channel that is the default. */
  function DefaultConfig(): (c: Config)
    ensures c.default in c.channels
    ensures c.channels.Keys == {"file"}
  {
    Config("file", map["file" := ChannelConfig("file", "debug", Some(FileDefaults(DefaultPath)), None, None)], "GoLog")
  }

  datatype SlackOption =
    | WithSlackUsername(username: string)
    | WithSlackEmoji(emoji: string)
    | WithSlackChannel(channel: string)
    | WithSlackAsync(async: bool)

  datatype FileOption =
    | WithFileMaxSize(size: int)
    | WithFileDateFormat(format: string)

  /** Running one Slack option: it writes its own field and no other. */
  function ApplySlackOption(c: SlackConfig, o: SlackOption): (r: SlackConfig)
    ensures r.webhookUrl == c.webhookUrl && r.iconUrl == c.iconUrl && r.timeout == c.timeout
    ensures r.username == (if o.WithSlackUsername? then o.username else c.username)
    ensures r.iconEmoji == (if o.WithSlackEmoji? then o.emoji else c.iconEmoji)
    ensures r.slackChannel == (if o.WithSlackChannel? then o.channel else c.slackChannel)
    ensures r.async == (if o.WithSlackAsync? then o.async else c.async)
  {
    match o
    case WithSlackUsername(u) => c.(username := u)
    case WithSlackEmoji(e) => c.(iconEmoji := e)
    case WithSlackChannel(ch) => c.(slackChannel := ch)
    case WithSlackAsync(a) => c.(async := a)
  }

  /** The options run in argument order. */
  function ApplySlackOptions(c: SlackConfig, opts: seq<SlackOption>): SlackConfig
    decreases |opts|
  {
    if opts == [] then c else ApplySlackOptions(ApplySlackOption(c, opts[0]), opts[1..])
  }

  function ApplyFileOption(c: FileConfig, o: FileOption): (r: FileConfig)
    ensures r.path == c.path && r.maxBackups == c.maxBackups && r.maxAge == c.maxAge
    ensures r.compress == c.compress && r.permission == c.permission
    ensures r.maxSize == (if o.WithFileMaxSize? then o.size else c.maxSize)
    ensures r.dateFormat == (if o.WithFileDateFormat? then o.format else c.dateFormat)
  {
    match o
    case WithFileMaxSize(n) => c.(maxSize := n)
    case WithFileDateFormat(f) => c.(dateFormat := f)
  }

  function ApplyFileOptions(c: FileConfig, opts: seq<FileOption>): FileConfig
    decreases |opts|
  {
    if opts == [] then c else ApplyFileOptions(ApplyFileOption(c, opts[0]), opts[1..])
  }

  /** The value the last option of a kind carries, or `dflt` when no option of that kind occurs.
      `pick` extracts the value from an option of the kind and says None for the others. */
  function LastPicked<O, T>(opts: seq<O>, pick: O -> Option<T>, dflt: T): T
    decreases |opts|
  {
    if opts == [] then dflt
    else
      var rest := opts[..|opts| - 1];
      match pick(opts[|opts| - 1])
      case Some(v) => v
      case None => LastPicked(rest, pick, dflt)
  }

  function PickUsername(o: SlackOption): Option<string> {
    if o.WithSlackUsername? then Some(o.username) else None
  }
  function PickEmoji(o: SlackOption): Option<string> {
    if o.WithSlackEmoji? then Some(o.emoji) else None
  }
  function PickChannel(o: SlackOption): Option<string> {
    if o.WithSlackChannel? then Some(o.channel) else None
  }
  function PickAsync(o: SlackOption): Option<bool> {
    if o.WithSlackAsync? then Some(o.async) else None
  }
  function PickMaxSize(o: FileOption): Option<int> {
    if o.WithFileMaxSize? then Some(o.size) else None
  }
  function PickDateFormat(o: FileOption): Option<string> {
    if o.WithFileDateFormat? then Some(o.format) else None
  }

  /** Slack options applied in order: for each field the last option naming it wins, and the
      fields no option names keep their starting value. */
  lemma {:induction false} SlackOptionsLastWins(c: SlackConfig, opts: seq<SlackOption>)
    ensures ApplySlackOptions(c, opts) == c.(
      username := LastPicked(opts, PickUsername, c.username),
      iconEmoji := LastPicked(opts, PickEmoji, c.iconEmoji),
      slackChannel := LastPicked(opts, PickChannel, c.slackChannel),
      async := LastPicked(opts, PickAsync, c.async))
    decreases |opts|
  {
    if opts != [] {
      var init := opts[..|opts| - 1];
      var last := opts[|opts| - 1];
      SlackOptionsSnoc(c, init, last);
      SlackOptionsLastWins(c, init);
      assert opts == init + [last];
    }
  }

  lemma {:induction false} SlackOptionsSnoc(c: SlackConfig, init: seq<SlackOption>, last: SlackOption)
    ensures ApplySlackOptions(c, init + [last]) == ApplySlackOption(ApplySlackOptions(c, init), last)
    decreases |init|
  {
    if init == [] {
      assert init + [last] == [last];
    } else {
      assert (init + [last])[0] == init[0];
      assert (init + [last])[1..] == init[1..] + [last];
      SlackOptionsSnoc(ApplySlackOption(c, init[0]), init[1..], last);
    }
  }

  /** File options applied in order: the last option for a field wins; other fields keep their value. */
  lemma {:induction false} FileOptionsLastWins(c: FileConfig, opts: seq<FileOption>)
    ensures ApplyFileOptions(c, opts) == c.(
      maxSize := LastPicked(opts, PickMaxSize, c.maxSize),
      dateFormat := LastPicked(opts, PickDateFormat, c.dateFormat))
    decreases |opts|
  {
    if opts != [] {
      var init := opts[..|opts| - 1];
      var last := opts[|opts| - 1];
      FileOptionsSnoc(c, init, last);
      FileOptionsLastWins(c, init);
      assert opts == init + [last];
    }
  }

  lemma {:induction false} FileOptionsSnoc(c: FileConfig, init: seq<FileOption>, last: FileOption)
    ensures ApplyFileOptions(c, init + [last]) == ApplyFileOption(ApplyFileOptions(c, init), last)
    decreases |init|
  {
    if init == [] {
      assert init + [last] == [last];
    } else {
      assert (init + [last])[0] == init[0];
      assert (init + [last])[1..] == init[1..] + [last];
      FileOptionsSnoc(ApplyFileOption(c, init[0]), init[1..], last);
    }
  }

  /** `NewSlackChannelConfig`: a "slack" channel at level "error" carrying only Slack settings. */
  function NewSlackChannelConfig(webhookUrl: string, opts: seq<SlackOption>): (r: ChannelConfig)
    ensures r.driver == "slack" && r.level == "error"
    ensures r.slack.Some? && r.file.None? && r.stack.None?
    ensures r.slack.value.webhookUrl == webhookUrl
    ensures r.slack.value.timeout == DefaultTimeout && r.slack.value.iconUrl == ""
    ensures r.slack.value.username == LastPicked(opts, PickUsername, DefaultUsername)
    ensures r.slack.value.iconEmoji == LastPicked(opts, PickEmoji, DefaultEmoji)
    ensures r.slack.value.slackChannel == LastPicked(opts, PickChannel, "")
    ensures r.slack.value.async == LastPicked(opts, PickAsync, false)
  {
    var base := SlackConfig(webhookUrl, DefaultUsername, DefaultEmoji, "", "", DefaultTimeout, false);
    SlackOptionsLastWins(base, opts);
    ChannelConfig("slack", "error", None, Some(ApplySlackOptions(base, opts)), None)
  }

  /** `NewFileChannelConfig`: a "file" channel at level "debug" carrying only file settings. */
  function NewFileChannelConfig(path: string, opts: seq<FileOption>): (r: ChannelConfig)
    ensures r.driver == "file" && r.level == "debug"
    ensures r.file.Some? && r.slack.None? && r.stack.None?
    ensures r.file.value.path == path
    ensures r.file.value.maxBackups == 3 && r.file.value.maxAge == 28 && r.file.value.compress
    ensures r.file.value.maxSize == LastPicked(opts, PickMaxSize, 100)
    ensures r.file.value.dateFormat == LastPicked(opts, PickDateFormat, DefaultDateFormat)
  {
    FileOptionsLastWins(FileDefaults(path), opts);
    ChannelConfig("file", "debug", Some(ApplyFileOptions(FileDefaults(path), opts)), None, None)
  }

  /** The default configuration's one channel is exactly what the file builder makes for the
      default path with no options. */
  lemma DefaultConfigIsFileBuilderOutput()
    ensures DefaultConfig().channels["file"] == NewFileChannelConfig(DefaultPath, [])
    ensures DefaultConfig().default == "file" && DefaultConfig().appName == "GoLog"
  {
  }
}
