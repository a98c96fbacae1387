# golog core in Dafny

This project models the core of golog, a Laravel-style channel logger for Go. It proves properties of that model.

Each **channel** is a named configuration that binds a **driver** and a minimum **level**:

- the **file** driver appends formatted text records;
- the **slack** driver builds and posts a webhook payload;
- a **stack** driver fans one entry out to several member drivers;
- a user-registered custom driver.

A **Manager** creates channels lazily from a **Config** and caches them per name. It also keeps a **shared context** that is merged into every logger. A **Logger** is a channel plus its own context map. It drops entries below the channel's level and hands every other entry to the driver.

## Modules

| Module | File | Models |
|---|---|---|
| `Wrappers` | wrappers.dfy | `Option` and `Result`. |
| `Text` | text.dfy | The Go string functions the core relies on: `strings.TrimSpace`, `strings.ToUpper`, `strings.Contains`, `%d`, and `len` as UTF-8 byte length. |
| `Levels` | level.dfy | The eight levels, their name, emoji, colour and Slack colour tables, and `ParseLevel`. |
| `Configs` | config.dfy | Configuration records, `DefaultConfig`, the two channel-config builders and their functional options. |
| `Entries` | entry.dfy | The log entry, its builders, the stack-trace filter and cap, and whether the two JSON renderings are empty. |
| `FileDrivers` | file_driver.dfy | `NewFileDriver` and the text record format. |
| `SlackDrivers` | slack_driver.dfy | `NewSlackDriver`, `buildMessage` and `formatFieldTitle`. |
| `Drivers` | driver.dfy | The driver interface as a datatype, the factory registry, and what `Log` and `Close` do for each driver kind, including the stack. |
| `Loggers` | logger.dfy | Loggers, context merging, the level gate and the per-level entry points. |
| `Managers` | manager.dfy | The manager: channel creation and caching, stacks, shared context, `Close`. |

## Modelling choices

- **Values, not pointers.** Entries, loggers and managers are immutable values, and each operation returns the new value.
  - A channel is identified by its name: the `Managers.Valid` invariant keeps each cached channel filed under its own name. "The same channel" means the same name in the cache.
  - A logger holds a snapshot of its channel taken when it was made. After `ShareContext` the cached channel value has a new context, so an earlier logger's `channel` no longer equals the cached value, where Go would still share the pointer.
  - Output does not depend on that difference: logging reads only the logger's own copy of the context, never the channel's.
- **The outside world is a parameter.** `Drivers.World` supplies everything the model does not compute:
  - the order in which Go iterates a map's keys;
  - `time.Format`, and the JSON encoding of an exception;
  - whether opening a log file succeeds, and what a custom factory returns;
  - whether each driver's `Log` or `Close` call fails.
- **File and webhook output are sinks.** `Drivers.Sinks` collects the records appended to each file and the Slack messages handed to the transport.
- **Map iteration order.** Formatters take the key order as a `seq<string>`. Properties that hold for every order are stated under `Entries.Enumerates`, which says the sequence lists the map's keys once each. `Drivers.RangesOverMaps` says a world's key order is such an enumeration for every key set.
- **Context values.** The `Value` datatype keeps the cases the formatters tell apart: strings, integers, booleans, byte slices and everything else.
  - A byte slice is represented by the text it decodes to.
  - Any other Go value carries its `%v` rendering and its Slack rendering.
- **Timestamps** are Unix seconds.
- **The registry is passed in.** Go keeps the driver registry in a package-level variable; here it is a `Drivers.Registry` value passed to the manager operations.
- **Caller positions are inputs.** `WithError` receives the runtime's frames and caller position as a `CallSite` value.
- **ToUpper is partial.** `Text.ToUpper` upper-cases ASCII letters, plus the two non-ASCII letters whose upper case is ASCII: U+0131 gives 'I' and U+017F gives 'S'. That covers every input that can match a level keyword. All other characters are left unchanged.

## Where the behaviour differs from the design

In each case the model follows the code.

- **Zero-driver stacks.** A stack whose every member factory fails while `IgnoreExceptions` is set is still built, with no drivers (`Managers.StackMembersBuilt`).
- **Context keys.** File context lines print keys verbatim; they are not title-cased.
- **Trace summary count.** For a trace of 11 or more frames, the file format prints frames #0 to #10, which is eleven frames, then "... and len-10 more". The summary claims one more frame than is left; an 11-frame trace ends in "... and 1 more" (`FileDrivers.TraceSummaryCount`).
- **Empty level.** A channel with an empty level gets Info, but a stack channel gets Debug (`Managers.EmptyLevelDefaults`).

## Model

| member | source | states |
|---|---|---|
| Text.TrimLeft | level.go:125 | The result is a suffix of the input, what was cut is all Unicode white space, and the result does not start with white space. |
| Text.TrimRight | level.go:125 | The result is a prefix of the input, what was cut is all white space, and the result does not end with white space. |
| Text.TrimSpacePadding | level.go:125 | Trimming ignores any white-space padding on either side. |
| Text.ToUpper | level.go:125 | Length is preserved and each character is upper-cased on its own. |
| Text.UpperCharFacts | level.go:125 | Upper-casing a character is idempotent and does not change whether it is white space. |
| Text.NatToDecimal | file_driver.go:89 | The `%d` rendering of a natural number is non-empty and made only of digits. |
| Text.NatToDecimalValue | file_driver.go:89 | Read back as a decimal number, the rendering is the number itself, with no leading zero. |
| Text.IntToDecimalValue | file_driver.go:92 | `%d` of any integer is its digits, after a minus sign exactly when it is negative. |
| Text.Utf8Len | slack_driver.go:144 | Go's `len` of a string lies between its rune count and four times its rune count. |
| Text.Utf8LenAscii | slack_driver.go:144 | For pure ASCII text, `len` equals the rune count. |
| Levels.Name | level.go:28-49 | The eight defined levels get their table name and every other value gets "UNKNOWN", in both directions; names are upper case. |
| Levels.NameInjective | level.go:28-49 | Distinct defined levels have distinct names. |
| Levels.Emoji | level.go:52-73 | A defined level gets its table emoji; a value gets the fallback emoji exactly when it is undefined. |
| Levels.Color | level.go:76-97 | A defined level gets its table colour; the reset code appears exactly for undefined values. |
| Levels.SlackColor | level.go:100-121 | A defined level gets its Slack colour; the grey fallback appears exactly for undefined values. |
| Levels.ParseLevel | level.go:124-145 | Parsing is total and always yields a defined level; an input whose trimmed upper-cased form is no keyword yields Info. |
| Levels.ParseNameRoundTrip | level.go:124-145 | Parsing a level's name gives the level back, for all eight levels. |
| Levels.ParseAlias | level.go:132-141 | WARN, ERR, CRIT and EMERG parse to Warning, Error, Critical and Emergency, the same levels as their full names. |
| Levels.ParseDefaults | level.go:142-143 | The empty string and an unknown word both parse to Info. |
| Levels.ParseIgnoresCase | level.go:125 | Upper-casing the input never changes the parsed level. |
| Levels.ParseIgnoresPadding | level.go:125 | White-space padding on either side never changes the parsed level. |
| Levels.UpperCommutesWithTrim | level.go:125 | Trimming and upper-casing commute. |
| Levels.ScaleOrder | level.go:8-25 | Debug < Info < Notice < Warning < Error < Critical < Alert < Emergency, and every defined level lies between Debug and Emergency. |
| Configs.DefaultConfig | config.go:93-112 | The default channel exists, and the only channel is "file". |
| Configs.DefaultConfigIsFileBuilderOutput | config.go:93-112 | The default "file" channel equals `NewFileChannelConfig("logs/app.log")` with no options; the default name is "file" and the app name "GoLog". |
| Configs.ApplySlackOption | config.go:137-163 | Each Slack option sets only its own field. |
| Configs.ApplyFileOption | config.go:190-202 | Each file option sets only its own field. |
| Configs.SlackOptionsLastWins | config.go:127-129 | After a list of Slack options, each field holds the value of the last option for it, or its starting value when no option sets it. |
| Configs.SlackOptionsSnoc | config.go:127-129 | Options apply in argument order: appending one option applies it after all the earlier ones. |
| Configs.FileOptionsLastWins | config.go:180-182 | After a list of file options, each field holds the value of the last option for it, or its starting value. |
| Configs.FileOptionsSnoc | config.go:180-182 | File options apply in argument order. |
| Configs.NewSlackChannelConfig | config.go:115-132 | The result has driver "slack", level "error" and only the Slack part. The URL is kept, timeout is 10 s and the icon URL is empty. Username, emoji, channel and async come from the last option setting them, otherwise "GoLog", ":robot_face:", "" and false. |
| Configs.NewFileChannelConfig | config.go:166-185 | The result has driver "file", level "debug" and only the file part. The path is kept, with 3 backups, 28 days and compression on. Max size and date format come from the last option setting them, otherwise 100 and the default layout. |
| Entries.Overlay | entry.go:53-58 | The keys are the union of both maps; the top map's values win and the base's other values are kept. |
| Entries.NewEntry | entry.go:43-50 | A new entry has the given level, message and clock reading, an empty context, no exception and no channel. |
| Entries.WithContext | entry.go:53-58 | Only the context changes: the given keys win and every other key keeps its value. |
| Entries.With | entry.go:61-64 | Exactly one key is (re)bound; every other key and every other field is unchanged. |
| Entries.ErrorClass | entry.go:109-117 | A type name starting with '*' loses exactly that '*'; any other type name is the class as it is. |
| Entries.WithError | entry.go:67-87 | A nil error leaves the entry identical. A non-nil error sets only the exception: its class and message come from the error, code is 0, the trace is the kept trace, and file and line come from the caller position ("" and 0 when unavailable). |
| Entries.WithException | entry.go:90-100 | All six exception fields are stored verbatim and nothing else changes. |
| Entries.SetChannel | entry.go:103-106 | Only the channel changes. |
| Entries.Walked | entry.go:122-127 | An empty stack is reported as a single zero frame; a non-empty walk is reported frame for frame. |
| Entries.Unfiltered | entry.go:126-131 | Every kept trace line is the text of a walked frame whose file path does not contain "runtime/". |
| Entries.KeptTraceBounds | entry.go:126-139 | The captured trace has at most 20 lines, and none comes from a runtime frame. |
| Entries.UnfilteredPrefixGrows | entry.go:126-139 | Walking more frames never removes lines already kept. |
| Entries.CaptureStackTrace | entry.go:120-141 | The Go loop, with its two `break`s, yields exactly the first 20 lines of the filtered walk. |
| Entries.ContextJson | entry.go:149-158 | The context JSON is empty exactly when the context is empty. |
| Entries.ExceptionJson | entry.go:161-170 | The exception JSON is empty exactly when there is no exception. |
| FileDrivers.NewFileDriver | file_driver.go:19-51 | A missing file configuration is the error "file configuration is required". Otherwise the driver exists exactly when the directory and file could be opened, and an empty path or date format becomes "logs/app.log" or "2006-01-02 15:04:05". |
| FileDrivers.Name | file_driver.go:134-136 | The driver name is "file". |
| FileDrivers.FormatValue | file_driver.go:111-120 | Strings and byte slices are printed verbatim, integers in decimal, and booleans as "true" or "false". |
| FileDrivers.ChannelLabel | file_driver.go:67-70 | An empty channel is shown as "local"; any other channel is shown as is. |
| FileDrivers.FormatFrame | file_driver.go:64-107 | A record starts with "[stamp] channel.LEVEL: message" and ends with a newline. |
| FileDrivers.ContextBlockPresence | file_driver.go:76-81 | The context block is present exactly when the context is non-empty. |
| FileDrivers.ContextLinesPerEntry | file_driver.go:76-81 | For any enumeration of the keys there is one line per entry, in enumeration order, with the key printed verbatim; every key's line is present. |
| FileDrivers.ExceptionFields | file_driver.go:84-93 | The exception block always has Class and Message; Code appears exactly when non-zero, and File:Line exactly when the file is non-empty. |
| FileDrivers.PrintTrace | file_driver.go:94-103 | The Go trace loop, with its `break`, prints the same lines as the reference definition. |
| FileDrivers.TraceLinesIndented | file_driver.go:94-103 | Every trace line starts with six spaces, one level under the "Trace:" heading, and has text after them. |
| FileDrivers.ShortTrace | file_driver.go:94-103 | A trace of at most 10 frames is printed in full, numbered from #0, with no summary. |
| FileDrivers.LongTrace | file_driver.go:94-103 | A trace of at least 11 frames prints #0 to #10, then a summary counting len-10 more. |
| FileDrivers.TraceSummaryCount | file_driver.go:96-100 | For every trace of 11 or more frames, the last line is the summary, and the frame lines printed plus the remainder it claims come to len+1; an 11-frame trace ends in "... and 1 more". |
| SlackDrivers.NewSlackDriver | slack_driver.go:53-89 | A missing Slack configuration or an empty webhook URL is an error, and these are the only errors. Timeout, username and emoji default to 10 s, "GoLog" and ":robot_face:" when unset; everything else passes through. |
| SlackDrivers.Name | slack_driver.go:265-267 | The driver name is "slack". |
| SlackDrivers.FormatSlackValue | slack_driver.go:176-205 | Strings and byte slices are shown verbatim, integers in decimal, and booleans as "true" or "false". |
| SlackDrivers.FormatFieldTitle | slack_driver.go:208-230 | The title has the input's length, and each character is the input character, upper-cased only at a word start. |
| SlackDrivers.FormatFieldTitleLoop | slack_driver.go:208-230 | The Go loop over runes, with its `capitalize` flag, computes the reference title. |
| SlackDrivers.FieldTitleProperties | slack_driver.go:208-230 | Every '_' is kept. Only a letter at index 0 or right after '_' can change, and only from a–z to A–Z. Applying the transform twice is the same as applying it once. |
| SlackDrivers.ContextField | slack_driver.go:141-151 | A context field is titled with the formatted key and holds the formatted value; it is short exactly when the value is under 40 bytes. |
| SlackDrivers.ShortRuleCountsBytes | slack_driver.go:144 | The short rule counts bytes, not characters: a 20-character value of two-byte letters is not short. |
| SlackDrivers.FooterChannel | slack_driver.go:164-167 | An empty channel is shown as "default"; any other channel is shown as is. |
| SlackDrivers.BuildMessage | slack_driver.go:106-173 | The username and channel come from the driver. A set icon URL replaces the emoji. There is exactly one attachment, with the level's colour and "emoji NAME" title; Message (long) and Level (short) come first, then the context fields, then the exception field; the footer is "username \| channel". |
| SlackDrivers.ContextFieldsPerEntry | slack_driver.go:141-151 | For any enumeration of the keys there is one field per entry, in enumeration order; every entry's field is present. |
| SlackDrivers.ExceptionFieldPresence | slack_driver.go:154-161 | The Exception field is present exactly when the entry has an exception; it is long and wraps the exception JSON in triple backticks. |
| Drivers.Name | driver.go:4-13 | Each driver kind reports its name: "file", "slack", "stack", or the custom driver's own. |
| Drivers.RegisterDriver | driver.go:25-27 | The name is bound to the new factory, and every other name keeps its binding. |
| Drivers.GetDriverFactory | driver.go:30-33 | A factory is found exactly when the name is registered, and it is the registered one. |
| Drivers.InitialRegistryContents | driver.go:19-22 | The initial registry holds exactly "file" and "slack"; "stack" and every other name are absent. |
| Drivers.RegisterLastWins | driver.go:25-27 | After two registrations under one name, the second factory is found; other names are unaffected. |
| Drivers.Build | manager.go:76-84 | The built-in factories succeed exactly when their constructors do, and a custom factory exactly when its code does; no factory yields a stack. |
| Drivers.LastFailure | manager.go:214-222 | Errors aggregate to nothing exactly when no member failed; otherwise to a failure after which no member failed. |
| Drivers.StackLog | manager.go:213-223 | Every member is called in order, with no short-circuit. The result is nil when exceptions are ignored; otherwise it is nil exactly when no member failed, and else the last member error. |
| Drivers.StackClose | manager.go:226-234 | Every member is closed; the result is the last close error, nil exactly when none failed. |
| Drivers.StackCloseIgnoresFlag | manager.go:226-234 | A stack's close result does not depend on `ignoreExceptions`. |
| Drivers.FileLogAppends | file_driver.go:54-61 | A successful write appends exactly the formatted record to the driver's own file; a failed one changes nothing; other files are untouched. |
| Drivers.FileRecordListsContext | file_driver.go:76-81 | When the key order is a real map iteration, the record carries one context line per entry and none is missing. |
| Drivers.SlackMessageListsContext | slack_driver.go:141-151 | When the key order is a real map iteration, the message has Message, Level, one field per context entry with none missing, and the Exception field when present. |
| Drivers.SlackLogPosts | slack_driver.go:92-103 | A Slack `Log` hands exactly one message, built from the entry, to the transport for the driver's webhook and writes no file; an asynchronous driver reports no error, a synchronous one reports the send outcome. |
| Drivers.StackFileMembersWrite | manager.go:213-223 | In a stack of file drivers on distinct paths, every member whose write succeeds gets the record, whatever the other members do. |
| Loggers.NewLogger | logger.go:14-32 | The logger's context is the channel context overlaid by the shared context; shared values win. |
| Loggers.WithContext | logger.go:35-52 | The new logger is on the same channel, with the given map laid over the old context. |
| Loggers.With | logger.go:55-57 | Exactly one key is (re)bound on the same channel. |
| Loggers.WithoutContext | logger.go:60-77 | Exactly the listed keys are removed, and every other binding is kept. |
| Loggers.WithThenWithout | logger.go:55-77 | Binding a key and removing it again gives the original context without that key. |
| Loggers.MergeContext | logger.go:209-217 | Every key of every map survives the merge; no maps give the empty context. |
| Loggers.MergeContextKeys | logger.go:209-217 | The merge invents no keys. |
| Loggers.MergeContextLastWins | logger.go:209-217 | A key takes its value from the last map that binds it. |
| Loggers.LogEntry | logger.go:80-102 | A call below the channel level is dropped and touches nothing. Otherwise the driver gets one entry with the level, message, time and channel name, and the logger context overridden by the call context; it has no exception. |
| Loggers.LogEntryWithError | logger.go:105-128 | As `log`; the exception is exactly what `WithError` attaches for the given error. |
| Loggers.NilErrorIsPlainLog | logger.go:105-128 | With a nil error, `logWithError` behaves exactly like `log`. |
| Loggers.LevelGate | logger.go:82-84 | A call at or above the channel's level always reaches the driver; one below never does. |
| Loggers.Log | logger.go:203-206 | `Log` merges its contexts and delivers at the given level. |
| Loggers.Debug | logger.go:131-134 | Delivers at Debug with the merged contexts. |
| Loggers.Info | logger.go:137-140 | Delivers at Info with the merged contexts. |
| Loggers.Notice | logger.go:143-146 | Delivers at Notice with the merged contexts. |
| Loggers.Warning | logger.go:149-152 | Delivers at Warning with the merged contexts. |
| Loggers.Error | logger.go:155-158 | Delivers at Error with the merged contexts. |
| Loggers.Critical | logger.go:167-170 | Delivers at Critical with the merged contexts. |
| Loggers.Alert | logger.go:179-182 | Delivers at Alert with the merged contexts. |
| Loggers.Emergency | logger.go:191-194 | Delivers at Emergency with the merged contexts. |
| Loggers.LogWithException | logger.go:105-128 | The exception is attached exactly when the error is non-nil, and carries its message. |
| Loggers.ErrorWithException | logger.go:161-164 | Delivers at Error; the exception is present exactly when the error is non-nil. |
| Loggers.CriticalWithException | logger.go:173-176 | Delivers at Critical; the exception is present exactly when the error is non-nil. |
| Loggers.AlertWithException | logger.go:185-188 | Delivers at Alert; the exception is present exactly when the error is non-nil. |
| Loggers.EmergencyWithException | logger.go:197-200 | Delivers at Emergency; the exception is present exactly when the error is non-nil. |
| Loggers.CallContextWins | logger.go:89-98 | A key given at the call overrides the same key bound on the logger. |
| Managers.NewManager | manager.go:26-39 | A nil configuration means the default one; the default channel is the configuration's; no channels and no shared context exist yet. |
| Managers.StackMembers | manager.go:102-122 | A successful stack has at most one member per listed channel, and none of them is a stack. |
| Managers.CreateStackMembers | manager.go:102-122 | The Go member loop, with its early returns and `continue`, computes the reference member list. |
| Managers.StackMembersBuilt | manager.go:102-127 | With exceptions ignored, the stack holds exactly the buildable members in list order, possibly none. Otherwise it is built exactly when every member builds, and then holds all of them. |
| Managers.BadMemberFails | manager.go:103-112 | A member that is undefined or of an unregistered kind fails the stack wherever it is listed, whatever `IgnoreExceptions` says, even after skipped members; this includes a member of kind "stack". |
| Managers.FirstMemberError | manager.go:104-112 | An undefined first member gives "channel [name] in stack is not defined", and an unregistered one gives "driver [kind] is not supported". |
| Managers.CreateStackChannel | manager.go:97-140 | A missing or empty channel list is an error. A built stack channel carries the name, an empty context, the flag, and the members of the list. Its level is Debug for an empty level string and the parsed level otherwise. |
| Managers.CreateChannel | manager.go:65-94 | An undefined channel, an unregistered driver kind and a failing factory each give their own error; "stack" is handled before the registry is consulted; a built channel has the parsed level and an empty context. |
| Managers.EmptyLevelDefaults | manager.go:86-132 | An empty level gives Debug for a stack channel and Info for any other channel. |
| Managers.Channel | manager.go:42-62 | A cached name returns its channel and constructs nothing. Otherwise the channel is created and cached, and every other cached channel is kept; on failure nothing is cached. The logger starts from the channel context overlaid by the shared context. |
| Managers.ChannelIsCached | manager.go:42-62 | Asking again for a just-created channel returns the same channel and manager, even if the registry and the outside world have changed. |
| Managers.ChannelKeepsValid | manager.go:57-59 | Caching a channel keeps each cached channel filed under its own name, from a configured channel, with no nested stack. |
| Managers.Default | manager.go:143-145 | A cached default channel is returned with the manager unchanged. An uncached one is created and cached, and nothing else changes; `Default` fails exactly when creating it fails, with the same error. An unknown default gives "channel [name] is not defined". |
| Managers.SetDefault | manager.go:148-152 | Only the default name changes. |
| Managers.UnknownDefaultFailsLater | manager.go:143-152 | Setting an unknown default is accepted; the error surfaces at the next `Default`. |
| Managers.ShareContext | manager.go:155-169 | The map is laid over the shared context and over the context of every cached channel; nothing else changes. |
| Managers.FlushSharedContext | manager.go:184-188 | Only the shared context is emptied. |
| Managers.OperationsKeepValid | manager.go:148-188 | `ShareContext`, `FlushSharedContext` and `SetDefault` keep the manager invariant. |
| Managers.SharedContextReachesLoggers | manager.go:155-181 | After `ShareContext`, loggers of every channel see the shared values, whether the channel existed before or not. |
| Managers.FlushKeepsChannelCopies | manager.go:155-188 | After a flush, channels cached at `ShareContext` time keep the shared keys; a channel created after the flush starts empty. |
| Managers.Close | manager.go:191-204 | Every cached driver is closed in some order. The result is nil exactly when none failed, and otherwise one of the close errors. The cache is emptied and nothing else changes. |

## Left out

- **File I/O.** `os.MkdirAll`, `OpenFile`, `WriteString`, `Sync`, file `Close` and `FileDriver.Flush` are not modelled. Their outcomes come from `Drivers.World`, and a successful write appends to a sink.
- **HTTP.** `SlackDriver.send` (JSON marshalling, the HTTP request, the status check) and the `http.Client` are not modelled. A Slack `Log` records the message and the URL; the send outcome comes from `Drivers.World`.
- **Concurrency.**
  - The asynchronous goroutine of the Slack driver is modelled only by its effect on the returned error, which is always nil.
  - Mutexes are not modelled.
  - The window between the read and the insert in `Manager.Channel` is not modelled: caching is stated for sequential calls.
- **Go runtime and reflection.** `%T` is an input (`GoError.typeName`), and `runtime.Callers` and `runtime.Caller` are inputs (`CallSite`). Only the filter and cap over the reported frames are modelled.
- **JSON contents.** The bodies of `ToJSON`, `ContextJSON` and `ExceptionJSON`, and the JSON and float branches of `formatSlackValue`, are not modelled. Encoding is an oracle that returns non-empty text; only the emptiness rules are modelled.
- **Time.** `time.Now` is an input, and `time.Format` is an oracle.
- **Package-level API.** The singleton in golog.go is not part of this model, and neither are the sentinel errors in errors.go.
- **Unused configuration.** `MaxBackups`, `MaxAge`, `Compress` and `Permission` are carried but have no behaviour in the code.
- **Go integer width.** `Level` and all integers are unbounded. The code never relies on overflow.
- Entries.ExceptionJson: states only when the JSON is empty, not its contents, because the encoder is an oracle.
- Entries.ContextJson: states only when the JSON is empty, not its contents, because the encoder is an oracle.
- Text.ToUpper: upper-cases ASCII and the two letters whose upper case is ASCII, not all of Unicode.
- Configs.NewSlackChannelConfig: the defaults (10 s timeout, empty icon URL) are stated for the library's own options only. In Go an option is any `func(*SlackConfig)`, and a caller's own function may set any field; the model's options are a closed datatype of the library's options.
- Configs.NewFileChannelConfig: likewise, only the library's own file options are modelled; a caller's own `func(*FileConfig)` is not.
- Managers.ShareContext: a logger made before the call keeps its snapshot of the channel value, where Go shares the channel pointer. Output is unaffected, because logging reads only the logger's own context.
- Managers.Close: states which errors are possible, not which one is returned, because Go's map iteration order decides that.
