/** The Slack driver's construction rules and its payload builder (slack_driver.go). */
module SlackDrivers {
  import opened Wrappers
  import opened Text
  import opened Levels
  import opened Configs
  import opened Entries

  /** A constructed Slack driver (the HTTP client is not part of the model). */
  datatype SlackDriver = SlackDriver(
    webhookUrl: string,
    username: string,
    iconEmoji: string,
    iconUrl: string,
    channel: string,
    timeout: int,
    async: bool)

  datatype SlackField = SlackField(title: string, value: string, short: bool)

  datatype SlackAttachment = SlackAttachment(
    color: string,
    title: string,
    text: string,
    fields: seq<SlackField>,
    footer: string,
    footerIcon: string,
    timestamp: int,
    markdownIn: seq<string>)

  datatype SlackMessage = SlackMessage(
    username: string,
    iconEmoji: string,
    iconUrl: string,
    channel: string,
    text: string,
    attachments: seq<SlackAttachment>)

  const FooterIcon := "https://avatars.slack-edge.com/2019-01-17/123456789_abc123_48.png"

  /** Fields whose rendered value has fewer bytes than this are shown side by side. */
  const ShortLimit := 40

  /** `NewSlackDriver`: the Slack settings and a webhook URL are required; an unset timeout,
      username or emoji takes its default and every set value passes through unchanged. */
  function NewSlackDriver(cfg: ChannelConfig): (r: Result<SlackDriver, string>)
    ensures cfg.slack.None? ==> r == Failure("slack configuration is required")
    ensures cfg.slack.Some? && cfg.slack.value.webhookUrl == "" ==> r == Failure("slack webhook URL is required")
    ensures r.Success? <==> cfg.slack.Some? && cfg.slack.value.webhookUrl != ""
    ensures r.Success? ==> (
      var c := cfg.slack.value;
      && r.value.webhookUrl == c.webhookUrl
      && r.value.iconUrl == c.iconUrl && r.value.channel == c.slackChannel && r.value.async == c.async
      && r.value.timeout == (if c.timeout == 0 then DefaultTimeout else c.timeout)
      && r.value.username == (if c.username == "" then DefaultUsername else c.username)
      && r.value.iconEmoji == (if c.iconEmoji == "" then DefaultEmoji else c.iconEmoji))
    ensures r.Success? ==> r.value.timeout != 0 && r.value.username != "" && r.value.iconEmoji != ""
  {
    match cfg.slack
    case None => Failure("slack configuration is required")
    case Some(c) =>
      if c.webhookUrl == "" then Failure("slack webhook URL is required")
      else
        Success(SlackDriver(
          c.webhookUrl,
          if c.username == "" then DefaultUsername else c.username,
          if c.iconEmoji == "" then DefaultEmoji else c.iconEmoji,
          c.iconUrl,
          c.slackChannel,
          if c.timeout == 0 then DefaultTimeout else c.timeout,
          c.async))
  }

  /** `SlackDriver.Name`. */
  function Name(d: SlackDriver): (r: string)
    ensures r == "slack"
  {
    "slack"
  }

  /** `formatSlackValue`: strings and byte slices verbatim, integers in decimal, booleans as
      true/false; other values (maps, slices, floats, structs) as the JSON/`%v` text they carry. */
  function FormatSlackValue(v: Value): (r: string)
    ensures v.Str? ==> r == v.s
    ensures v.Bytes? ==> r == v.text
    ensures v.Int? ==> r == IntToDecimal(v.i)
    ensures v.Bool? ==> (r == "true" <==> v.b) && (r == "false" <==> !v.b)
  {
    match v
    case Str(s) => s
    case Bytes(t) => t
    case Int(i) => IntToDecimal(i)
    case Bool(b) => if b then "true" else "false"
    case Opaque(_, j) => j
  }

  /** The character `formatFieldTitle` puts at index i: an ASCII lower-case letter is raised
      when it starts the string or follows '_'; every other character is kept. */
  function TitleChar(s: string, i: nat): char
    requires i < |s|
  {
    if (i == 0 || s[i - 1] == '_') && 'a' <= s[i] <= 'z' then (s[i] as int - 32) as char else s[i]
  }

  /** Reference definition of `formatFieldTitle`, character by character. */
  function FormatFieldTitle(s: string): (r: string)
    ensures |r| == |s|
    ensures forall i :: 0 <= i < |s| ==> r[i] == TitleChar(s, i)
  {
    seq(|s|, i requires 0 <= i < |s| => TitleChar(s, i))
  }

  /** The Go loop of `formatFieldTitle`, with its `capitalize` flag, proved equal to the reference. */
  method FormatFieldTitleLoop(s: string) returns (result: string)
    ensures result == FormatFieldTitle(s)
  {
    result := "";
    var capitalize := true;
    var i := 0;
    while i < |s|
      invariant 0 <= i <= |s|
      invariant |result| == i
      invariant forall j :: 0 <= j < i ==> result[j] == TitleChar(s, j)
      invariant capitalize <==> (i == 0 || s[i - 1] == '_')
    {
      var c := s[i];
      if c == '_' {
        result := result + "_";
        capitalize := true;
      } else {
        if capitalize {
          if 'a' <= c <= 'z' {
            c := (c as int - 32) as char;
          }
          capitalize := false;
        }
        result := result + [c];
      }
      i := i + 1;
    }
  }

  /** The title keeps every '_', changes only letters a-z at index 0 or after '_', and making a
      title of a title changes nothing. */
  lemma FieldTitleProperties(s: string)
    ensures forall i :: 0 <= i < |s| && s[i] == '_' ==> FormatFieldTitle(s)[i] == '_'
    ensures forall i :: 0 <= i < |s| && FormatFieldTitle(s)[i] != s[i] ==>
      'a' <= s[i] <= 'z' && (i == 0 || s[i - 1] == '_')
    ensures FormatFieldTitle(FormatFieldTitle(s)) == FormatFieldTitle(s)
  {
    var t := FormatFieldTitle(s);
    forall i | 0 <= i < |s|
      ensures FormatFieldTitle(t)[i] == t[i]
    {
      if i > 0 {
        assert t[i - 1] == '_' <==> s[i - 1] == '_';
      }
    }
  }

  /** The attachment field for one context entry. */
  function ContextField(key: string, v: Value): (f: SlackField)
    ensures f.title == FormatFieldTitle(key) && f.value == FormatSlackValue(v)
    ensures f.short <==> Utf8Len(f.value) < ShortLimit
  {
    var value := FormatSlackValue(v);
    SlackField(FormatFieldTitle(key), value, Utf8Len(value) < ShortLimit)
  }

  /** The context fields, in the iteration order `keys` (Go's map order is unspecified). */
  function ContextFields(ctx: Context, keys: seq<string>): (fs: seq<SlackField>)
    ensures |fs| <= |keys|
  {
    if keys == [] then []
    else (if keys[0] in ctx then [ContextField(keys[0], ctx[keys[0]])] else []) + ContextFields(ctx, keys[1..])
  }

  /** The footer's channel: the entry's, or "default" when it has none. */
  function FooterChannel(channel: string): (r: string)
    ensures r != ""
    ensures channel != "" ==> r == channel
    ensures channel == "" ==> r == "default"
  {
    if channel == "" then "default" else channel
  }

  /** The trailing "Exception" field, present only when the entry carries an exception. */
  function ExceptionFields(e: Entry, encode: ExceptionInfo -> NonEmptyString): seq<SlackField> {
    if e.exception.Some? then [SlackField("Exception", "```" + ExceptionJson(e, encode) + "```", false)] else []
  }

  /** `buildMessage`: one attachment coloured and titled by level; its fields are Message,
      Level, the context fields and the optional Exception field; the footer names the sender
      and the channel. `keys` is the map iteration order and `encode` the JSON encoder. */
  function BuildMessage(d: SlackDriver, e: Entry, keys: seq<string>, encode: ExceptionInfo -> NonEmptyString): (m: SlackMessage)
    ensures m.username == d.username && m.channel == d.channel && m.text == ""
    ensures d.iconUrl != "" ==> m.iconUrl == d.iconUrl && m.iconEmoji == ""
    ensures d.iconUrl == "" ==> m.iconUrl == "" && m.iconEmoji == d.iconEmoji
    ensures |m.attachments| == 1
    ensures var a := m.attachments[0];
      && a.color == SlackColor(e.level)
      && a.title == Emoji(e.level) + " " + Levels.Name(e.level)
      && a.timestamp == e.timestamp
      && a.footer == d.username + " | " + FooterChannel(e.channel)
      && a.footerIcon == FooterIcon
      && |a.fields| >= 2
      && a.fields[0] == SlackField("Message", e.message, false)
      && a.fields[1] == SlackField("Level", Levels.Name(e.level), true)
      && a.fields[2..] == ContextFields(e.context, keys) + ExceptionFields(e, encode)
  {
    var attachment := SlackAttachment(
      SlackColor(e.level),
      Emoji(e.level) + " " + Levels.Name(e.level),
      "",
      [SlackField("Message", e.message, false), SlackField("Level", Levels.Name(e.level), true)]
        + ContextFields(e.context, keys) + ExceptionFields(e, encode),
      d.username + " | " + FooterChannel(e.channel),
      FooterIcon,
      e.timestamp,
      ["text", "fields"]);
    var base := SlackMessage(d.username, d.iconEmoji, "", d.channel, "", [attachment]);
    if d.iconUrl != "" then base.(iconUrl := d.iconUrl, iconEmoji := "") else base
  }

  /** Under a map iteration order there is exactly one field per context entry, in that order,
      each titled from its key and short exactly when the value has fewer than 40 bytes; every
      entry of the context gets its field. */
  lemma ContextFieldsPerEntry(ctx: Context, keys: seq<string>)
    requires Enumerates(keys, ctx.Keys)
    ensures |ContextFields(ctx, keys)| == |keys| == |ctx|
    ensures forall i :: 0 <= i < |keys| ==> ContextFields(ctx, keys)[i] == ContextField(keys[i], ctx[keys[i]])
    ensures forall k :: k in ctx ==> ContextField(k, ctx[k]) in ContextFields(ctx, keys)
  {
    FieldsOfListedKeys(ctx, keys);
    EnumerationSize(keys, ctx.Keys);
  }

  lemma {:induction false} FieldsOfListedKeys(ctx: Context, keys: seq<string>)
    requires forall i :: 0 <= i < |keys| ==> keys[i] in ctx
    ensures |ContextFields(ctx, keys)| == |keys|
    ensures forall i :: 0 <= i < |keys| ==> ContextFields(ctx, keys)[i] == ContextField(keys[i], ctx[keys[i]])
    decreases |keys|
  {
    if keys != [] {
      FieldsOfListedKeys(ctx, keys[1..]);
    }
  }

  /** The Exception field appears exactly when there is an exception, fenced in backticks. */
  lemma ExceptionFieldPresence(e: Entry, encode: ExceptionInfo -> NonEmptyString)
    ensures ExceptionFields(e, encode) == [] <==> e.exception.None?
    ensures e.exception.Some? ==> (
      && ExceptionFields(e, encode)[0].title == "Exception"
      && ExceptionFields(e, encode)[0].value == "```" + encode(e.exception.value) + "```"
      && !ExceptionFields(e, encode)[0].short)
  {
  }

  /** Every character of this string takes two bytes in UTF-8. */
  lemma {:induction false} TwoByteLen(s: string)
    requires forall i :: 0 <= i < |s| ==> 0x80 <= s[i] as int < 0x800
    ensures Utf8Len(s) == 2 * |s|
    decreases |s|
  {
    if s != [] {
      TwoByteLen(s[1..]);
    }
  }

  /** The short rule counts bytes, not characters: twenty accented letters make a full-width
      field although the value is only twenty characters long. */
  lemma ShortRuleCountsBytes()
    ensures var v := seq(20, _ => '\U{00E9}');
      |v| < ShortLimit && !ContextField("note", Str(v)).short
  {
    var v := seq(20, _ => '\U{00E9}');
    TwoByteLen(v);
  }
}
