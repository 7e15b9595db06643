/** Discord session ids, the targets derived from them, and the parsing of targets. */
module DiscordTargets {
  import opened Wrappers
  import opened PyStrings

  // ---------- Session ids ----------

  /** `_derive_session_id`. */
  function SessionId(channelId: string, guildId: string, userId: string): string {
    var channel, guild, user := Strip(channelId), Strip(guildId), Strip(userId);
    if guild != "" then "discord:guild:" + guild + ":channel:" + channel
    else "discord:dm:" + if user != "" then user else channel
  }

  /** `_derive_interaction_session_id`; `isolated` says that this is a slash command and such commands get sessions of their own. */
  function InteractionSessionId(channelId: string, guildId: string, userId: string, isolated: bool): string {
    var channel, guild, user := Strip(channelId), Strip(guildId), Strip(userId);
    if !isolated then SessionId(channelId, guildId, userId)
    else if guild != "" && channel != "" && user != "" then "discord:guild:" + guild + ":channel:" + channel + ":slash:" + user
    else if user != "" then "discord:dm:" + user + ":slash"
    else SessionId(channelId, guildId, userId)
  }

  // ---------- Targets ----------

  function Tagged(kind: string, value: string): string {
    if value == "" then "" else kind + ":" + value
  }

  function DmTarget(payload: string): string {
    if EndsWith(payload, ":slash") then Tagged("user", Strip(payload[..|payload| - 6])) else Tagged("user", payload)
  }

  function WithoutSlash(payload: string): string {
    if Contains(payload, ":slash:") then Partition(payload, ":slash:").head else payload
  }

  function ChannelTarget(payload: string): string {
    var channel := WithoutSlash(payload);
    if Contains(channel, ":thread:") then Tagged("channel", Strip(Partition(channel, ":thread:").tail))
    else Tagged("channel", Strip(channel))
  }

  /** `_target_from_session_id` for a Discord session id. */
  function Target(sessionId: string): string {
    var raw := Strip(sessionId);
    if raw == "" then ""
    else if StartsWith(raw, "discord:dm:") then DmTarget(Strip(raw[11..]))
    else if StartsWith(raw, "discord:guild:") && Contains(Strip(raw[14..]), ":channel:") then
      ChannelTarget(Partition(Strip(raw[14..]), ":channel:").tail)
    else if StartsWith(raw, "discord:channel:") then Tagged("channel", Strip(raw[16..]))
    else if StartsWith(raw, "discord:thread:") then Tagged("channel", Strip(raw[15..]))
    else if Contains(raw, ":") then Strip(Partition(raw, ":").tail)
    else raw
  }

  // ---------- Parsing targets ----------

  datatype Kind = Nobody | Channel | User | Ambiguous
  datatype SendTarget = SendTarget(kind: Kind, value: string)

  /** `lstrip("!")`. */
  function WithoutBangs(s: string): string {
    if s != "" && s[0] == '!' then WithoutBangs(s[1..]) else s
  }

  function ChannelValue(value: string): string {
    var thread := Strip(Partition(value, ":thread:").tail);
    if Contains(value, ":thread:") && thread != "" then thread else value
  }

  function ParseKind(target: string): SendTarget {
    var lowered := Lower(target);
    if StartsWith(lowered, "channel:") then SendTarget(Channel, ChannelValue(Strip(target[8..])))
    else if StartsWith(lowered, "group:") then SendTarget(Channel, ChannelValue(Strip(target[6..])))
    else if StartsWith(lowered, "user:") then SendTarget(User, Strip(target[5..]))
    else if StartsWith(lowered, "dm:") then SendTarget(User, Strip(target[3..]))
    else if StartsWith(lowered, "direct:") then SendTarget(User, Strip(target[7..]))
    else
      var thread := Strip(Partition(target, ":thread:").tail);
      if Contains(target, ":thread:") && thread != "" then SendTarget(Channel, thread) else SendTarget(Ambiguous, target)
  }

  /** `_parse_send_target`. */
  function Parse(raw: string): SendTarget {
    var target := Strip(raw);
    if target == "" then SendTarget(Nobody, "")
    else if StartsWith(target, "<#") && EndsWith(target, ">") then SendTarget(Channel, Strip(Inner(target)))
    else if StartsWith(target, "<@") && EndsWith(target, ">") then SendTarget(User, WithoutBangs(Strip(Inner(target))))
    else if StartsWith(Lower(target), "discord:") then ParseKind(Strip(Partition(target, ":").tail))
    else ParseKind(target)
  }

  /** `target[2:-1]`. */
  function Inner(target: string): string {
    if |target| <= 3 then "" else target[2..|target| - 1]
  }

  // ---------- Round trips ----------

  lemma LowerConcat(a: string, b: string)
    ensures Lower(a + b) == Lower(a) + Lower(b)
  {
  }

  lemma PrefixOfConcat(a: string, b: string)
    ensures StartsWith(a + b, a) && (a + b)[|a|..] == b
  {
    assert (a + b)[..|a|] == a;
  }

  lemma PrefixKept(prefix: string, id: string)
    requires prefix != "" && Stripped(prefix) && id != "" && Stripped(id)
    ensures Strip(prefix + id) == prefix + id && StartsWith(prefix + id, prefix) && Strip((prefix + id)[|prefix|..]) == id
  {
    JoinIsStripped(prefix, id);
    PrefixOfConcat(prefix, id);
  }

  /** A tagged target is parsed to its id. */
  lemma ParseTagged(id: string)
    requires IsId(id)
    ensures Parse("channel:" + id) == SendTarget(Channel, id) && Parse("user:" + id) == SendTarget(User, id)
  {
    ParseAs("channel:", id);
    ParseAs("user:", id);
    PartitionMisses(id, ":thread:");
  }

  lemma ParseAs(prefix: string, id: string)
    requires IsId(id) && (prefix == "channel:" || prefix == "user:")
    ensures Parse(prefix + id) == ParseKind(prefix + id) && Strip((prefix + id)[|prefix|..]) == id
    ensures StartsWith(Lower(prefix + id), prefix)
    ensures prefix == "user:" ==> !StartsWith(Lower(prefix + id), "channel:") && !StartsWith(Lower(prefix + id), "group:")
  {
    var s := prefix + id;
    PrefixKept(prefix, id);
    LowerConcat(prefix, id);
    assert Lower(prefix) == prefix;
    PrefixOfConcat(prefix, Lower(id));
    NotPrefix(s, "<#", 0);
    NotPrefix(s, "<@", 0);
    NotPrefix(Lower(s), "discord:", 0);
    if prefix == "user:" {
      NotPrefix(Lower(s), "channel:", 0);
      NotPrefix(Lower(s), "group:", 0);
    }
  }

  lemma NoSuffix(id: string, suffix: string)
    requires suffix != "" && Free(id, suffix[0])
    ensures !EndsWith(id, suffix)
  {
    if |suffix| <= |id| { assert id[|id| - |suffix|..][0] == id[|id| - |suffix|]; }
  }

  lemma TargetOfDmPayload(payload: string)
    requires payload != "" && Stripped(payload)
    ensures Target("discord:dm:" + payload) == DmTarget(payload)
  {
    PrefixKept("discord:dm:", payload);
  }

  lemma TargetOfGuildPayload(payload: string)
    requires payload != "" && Stripped(payload) && Contains(payload, ":channel:")
    ensures Target("discord:guild:" + payload) == ChannelTarget(Partition(payload, ":channel:").tail)
  {
    PrefixKept("discord:guild:", payload);
    NotPrefix("discord:guild:" + payload, "discord:dm:", 8);
  }

  lemma TargetOfDm(user: string)
    requires IsId(user)
    ensures Target("discord:dm:" + user) == "user:" + user
  {
    TargetOfDmPayload(user);
    NoSuffix(user, ":slash");
  }

  lemma TargetOfDmSlash(user: string)
    requires IsId(user)
    ensures Target("discord:dm:" + user + ":slash") == "user:" + user
  {
    var payload := user + ":slash";
    assert "discord:dm:" + user + ":slash" == "discord:dm:" + payload;
    JoinIsStripped(user, ":slash");
    TargetOfDmPayload(payload);
    DmSlashPayload(user);
  }

  lemma DmSlashPayload(user: string)
    requires IsId(user)
    ensures DmTarget(user + ":slash") == "user:" + user
  {
    var payload := user + ":slash";
    assert payload[|payload| - 6..] == ":slash" && payload[..|payload| - 6] == user;
  }

  lemma ChannelTargetOf(channel: string)
    requires IsId(channel)
    ensures ChannelTarget(channel) == "channel:" + channel
  {
    PartitionMisses(channel, ":slash:");
    PartitionMisses(channel, ":thread:");
  }

  lemma ChannelTargetOfSlash(channel: string, user: string)
    requires IsId(channel) && IsId(user)
    ensures ChannelTarget(channel + ":slash:" + user) == "channel:" + channel
  {
    PartitionAt(channel, ":slash:", user);
    PartitionMisses(channel, ":thread:");
  }

  lemma GuildPayload(guild: string, rest: string)
    requires IsId(guild) && (rest == "" || Stripped(rest))
    ensures var payload := guild + ":channel:" + rest;
            && payload != "" && Stripped(payload) && Contains(payload, ":channel:") && Partition(payload, ":channel:").tail == rest
  {
    var payload := guild + ":channel:" + rest;
    PartitionAt(guild, ":channel:", rest);
    assert payload[0] == guild[0] && payload[|payload| - 1] == if rest == "" then ':' else rest[|rest| - 1];
  }

  /** A guild session: `rest` is the channel, with or without a user. */
  lemma TargetOfGuild(guild: string, rest: string)
    requires IsId(guild) && (rest == "" || Stripped(rest))
    ensures Target("discord:guild:" + (guild + ":channel:" + rest)) == ChannelTarget(rest)
  {
    GuildPayload(guild, rest);
    TargetOfGuildPayload(guild + ":channel:" + rest);
  }

  predicate IsIdOrEmpty(s: string) {
    s == "" || IsId(s)
  }

  /** Where an answer to a message goes: to its channel in a guild, else to the user, or to the channel if there is none. */
  function Recipient(channelId: string, guildId: string, userId: string): SendTarget {
    if guildId != "" then SendTarget(Channel, channelId) else SendTarget(User, if userId != "" then userId else channelId)
  }

  /** From the ids to the session id, to the target, and back. */
  lemma SessionRoundTrip(channelId: string, guildId: string, userId: string)
    requires IsId(channelId) && IsIdOrEmpty(guildId) && IsIdOrEmpty(userId)
    ensures Parse(Target(SessionId(channelId, guildId, userId))) == Recipient(channelId, guildId, userId)
  {
    if guildId != "" {
      assert "discord:guild:" + guildId + ":channel:" + channelId == "discord:guild:" + (guildId + ":channel:" + channelId);
      TargetOfGuild(guildId, channelId);
      ChannelTargetOf(channelId);
      ParseTagged(channelId);
    } else {
      var scope := if userId != "" then userId else channelId;
      TargetOfDm(scope);
      ParseTagged(scope);
    }
  }

  lemma GuildSlash(channelId: string, guildId: string, userId: string)
    requires IsId(channelId) && IsId(guildId) && IsId(userId)
    ensures Parse(Target(InteractionSessionId(channelId, guildId, userId, true))) == SendTarget(Channel, channelId)
  {
    var rest := channelId + ":slash:" + userId;
    assert rest == channelId + (":slash:" + userId);
    JoinIsStripped(":slash:", userId);
    JoinIsStripped(channelId, ":slash:" + userId);
    assert "discord:guild:" + guildId + ":channel:" + channelId + ":slash:" + userId
        == "discord:guild:" + (guildId + ":channel:" + rest);
    TargetOfGuild(guildId, rest);
    ChannelTargetOfSlash(channelId, userId);
    ParseTagged(channelId);
  }

  lemma DmSlash(channelId: string, guildId: string, userId: string)
    requires IsIdOrEmpty(channelId) && IsIdOrEmpty(guildId) && IsId(userId) && (guildId == "" || channelId == "")
    ensures Parse(Target(InteractionSessionId(channelId, guildId, userId, true))) == SendTarget(User, userId)
  {
    TargetOfDmSlash(userId);
    ParseTagged(userId);
  }

  /** Without a channel, the session id of a guild has no target. */
  lemma GuildWithoutChannel(guildId: string, userId: string)
    requires IsId(guildId)
    ensures Parse(Target(SessionId("", guildId, userId))) == SendTarget(Nobody, "")
  {
    assert SessionId("", guildId, userId) == "discord:guild:" + (guildId + ":channel:" + "");
    TargetOfGuild(guildId, "");
    PartitionMisses("", ":slash:");
    PartitionMisses("", ":thread:");
  }

  /**
   A slash command's own session leads to the same recipient as the shared one, except for a command from a
   guild without a channel: its own session leads to the user, the shared one nowhere.
   */
  lemma IsolationKeepsRecipientIff(channelId: string, guildId: string, userId: string)
    requires IsIdOrEmpty(channelId) && IsIdOrEmpty(guildId) && IsIdOrEmpty(userId)
    ensures Parse(Target(InteractionSessionId(channelId, guildId, userId, true))) == Parse(Target(SessionId(channelId, guildId, userId)))
            <==> guildId == "" || channelId != "" || userId == ""
  {
    if userId == "" {
    } else if guildId == "" {
      DmSlash(channelId, guildId, userId);
      TargetOfDm(userId);
      ParseTagged(userId);
    } else if channelId != "" {
      GuildSlash(channelId, guildId, userId);
      SessionRoundTrip(channelId, guildId, userId);
    } else {
      DmSlash(channelId, guildId, userId);
      GuildWithoutChannel(guildId, userId);
    }
  }
}
