/**
 * The invite/URL moderation filter of bot/cogs/invite_watch.py: a per-guild
 * configuration table keyed by the guild id's decimal text, the decision taken
 * for each incoming message, and the command that switches invite watching.
 */
module InviteWatch {

  import opened Wrappers
  import opened Discord
  import opened LinkPatterns

  /** One guild's entry: `{"enabled": …, "ignore": […], "url_watch": …}`. */
  datatype GuildConfig = GuildConfig(enabled: bool, ignore: seq<Snowflake>, urlWatch: bool)

  /** The entry `setdefault` inserts for a guild seen for the first time. */
  const DefaultConfig := GuildConfig(false, [], false)

  type ConfigTable = map<string, GuildConfig>

  /** What `on_message` reads of a message; `guild` is `None` outside a guild. */
  datatype Message = Message(authorIsBot: bool, guild: Option<Snowflake>, channel: Snowflake, content: string)

  /** The effects `on_message` asks the runtime for, in the order it asks. */
  datatype Action = DeleteMessage | TimeoutAuthor(minutes: nat, reason: string) | SendDm(text: string)

  const TimeoutMinutes: nat := 10
  const InviteReason := "招待リンク送信"
  const UrlWarning := "URLは禁止されています"
  const InviteTimeout := TimeoutAuthor(TimeoutMinutes, InviteReason)
  const UrlDm := SendDm(UrlWarning)
  const CommandReply := "設定しました"

  /** The entry a guild key has, or the default one it would be given. */
  function ConfigOf(table: ConfigTable, key: string): (cfg: GuildConfig)
    ensures cfg == SetDefault(table, key)[key]
    ensures key in table ==> cfg == table[key]
  {
    if key in table then table[key] else DefaultConfig
  }

  /** `table.setdefault(key, default)`, as a new table. */
  function SetDefault(table: ConfigTable, key: string): (t: ConfigTable)
    ensures key in t && t[key] == (if key in table then table[key] else DefaultConfig)
    ensures t.Keys == table.Keys + {key}
    ensures forall k :: k in table ==> t[k] == table[k]
  {
    if key in table then table else table[key := DefaultConfig]
  }

  /** The early return of `on_message`: bot authors and messages outside a guild. */
  predicate Skipped(m: Message) {
    m.authorIsBot || m.guild.None?
  }

  /** Whether the invite rule, respectively the URL rule, fires for `m` under `cfg`. */
  predicate InviteRuleFires(cfg: GuildConfig, m: Message) {
    m.channel !in cfg.ignore && cfg.enabled && HasInviteLink(m.content)
  }

  predicate UrlRuleFires(cfg: GuildConfig, m: Message) {
    m.channel !in cfg.ignore && cfg.urlWatch && HasUrl(m.content)
  }

  /** The actions for a message in a guild whose entry is `cfg`. */
  function ActionsFor(cfg: GuildConfig, m: Message): (actions: seq<Action>)
    ensures m.channel in cfg.ignore ==> actions == []
    ensures InviteTimeout in actions <==> InviteRuleFires(cfg, m)
    ensures UrlDm in actions <==> UrlRuleFires(cfg, m)
    ensures DeleteMessage in actions <==> InviteRuleFires(cfg, m) || UrlRuleFires(cfg, m)
    // one deletion per rule that fires, plus its one timeout or one DM
    ensures |actions| == (if InviteRuleFires(cfg, m) then 2 else 0) + (if UrlRuleFires(cfg, m) then 2 else 0)
    ensures forall a :: a in actions ==> a in {DeleteMessage, InviteTimeout, UrlDm}
    // every timeout or DM is asked for right after a deletion
    ensures forall i :: 0 <= i < |actions| && actions[i] != DeleteMessage ==> 0 < i && actions[i - 1] == DeleteMessage
    // the invite group comes before the URL group
    ensures forall i, j :: 0 <= i < j < |actions| && actions[i] == UrlDm ==> actions[j] != InviteTimeout
  {
    if m.channel in cfg.ignore then []
    else
      (if cfg.enabled && HasInviteLink(m.content) then [DeleteMessage, InviteTimeout] else [])
      + (if cfg.urlWatch && HasUrl(m.content) then [DeleteMessage, UrlDm] else [])
  }

  /** The decision `on_message` takes against the table as it stands. */
  function Decision(table: ConfigTable, m: Message): (actions: seq<Action>)
    ensures Skipped(m) ==> actions == []
    ensures !Skipped(m) ==> actions == ActionsFor(ConfigOf(table, IdString(m.guild.value)), m)
  {
    if Skipped(m) then [] else ActionsFor(ConfigOf(table, IdString(m.guild.value)), m)
  }

  /** The table after the `invite_watch` command sets `enabled` for one guild. */
  function WithEnabled(table: ConfigTable, guild: Snowflake, enabled: bool): (t: ConfigTable)
    ensures t.Keys == table.Keys + {IdString(guild)}
  {
    var key := IdString(guild);
    table[key := ConfigOf(table, key).(enabled := enabled)]
  }

  /** The module-level `invite_cfg` table and the two handlers that use it. */
  class InviteWatchCog {
    var config: ConfigTable

    /** `invite_cfg = load("invite", {})`: the stored table, or an empty one when there is no file. */
    constructor (stored: Option<ConfigTable>)
      ensures config == if stored.Some? then stored.value else map[]
    {
      config := if stored.Some? then stored.value else map[];
    }

    /** `on_message`: returns the actions asked for; inserts the default entry unless skipped. */
    method OnMessage(m: Message) returns (actions: seq<Action>)
      modifies this
      ensures actions == Decision(old(config), m)
      ensures Skipped(m) ==> config == old(config)
      ensures !Skipped(m) ==> config == SetDefault(old(config), IdString(m.guild.value))
    {
      if m.authorIsBot || m.guild.None? {
        return [];
      }
      var gid := IdString(m.guild.value);
      config := SetDefault(config, gid);
      var cfg := config[gid];
      if m.channel in cfg.ignore {
        return [];
      }
      actions := [];
      if cfg.enabled && HasInviteLink(m.content) {
        actions := actions + [DeleteMessage, InviteTimeout];
      }
      if cfg.urlWatch && HasUrl(m.content) {
        actions := actions + [DeleteMessage, UrlDm];
      }
    }

    /** The `invite_watch` slash command, issued from `guild`. */
    method SetInviteWatch(guild: Snowflake, enabled: bool) returns (reply: string)
      modifies this
      ensures config == WithEnabled(old(config), guild, enabled)
      ensures reply == CommandReply
    {
      var gid := IdString(guild);
      config := SetDefault(config, gid);
      var cfg := config[gid];
      config := config[gid := cfg.(enabled := enabled)];
      reply := CommandReply;
    }
  }

  /** The first message in a guild without an entry inserts exactly the default
      entry under the guild's key, and that entry takes no action. */
  lemma FirstMessageInsertsDefault(table: ConfigTable, m: Message)
    requires !Skipped(m) && IdString(m.guild.value) !in table
    ensures SetDefault(table, IdString(m.guild.value)) == table[IdString(m.guild.value) := DefaultConfig]
    ensures Decision(table, m) == []
  {
    DefaultConfigTakesNoAction(m);
  }

  /** With the default entry nothing fires, whatever the message says. */
  lemma DefaultConfigTakesNoAction(m: Message)
    ensures ActionsFor(DefaultConfig, m) == []
  {
  }

  /** A message in an ignored channel takes no action, whatever its content. */
  lemma IgnoredChannelTakesNoAction(table: ConfigTable, m: Message)
    requires !Skipped(m) && m.channel in ConfigOf(table, IdString(m.guild.value)).ignore
    ensures Decision(table, m) == []
  {
  }

  /** The command changes `enabled` of the calling guild only: `ignore` and
      `url_watch` keep their values and every other guild reads the same entry. */
  lemma {:induction false} SetInviteWatchTouchesOnlyEnabled(table: ConfigTable, guild: Snowflake, enabled: bool, other: Snowflake)
    ensures ConfigOf(WithEnabled(table, guild, enabled), IdString(guild))
         == ConfigOf(table, IdString(guild)).(enabled := enabled)
    ensures other != guild ==>
              && (IdString(other) in WithEnabled(table, guild, enabled) <==> IdString(other) in table)
              && ConfigOf(WithEnabled(table, guild, enabled), IdString(other)) == ConfigOf(table, IdString(other))
  {
    if other != guild && IdString(other) == IdString(guild) {
      IdStringInjective(other, guild);
    }
  }

  /** A message that both invites and links, in a guild with both rules on,
      asks for two deletions: the invite group first, then the URL group. */
  lemma BothRulesFire(table: ConfigTable, m: Message)
    requires !Skipped(m)
    requires var cfg := ConfigOf(table, IdString(m.guild.value));
             cfg.enabled && cfg.urlWatch && m.channel !in cfg.ignore
    requires HasInviteLink(m.content) && HasUrl(m.content)
    ensures Decision(table, m) == [DeleteMessage, InviteTimeout, DeleteMessage, UrlDm]
  {
  }

  /** `https://discord.gg/x` is caught by both patterns. */
  lemma InviteUrlIsBoth(content: string)
    requires content == "https://discord.gg/x"
    ensures HasInviteLink(content) && HasUrl(content)
  {
    assert content == "https://" + InviteMarkers[0] + ['x'] + "";
    MarkerThenChar("https://", InviteMarkers[0], 'x', "");
    assert content == "" + UrlMarkers[1] + ['d'] + "iscord.gg/x";
    MarkerThenChar("", UrlMarkers[1], 'd', "iscord.gg/x");
    assert Search(content, InviteMarkers[0]) && Search(content, UrlMarkers[1]);
  }
}
