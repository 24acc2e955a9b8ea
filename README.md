# hunyaBOT moderation and OAuth core, in Dafny

This project models the decision and state logic of a Discord bot (hunyaBOT).
It covers four pieces:

- **Invite/URL filter** (`bot/cogs/invite_watch.py`, module `InviteWatch`, with the two patterns in `LinkPatterns`).
  A per-guild table is keyed by the guild id's decimal text. Each entry has `enabled`, `ignore` and `url_watch`.
  For every message the filter decides an ordered list of actions.
  An invite link in a guild with `enabled` set asks for a deletion and a 10-minute timeout.
  A URL in a guild with `url_watch` set asks for a deletion and a DM.
  The slash command `invite_watch` switches `enabled` for one guild.
- **OAuth 2.0 client** (`bot/cogs/auth.py`, module `Auth`, with `QueryString`).
  This covers the authorize URL (section 4.1.1 of RFC 6749) and the token request (section 4.1.3 of RFC 6749).
  It also covers the verify decision, which looks only at whether the token response (section 5.1 of RFC 6749) has an `access_token`.
  An administrator command sets the guild -> role table.
- **Callback store** (`AvanzareMk2.py`, module `CallbackStore`).
  This is the redirect endpoint of section 4.1.2 of RFC 6749.
  A request with a non-empty `code` and `state` is recorded as `auth_codes[state] = code`, and the last write wins.
  Any other request changes nothing.
- **Role panel** (`bot/cogs/role_panel.py`, module `RolePanel`).
  The command keeps the one to five roles it was given, in order.
  The view holds one button per role, and pressing a button toggles that role on the member who pressed it.

State that the source changes in place is a class:
- `InviteWatchCog.config`, the `invite_cfg` dict.
- `AuthCog.roles`.
- `AuthCodeStore.authCodes`, the `auth_codes` dict.
- `RolePanelView.items`.
- `Discord.Member.roles`, the member's role set.

Most methods' `ensures` tie the new state to a pure function of the old one: `SetDefault`, `WithEnabled`, `Granted`, `Accept` or `Toggle`.
The lemmas are stated about those functions.

Discord, Flask and aiohttp calls are modelled in two ways.
Deleting a message, a timeout and a DM are returned as `Action` values.
Adding or removing a role is an update of `Member.roles`, and role equality is by id, as in discord.py.
The token response is modelled only as its set of keys.
The configured `CLIENT_ID`, `CLIENT_SECRET` and `REDIRECT_URI` are parameters.
The administrator permission check is an `isAdmin` parameter.

The model follows the code as written.
The callback key is the raw `state` argument, and the authorize scope is only `identify`.
Verify only grants the mapped role.

## Model

| member | source | states |
|---|---|---|
| `Discord.IdString` | bot/cogs/invite_watch.py:28 | `str(guild.id)` is a non-empty string of decimal digits, a single digit exactly for ids below 10, ending in the id's last digit |
| `Discord.IdStringInjective` | bot/cogs/invite_watch.py:28-29 | distinct guild ids give distinct table keys, so one guild's entry is never read or written by another |
| `Discord.Member.AddRole` | bot/cogs/auth.py:51 | `add_roles` adds exactly that role id to the member's roles |
| `Discord.Member.RemoveRole` | bot/cogs/role_panel.py:21 | `remove_roles` removes exactly that role id |
| `LinkPatterns.IsSpace` | bot/cogs/invite_watch.py:7-8 | `\s` holds exactly for the 29 code points for which Python's `str.isspace` holds, listed one by one |
| `LinkPatterns.HasInviteLink` | bot/cogs/invite_watch.py:34 | `re.search(INVITE_REGEX, …)` succeeds iff `discord.gg/` or `discord.com/invite/`, followed by a non-space character, starts somewhere in the text |
| `LinkPatterns.HasUrl` | bot/cogs/invite_watch.py:41 | `re.search(URL_REGEX, …)` succeeds iff `http://` or `https://`, followed by a non-space character, starts somewhere in the text |
| `LinkPatterns.SearchFrom` | bot/cogs/invite_watch.py:34 | the scan from position i finds a match iff the marker, followed by a non-space character, starts at some position j >= i |
| `LinkPatterns.Search` | bot/cogs/invite_watch.py:34 | `re.search` on one literal prefix followed by `\S+` succeeds iff a match starts anywhere in the text |
| `LinkPatterns.OccursInContext` | bot/cogs/invite_watch.py:34 | a match stays a match whatever text is written before or after it, so matching is "anywhere in the text" |
| `LinkPatterns.MarkerThenChar` | bot/cogs/invite_watch.py:7-8 | a marker followed by any one non-space character is a match |
| `LinkPatterns.MarkerThenSpaceOnly` | bot/cogs/invite_watch.py:7-8 | a marker followed by any run of whitespace, or by nothing, is no match (`\S+` needs at least one character) |
| `LinkPatterns.InviteLinkAnywhere` | bot/cogs/invite_watch.py:7 | `discord.gg/` or `discord.com/invite/` followed by a non-space character is an invite link wherever it stands |
| `LinkPatterns.UrlAnywhere` | bot/cogs/invite_watch.py:8 | `http://` or `https://` followed by a non-space character is a URL wherever it stands |
| `InviteWatch.ConfigOf` | bot/cogs/invite_watch.py:29 | the entry that `setdefault` returns: the guild's own entry if it has one, and otherwise the entry `setdefault` inserts |
| `InviteWatch.SetDefault` | bot/cogs/invite_watch.py:29 | `setdefault` keeps an existing entry and otherwise adds the default one; every other key is unchanged |
| `InviteWatch.ActionsFor` | bot/cogs/invite_watch.py:31-43 | an ignored channel gives no action. The timeout is asked for iff `enabled` holds and an invite link occurs. The DM is asked for iff `url_watch` holds and a URL occurs. A deletion is asked for iff one of these fires. There is one deletion per rule that fires plus its one timeout or DM, so the list has 2 or 4 entries when something fires. Each timeout or DM comes right after a deletion, and no DM comes before a timeout |
| `InviteWatch.Decision` | bot/cogs/invite_watch.py:25-43 | bot authors and messages outside a guild get no action; other messages are judged by their guild's entry, or the default entry when the guild has none |
| `InviteWatch.WithEnabled` | bot/cogs/invite_watch.py:47-48 | after the command the table has exactly the old keys plus the calling guild's |
| `InviteWatch.InviteWatchCog.constructor` | bot/cogs/invite_watch.py:17 | the table is the stored one, or empty when there is no file |
| `InviteWatch.InviteWatchCog.OnMessage` | bot/cogs/invite_watch.py:24-43 | returns `Decision` on the table as it was. Skipped messages leave the table unchanged, because the skip comes before `setdefault`. Any other message inserts the default entry for its guild if it was missing |
| `InviteWatch.InviteWatchCog.SetInviteWatch` | bot/cogs/invite_watch.py:46-50 | the table becomes `WithEnabled` of the old one, and the reply is the fixed confirmation |
| `InviteWatch.FirstMessageInsertsDefault` | bot/cogs/invite_watch.py:28-29 | the first message in a guild without an entry inserts exactly `{enabled: False, ignore: [], url_watch: False}` under its key, and no action is taken |
| `InviteWatch.DefaultConfigTakesNoAction` | bot/cogs/invite_watch.py:29 | with the default entry no message gets any action |
| `InviteWatch.IgnoredChannelTakesNoAction` | bot/cogs/invite_watch.py:31-32 | a message in an ignored channel gets no action whatever it says |
| `InviteWatch.SetInviteWatchTouchesOnlyEnabled` | bot/cogs/invite_watch.py:47-48 | the command changes only `enabled` of the calling guild. Its `ignore` and `url_watch` keep their values, and every other guild keeps its entry, or keeps having none |
| `InviteWatch.BothRulesFire` | bot/cogs/invite_watch.py:34-43 | with both rules on and the channel not ignored, a message with an invite link and a URL gets [delete, timeout, delete, DM], in that order |
| `InviteWatch.InviteUrlIsBoth` | bot/cogs/invite_watch.py:7-8 | `https://discord.gg/x` matches both patterns |
| `Auth.OAuthUrl` | bot/cogs/auth.py:8-14 | `OAUTH_URL` opens with the authorize endpoint and `?`, ends with `&response_type=code&scope=identify`, and its length is that of the fixed text plus the two configured values |
| `Auth.OAuthUrlIsEndpointAndQuery` | bot/cogs/auth.py:8-14 | `OAUTH_URL` is the authorize endpoint, `?`, then `client_id`, `redirect_uri`, `response_type=code`, `scope=identify`, joined by `&` |
| `Auth.OAuthUrlCarriesAuthorizeParams` | bot/cogs/auth.py:8-14 | when the client id and the redirect URI hold no `&`, `#`, `%` or `+`, splitting the URL gives back the endpoint and exactly the four parameters of section 4.1.1 of RFC 6749, in that order |
| `Auth.UnescapedAmpersandSplitsRedirectUri` | bot/cogs/auth.py:10-11 | nothing is percent-encoded: a redirect URI with an `&` is cut short at it, and the URL then reads as five parameters |
| `Auth.TokenRequestForm` | bot/cogs/auth.py:34-40 | the `data=` form has distinct keys and carries `grant_type=authorization_code`, the user's `code`, the client id and the redirect URI |
| `Auth.TokenRequestIsCodeGrant` | bot/cogs/auth.py:32-40 | the token request carries `grant_type=authorization_code`, the user's `code`, the client id and the redirect URI |
| `Auth.TokenRequestMatchesAuthorizeUrl` | bot/cogs/auth.py:34-40 | when neither configured value holds `&`, `#`, `%` or `+`, the token request's `client_id` and `redirect_uri` are the ones the authorize URL carried |
| `Auth.VerifyDecision` | bot/cogs/auth.py:44-53 | without `access_token` the reply is "認証失敗" and nothing is granted. With it the reply is "認証完了" whether or not a role was granted. A role is granted iff the guild has a non-zero mapped id that the guild resolves, and it is that role |
| `Auth.Granted` | bot/cogs/auth.py:47-51 | verify never removes a role and adds at most the granted one |
| `Auth.AuthCog.constructor` | bot/cogs/auth.py:17-19 | the guild -> role table starts empty |
| `Auth.AuthCog.SetAuthRole` | bot/cogs/auth.py:55-59 | an administrator overwrites the calling guild's entry with the role's id and every other entry is kept; anyone else changes nothing |
| `Auth.AuthCog.Verify` | bot/cogs/auth.py:29-53 | the reply and the member's new roles are those `VerifyDecision` and `Granted` give |
| `Auth.SetRoleThenVerify` | bot/cogs/auth.py:47-58 | after an administrator maps a guild to a role the guild resolves, a successful verify there grants exactly that role; verify in other guilds is decided as before |
| `Auth.GrantIsIdempotent` | bot/cogs/auth.py:51 | granting the same outcome again changes nothing more |
| `CallbackStore.Accept` | AvanzareMk2.py:37-43 | a request missing `code` or `state`, or with either empty, leaves the table unchanged. A valid one maps `state` to `code` and keeps every other entry |
| `CallbackStore.Reply` | AvanzareMk2.py:40-45 | the success acknowledgement is returned iff both arguments are given and non-empty, and the failure message otherwise |
| `CallbackStore.AuthCodeStore.constructor` | AvanzareMk2.py:22-26 | the table is the stored one, or empty whenever loading failed |
| `CallbackStore.AuthCodeStore.Callback` | AvanzareMk2.py:36-45 | the new table and the page are those `Accept` and `Reply` give |
| `CallbackStore.LastWriteWins` | AvanzareMk2.py:43 | after any series of requests each state holds the code of its last valid request, or what it held before if it had none |
| `CallbackStore.RepeatedCallbackReplaces` | AvanzareMk2.py:43 | a second valid callback for the same state replaces the first code, leaving one entry |
| `RolePanel.Present` | bot/cogs/role_panel.py:46 | the kept roles are exactly the given ones, never more than there were arguments |
| `RolePanel.PresentAppend` | bot/cogs/role_panel.py:46 | filtering commutes with concatenation, so the arguments' order is kept |
| `RolePanel.PanelRoles` | bot/cogs/role_panel.py:46 | the panel has 1 to 5 roles and `r1` comes first. A role is on it iff it is `r1` or one of the given `r2`..`r5` |
| `RolePanel.PanelRolesInOrder` | bot/cogs/role_panel.py:46 | the panel is `r1` followed by each of `r2`..`r5` that was given, in argument order |
| `RolePanel.Toggle` | bot/cogs/role_panel.py:20-23 | pressing flips the bound role: the member has it afterwards iff not before, and no other role changes |
| `RolePanel.ToggleTwice` | bot/cogs/role_panel.py:20-23 | pressing the same button twice restores the original role set |
| `RolePanel.RolePanelView.constructor` | bot/cogs/role_panel.py:13-31 | one button per role, in the roles' order, each labelled with its role's name and bound to it |
| `RolePanel.RolePanelView.AddItem` | bot/cogs/role_panel.py:31 | `add_item` appends the button |
| `RolePanel.RolePanelView.Press` | bot/cogs/role_panel.py:19-28 | the presser's roles become `Toggle` of the old ones for the button's role, and the reply is always "✅ ロールを更新しました" |
| `RolePanel.OpenPanel` | bot/cogs/role_panel.py:36-51 | the command answers with the prompt and a fresh view with one button per `PanelRoles` entry |

## Left out

- Message deletion, timeouts, DMs, adding and removing roles, and replies are runtime calls. They are returned actions or set updates; their failures are not modelled. One consequence: when both rules fire, the runtime may refuse the second deletion of an already-deleted message and abort the handler before the DM.
- The 10-minute timeout is computed from the wall clock (`datetime.now`); only the fixed 10-minute duration is kept.
- The token exchange over HTTP is not modelled; only the key set of its JSON response is kept. A response that is not JSON raises in the source; that path is not modelled.
- Percent-encoding of the token request body is done by the HTTP library and is not modelled; the form is the list of its fields.
- Auth.OAuthUrlCarriesAuthorizeParams: stated only for a client id and redirect URI without `&`, `#`, `%` or `+`. `OAUTH_URL` escapes nothing, so with those characters a real reader cuts the URL at `#` and decodes `%XX` and `+`, and it does not read back the configured values. `Auth.UnescapedAmpersandSplitsRedirectUri` shows the `&` case.
- Auth.TokenRequestMatchesAuthorizeUrl: stated only for values without `&`, `#`, `%` or `+`. The token request body is encoded by the HTTP library while the authorize URL is not, so with those characters the provider reads a different `redirect_uri` from the URL than from the token request.
- JSON file loading and saving (`load`, `save`, `save_auth_codes`) is file I/O. Only the resulting start-up table is kept, and a save that raises after the table was updated is not modelled.
- In AvanzareMk2.py:22-26 any load failure gives an empty `auth_codes`; a load that yields a non-dictionary is not modelled. In bot/cogs/invite_watch.py:10-17, `load` has no fallback: a missing file gives an empty table, but a corrupt `invite.json` raises at import and the cog never loads. That failure is not modelled.
- The Flask thread that serves `/callback` next to the bot is not modelled. This is concurrency, and nothing in the bot reads `auth_codes`.
- `Auth.AuthCog.Verify`, `InviteWatch.InviteWatchCog.SetInviteWatch`: a command issued outside a guild (`interaction.guild` is `None`) raises in the source. The models take the guild id as a parameter instead.
- The `/auth` command (bot/cogs/auth.py:21-27) only shows a button whose reply is `OAUTH_URL`. It is UI wiring around the modelled URL.
- Start-up plumbing in AvanzareMk2.py (extension loading, command sync, the `/` route, logging) is not modelled. Its import of `AuthCog` (line 9) names a class that bot/cogs/auth.py does not define; that wiring is not modelled either.
