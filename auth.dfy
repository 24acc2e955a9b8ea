/**
 * The OAuth 2.0 authorization-code client of bot/cogs/auth.py (RFC 6749):
 * the authorize URL it hands out (section 4.1.1), the token request it sends
 * (section 4.1.3), the verify decision that follows the token response
 * (section 5.1), and the guild -> role table set by administrators.
 */
module Auth {

  import opened Wrappers
  import opened Discord
  import opened QueryString

  const AuthorizeEndpoint := "https://discord.com/api/oauth2/authorize"
  const TokenEndpoint := "https://discord.com/api/oauth2/token"

  /** `OAUTH_URL`: plain concatenation, nothing is percent-encoded. The URL
      opens with the authorize endpoint and its `?`, and ends with the fixed
      `response_type` and `scope` parameters. */
  function OAuthUrl(clientId: string, redirectUri: string): (url: string)
    ensures AuthorizeEndpoint + "?" <= url
    ensures |url| == |AuthorizeEndpoint| + |clientId| + |redirectUri| + 59
    ensures url[|url| - 34..] == "&response_type=code&scope=identify"
  {
    UrlLiterals();
    UrlShape(AuthorizeEndpoint, "?client_id=", clientId, "&redirect_uri=", redirectUri,
             "&response_type=code", "&scope=identify");
    AuthorizeEndpoint
      + "?client_id=" + clientId
      + "&redirect_uri=" + redirectUri
      + "&response_type=code"
      + "&scope=identify"
  }

  lemma UrlLiterals()
    ensures "?client_id="[..1] == "?" && |"?client_id="| + |"&redirect_uri="| == 25
    ensures "&response_type=code" + "&scope=identify" == "&response_type=code&scope=identify"
  {
  }

  /** Where the pieces of a concatenation end up. */
  lemma UrlShape(e: string, a: string, c: string, b: string, r: string, x: string, y: string)
    requires |a| >= 1
    ensures var url := e + a + c + b + r + x + y;
            && e + a[..1] <= url
            && |url| == |e| + |a| + |c| + |b| + |r| + |x| + |y|
            && url[|url| - |x + y|..] == x + y
  {
    var url := e + a + c + b + r + x + y;
    assert url == (e + a[..1]) + (a[1..] + c + b + r + x + y);
    assert url == (e + a + c + b + r) + (x + y);
  }

  /** The authorization request parameters of section 4.1.1, in the URL's order. */
  function AuthorizeParams(clientId: string, redirectUri: string): seq<Param> {
    [ Param("client_id", clientId), Param("redirect_uri", redirectUri),
      Param("response_type", "code"), Param("scope", "identify") ]
  }

  /** The body of the token request (section 4.1.3), in the source's order. */
  function TokenRequestForm(clientId: string, clientSecret: string, code: string, redirectUri: string): (form: seq<Param>)
    ensures Param("grant_type", "authorization_code") in form && Param("code", code) in form
    ensures Param("redirect_uri", redirectUri) in form && Param("client_id", clientId) in form
    ensures forall i, j :: 0 <= i < j < |form| ==> form[i].key != form[j].key
  {
    FormKeysDiffer();
    [ Param("client_id", clientId), Param("client_secret", clientSecret),
      Param("grant_type", "authorization_code"), Param("code", code),
      Param("redirect_uri", redirectUri) ]
  }

  /** The fixed pieces of `OAUTH_URL`, cut at their `?`, `=` and `&`. */
  lemma AuthorizeUrlPieces()
    ensures "?client_id=" == "?" + "client_id" + "="
    ensures "&redirect_uri=" == "&" + "redirect_uri" + "="
    ensures "&response_type=code" == "&" + ("response_type" + "=" + "code")
    ensures "&scope=identify" == "&" + ("scope" + "=" + "identify")
  {
  }

  /** `OAUTH_URL` is the authorize endpoint, a `?`, and the encoded parameters. */
  lemma OAuthUrlIsEndpointAndQuery(clientId: string, redirectUri: string)
    ensures OAuthUrl(clientId, redirectUri)
         == AuthorizeEndpoint + "?" + EncodeQuery(AuthorizeParams(clientId, redirectUri))
  {
    var parts := EncodeParams(AuthorizeParams(clientId, redirectUri));
    var p0, p1, p2, p3 := parts[0], parts[1], parts[2], parts[3];
    assert parts == [p0, p1, p2, p3];
    JoinCons(p2, [p3], '&');
    JoinCons(p1, [p2, p3], '&');
    JoinCons(p0, [p1, p2, p3], '&');
    AuthorizeUrlPieces();
    ConcatShape(AuthorizeEndpoint, clientId, redirectUri, "?client_id=", "&redirect_uri=",
                "&response_type=code", "&scope=identify", "client_id", "redirect_uri", p2, p3);
  }

  lemma ConcatShape(e: string, c: string, r: string, a: string, b: string, cc: string, d: string,
                    k0: string, k1: string, q2: string, q3: string)
    requires a == "?" + k0 + "=" && b == "&" + k1 + "=" && cc == "&" + q2 && d == "&" + q3
    ensures e + a + c + b + r + cc + d == e + "?" + ((k0 + "=" + c) + "&" + ((k1 + "=" + r) + "&" + (q2 + "&" + q3)))
  {
  }

  /** Values a reader of the URL gets back unchanged: no `&` to split on, and
      no `#`, `%` or `+`, which a real reader would cut off or decode. */
  predicate Unescaped(value: string) {
    '&' !in value && '#' !in value && '%' !in value && '+' !in value
  }

  /** When neither configured value needs escaping, the URL carries exactly the
      four parameters of section 4.1.1, in order, after the authorize endpoint. */
  lemma {:induction false} OAuthUrlCarriesAuthorizeParams(clientId: string, redirectUri: string)
    requires Unescaped(clientId) && Unescaped(redirectUri)
    ensures ParseUrl(OAuthUrl(clientId, redirectUri)) == (AuthorizeEndpoint, AuthorizeParams(clientId, redirectUri))
  {
    var ps := AuthorizeParams(clientId, redirectUri);
    OAuthUrlIsEndpointAndQuery(clientId, redirectUri);
    EndpointsHaveNoQuery();
    CutAtFirst(AuthorizeEndpoint, EncodeQuery(ps), '?');
    AuthorizeParamsArePlain(clientId, redirectUri);
    ParseEncodeQuery(ps);
  }

  lemma EndpointsHaveNoQuery()
    ensures '?' !in AuthorizeEndpoint && '?' !in TokenEndpoint
  {
  }

  lemma AuthorizeParamsArePlain(clientId: string, redirectUri: string)
    requires '&' !in clientId && '&' !in redirectUri
    ensures Plain(AuthorizeParams(clientId, redirectUri))
  {
    var ps := AuthorizeParams(clientId, redirectUri);
    assert '=' !in "client_id" && '&' !in "client_id";
    assert '=' !in "redirect_uri" && '&' !in "redirect_uri";
    assert '=' !in "response_type" && '&' !in "response_type" && '&' !in "code";
    assert '=' !in "scope" && '&' !in "scope" && '&' !in "identify";
    assert forall i :: 0 <= i < 4 ==> ps[i] in ps;
  }

  /** Nothing is escaped: an `&` inside the redirect URI cuts it short and the
      rest of it reads as a parameter of its own. */
  lemma {:induction false} UnescapedAmpersandSplitsRedirectUri(clientId: string, head: string, tail: string)
    requires '&' !in clientId && '&' !in head && '&' !in tail
    ensures var (endpoint, ps) := ParseUrl(OAuthUrl(clientId, head + "&" + tail));
            endpoint == AuthorizeEndpoint && |ps| == 5 && ps[1] == Param("redirect_uri", head)
  {
    var r := head + "&" + tail;
    var p0, p1 := "client_id" + "=" + clientId, "redirect_uri" + "=" + head;
    var p3, p4 := "response_type" + "=" + "code", "scope" + "=" + "identify";
    var parts := [p0, p1, tail, p3, p4];
    AuthorizeUrlPieces();
    ConcatShape(AuthorizeEndpoint, clientId, r, "?client_id=", "&redirect_uri=",
                "&response_type=code", "&scope=identify", "client_id", "redirect_uri", p3, p4);
    assert ("redirect_uri" + "=" + r) + "&" + (p3 + "&" + p4) == p1 + "&" + (tail + "&" + (p3 + "&" + p4));
    JoinCons(p3, [p4], '&');
    JoinCons(tail, [p3, p4], '&');
    JoinCons(p1, [tail, p3, p4], '&');
    JoinCons(p0, [p1, tail, p3, p4], '&');
    EndpointsHaveNoQuery();
    CutAtFirst(AuthorizeEndpoint, Join(parts, '&'), '?');
    FixedPartsArePlain();
    assert forall p :: p in parts ==> '&' !in p;
    SplitJoin(parts, '&');
    assert '=' !in "redirect_uri";
    CutAtFirst("redirect_uri", head, '=');
  }

  lemma FixedPartsArePlain()
    ensures '&' !in "client_id" + "=" && '&' !in "redirect_uri" + "="
    ensures '&' !in "response_type" + "=" + "code" && '&' !in "scope" + "=" + "identify"
  {
  }

  /** The token request is an authorization-code grant (section 4.1.3) for the
      code the user typed. */
  lemma TokenRequestIsCodeGrant(clientId: string, clientSecret: string, code: string, redirectUri: string)
    ensures var form := TokenRequestForm(clientId, clientSecret, code, redirectUri);
            && Lookup(form, "client_id") == Some(clientId)
            && Lookup(form, "grant_type") == Some("authorization_code")
            && Lookup(form, "code") == Some(code)
            && Lookup(form, "redirect_uri") == Some(redirectUri)
  {
    var form := TokenRequestForm(clientId, clientSecret, code, redirectUri);
    FormKeysDiffer();
    LookupFirst(form, 0, "client_id");
    LookupFirst(form, 2, "grant_type");
    LookupFirst(form, 3, "code");
    LookupFirst(form, 4, "redirect_uri");
  }

  lemma FormKeysDiffer()
    ensures "client_id" != "grant_type" && "client_secret" != "grant_type"
    ensures "client_id" != "code" && "client_secret" != "code" && "grant_type" != "code"
    ensures "client_id" != "redirect_uri" && "client_secret" != "redirect_uri"
    ensures "grant_type" != "redirect_uri" && "code" != "redirect_uri"
  {
  }

  lemma AuthorizeUrlLookups(clientId: string, redirectUri: string)
    ensures Lookup(AuthorizeParams(clientId, redirectUri), "client_id") == Some(clientId)
    ensures Lookup(AuthorizeParams(clientId, redirectUri), "redirect_uri") == Some(redirectUri)
  {
    FormKeysDiffer();
    LookupFirst(AuthorizeParams(clientId, redirectUri), 0, "client_id");
    LookupFirst(AuthorizeParams(clientId, redirectUri), 1, "redirect_uri");
  }

  /** The token request names the same client and the same `redirect_uri` as the
      authorize URL did, as section 4.1.3 requires. */
  lemma TokenRequestMatchesAuthorizeUrl(clientId: string, clientSecret: string, code: string, redirectUri: string)
    requires Unescaped(clientId) && Unescaped(redirectUri)
    ensures var form := TokenRequestForm(clientId, clientSecret, code, redirectUri);
            var query := ParseUrl(OAuthUrl(clientId, redirectUri)).1;
            && Lookup(form, "redirect_uri") == Lookup(query, "redirect_uri")
            && Lookup(form, "client_id") == Lookup(query, "client_id")
  {
    OAuthUrlCarriesAuthorizeParams(clientId, redirectUri);
    AuthorizeUrlLookups(clientId, redirectUri);
    TokenRequestIsCodeGrant(clientId, clientSecret, code, redirectUri);
  }

  const VerifyFailedReply := "認証失敗"
  const VerifyDoneReply := "認証完了"
  const RoleSetReply := "認証ロール設定完了"

  /** What `verify` does once the token response is in: the reply it sends and
      the role it grants, if any. */
  datatype VerifyOutcome = VerifyOutcome(reply: string, grant: Option<Snowflake>)

  /** `verify` after the token exchange. `tokenKeys` are the keys of the JSON
      response; `guildRoles` are the ids `guild.get_role` resolves; a mapped id
      of 0 is falsy and grants nothing. */
  function VerifyDecision(roles: map<Snowflake, Snowflake>, guild: Snowflake, tokenKeys: set<string>, guildRoles: set<Snowflake>): (o: VerifyOutcome)
    ensures "access_token" !in tokenKeys ==> o == VerifyOutcome(VerifyFailedReply, None)
    ensures "access_token" in tokenKeys ==> o.reply == VerifyDoneReply
    ensures o.grant.Some? <==>
              "access_token" in tokenKeys && guild in roles && roles[guild] != 0 && roles[guild] in guildRoles
    ensures o.grant.Some? ==> o.grant.value == roles[guild] && o.grant.value in guildRoles
  {
    if "access_token" !in tokenKeys then VerifyOutcome(VerifyFailedReply, None)
    else
      var roleId := if guild in roles then roles[guild] else 0;
      if roleId != 0 && roleId in guildRoles then VerifyOutcome(VerifyDoneReply, Some(roleId))
      else VerifyOutcome(VerifyDoneReply, None)
  }

  /** The member's roles after the outcome: only ever one role added. */
  function Granted(held: set<Snowflake>, o: VerifyOutcome): (r: set<Snowflake>)
    ensures held <= r
    ensures o.grant.None? ==> r == held
    ensures o.grant.Some? ==> r - held <= {o.grant.value} && o.grant.value in r
  {
    if o.grant.Some? then held + {o.grant.value} else held
  }

  /** The `Auth` cog: its `roles` table (guild id -> role id) and its commands. */
  class AuthCog {
    var roles: map<Snowflake, Snowflake>

    constructor ()
      ensures roles == map[]
    {
      roles := map[];
    }

    /** `set_auth_role`; the administrator check runs before the body, and a
        caller without it gets no reply from the command and changes nothing. */
    method SetAuthRole(guild: Snowflake, role: Role, isAdmin: bool) returns (reply: Option<string>)
      modifies this
      ensures !isAdmin ==> roles == old(roles) && reply == None
      ensures isAdmin ==> roles == old(roles)[guild := role.id] && reply == Some(RoleSetReply)
    {
      if !isAdmin {
        return None;
      }
      roles := roles[guild := role.id];
      reply := Some(RoleSetReply);
    }

    /** `verify` in `guild`, given the keys of the token response, the ids the
        guild resolves to roles, and the calling member. */
    method Verify(guild: Snowflake, tokenKeys: set<string>, guildRoles: set<Snowflake>, user: Member) returns (reply: string)
      modifies user
      ensures var o := VerifyDecision(roles, guild, tokenKeys, guildRoles);
              reply == o.reply && user.roles == Granted(old(user.roles), o)
    {
      if "access_token" !in tokenKeys {
        return VerifyFailedReply;
      }
      var roleId := if guild in roles then roles[guild] else 0;
      if roleId != 0 {
        if roleId in guildRoles {
          user.AddRole(roleId);
        }
      }
      reply := VerifyDoneReply;
    }
  }

  /** Once an administrator maps a guild to a role that the guild resolves,
      a successful verify in that guild grants it, and verify elsewhere is
      decided as before. */
  lemma SetRoleThenVerify(roles: map<Snowflake, Snowflake>, guild: Snowflake, role: Role, tokenKeys: set<string>, guildRoles: set<Snowflake>, other: Snowflake)
    requires "access_token" in tokenKeys && role.id != 0 && role.id in guildRoles
    ensures VerifyDecision(roles[guild := role.id], guild, tokenKeys, guildRoles) == VerifyOutcome(VerifyDoneReply, Some(role.id))
    ensures other != guild ==>
              VerifyDecision(roles[guild := role.id], other, tokenKeys, guildRoles) == VerifyDecision(roles, other, tokenKeys, guildRoles)
  {
  }

  /** Verifying again with the same outcome changes nothing more. */
  lemma GrantIsIdempotent(held: set<Snowflake>, o: VerifyOutcome)
    ensures Granted(Granted(held, o), o) == Granted(held, o)
  {
  }
}
