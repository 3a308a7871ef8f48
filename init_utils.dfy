/** `buildCoreConfig` (src/init-utils.ts): choosing the configuration source, the endpoint
    hostname validator that guards against server-side request forgery, and the token check.
    `new URL(apiUrl).hostname` is the parameter `hostOf` (None when the URL does not parse),
    and the process environment is the parameter `env`. */
module InitUtils {
  import opened Wrappers
  import opened Types
  import Js

  const AllowedHost := "api.prefactor.ai"

  /** The production allowlist: the domain itself or any subdomain, compared case-sensitively. */
  predicate IsAllowlisted(hostname: string) {
    hostname == AllowedHost || Js.EndsWith(hostname, "." + AllowedHost)
  }

  /** `\d{1,3}`. */
  predicate IsDigitRun(s: string) {
    1 <= |s| <= 3 && Js.AllDigits(s)
  }

  /** `/^(\d{1,3})\.(\d{1,3})\.(\d{1,3})\.(\d{1,3})$/`. */
  predicate IsDottedQuad(h: string) {
    var parts := Js.Split(h, '.');
    |parts| == 4 && forall k :: 0 <= k < 4 ==> IsDigitRun(parts[k])
  }

  /** `/^127\.\d{1,3}\.\d{1,3}\.\d{1,3}$/`. */
  predicate IsLoopbackQuad(h: string) {
    IsDottedQuad(h) && Js.Split(h, '.')[0] == "127"
  }

  /** `Number(s)` of a run of ASCII digits. */
  function DecimalValue(s: string): nat
    decreases |s|
  {
    if s == [] then 0 else DecimalValue(s[..|s| - 1]) * 10 + (s[|s| - 1] as int - '0' as int) % 10
  }

  function Octets(h: string): (o: seq<nat>)
    requires IsDottedQuad(h)
    ensures |o| == 4
  {
    var parts := Js.Split(h, '.');
    [DecimalValue(parts[0]), DecimalValue(parts[1]), DecimalValue(parts[2]), DecimalValue(parts[3])]
  }

  predicate OctetsInRange(o: seq<nat>) {
    forall k :: 0 <= k < |o| ==> o[k] <= 255
  }

  /** The source's list of private and reserved IPv4 ranges, as a test on the octets. */
  predicate IsPrivateOctets(o: seq<nat>)
    requires |o| == 4
  {
    || o[0] == 10
    || (o[0] == 172 && o[1] >= 16 && o[1] <= 31)
    || (o[0] == 192 && o[1] == 168)
    || (o[0] == 169 && o[1] == 254)
    || o[0] == 127
  }

  // ---- An independent reference: CIDR blocks over the 32-bit address ----

  function Address(o: seq<nat>): nat
    requires |o| == 4
  {
    o[0] * 16777216 + o[1] * 65536 + o[2] * 256 + o[3]
  }

  /** `address` lies in the block `network/prefix`, with `size` = 2^(32 - prefix). */
  predicate InBlock(address: nat, network: nat, size: nat)
    requires size > 0
  {
    address / size == network / size
  }

  /** 10.0.0.0/8, 172.16.0.0/12 and 192.168.0.0/16 (RFC 1918), 169.254.0.0/16 (RFC 3927)
      and 127.0.0.0/8 (loopback). */
  predicate IsPrivateAddress(a: nat) {
    || InBlock(a, Address([10, 0, 0, 0]), 16777216)
    || InBlock(a, Address([172, 16, 0, 0]), 1048576)
    || InBlock(a, Address([192, 168, 0, 0]), 65536)
    || InBlock(a, Address([169, 254, 0, 0]), 65536)
    || InBlock(a, Address([127, 0, 0, 0]), 16777216)
  }

  lemma DivOfSum(q: nat, d: nat, r: nat)
    requires d > 0 && r < d
    ensures (q * d + r) / d == q
  {
    var x := q * d + r;
    var k, m := x / d, x % d;
    assert x == d * k + m && 0 <= m < d;
    assert d * (k - q) == r - m;
    assert k - q >= 1 ==> d * (k - q) >= d * 1;
    assert q - k >= 1 ==> d * (q - k) >= d * 1;
  }

  /** The address's leading 8, 12 and 16 bits, read off its octets. */
  lemma AddressPrefixes(o: seq<nat>)
    requires |o| == 4 && OctetsInRange(o)
    ensures Address(o) / 16777216 == o[0]
    ensures Address(o) / 1048576 == o[0] * 16 + o[1] / 16
    ensures Address(o) / 65536 == o[0] * 256 + o[1]
  {
    var a := Address(o);
    assert o[1] <= 255 && o[2] <= 255 && o[3] <= 255;
    var low16 := o[2] * 256 + o[3];
    var low24 := o[1] * 65536 + low16;
    assert a == o[0] * 16777216 + low24;
    DivOfSum(o[0], 16777216, low24);
    assert a == (o[0] * 256 + o[1]) * 65536 + low16;
    DivOfSum(o[0] * 256 + o[1], 65536, low16);
    var low20 := (o[1] % 16) * 65536 + low16;
    assert o[1] == 16 * (o[1] / 16) + o[1] % 16;
    assert a == (o[0] * 16 + o[1] / 16) * 1048576 + low20;
    DivOfSum(o[0] * 16 + o[1] / 16, 1048576, low20);
  }

  /** The octet test in the source agrees with CIDR block membership of the address. */
  lemma PrivateOctetsAreCidrBlocks(o: seq<nat>)
    requires |o| == 4 && OctetsInRange(o)
    ensures IsPrivateOctets(o) <==> IsPrivateAddress(Address(o))
  {
    AddressPrefixes(o);
    assert o[1] <= 255;
    assert 16 <= o[1] <= 31 <==> o[1] / 16 == 1;
    DivOfSum(10, 16777216, 0);
    DivOfSum(127, 16777216, 0);
    DivOfSum(172 * 16 + 1, 1048576, 0);
    DivOfSum(192 * 256 + 168, 65536, 0);
    DivOfSum(169 * 256 + 254, 65536, 0);
  }

  // ---- The hostname validator ----

  predicate LooksLikeIPv6(h: string) {
    ':' in h || Js.StartsWith(h, "[")
  }

  /** `replace(/^\[|\]$/g, '')`: one leading `[` and one trailing `]` are removed. */
  function StripBrackets(h: string): (r: string)
    ensures |r| <= |h|
  {
    var s := if Js.StartsWith(h, "[") then h[1..] else h;
    if Js.EndsWith(s, "]") then s[..|s| - 1] else s
  }

  /** `::1`, the unique local prefixes `fc` and `fd` (RFC 4193) and link-local `fe80:`. */
  predicate IsPrivateIPv6(v6: string) {
    v6 == "::1" || Js.StartsWith(v6, "fc") || Js.StartsWith(v6, "fd") || Js.StartsWith(v6, "fe80:")
  }

  function NotAllowlisted(hostname: string): Error {
    Error("API URL hostname '" + hostname + "' is not in the allowlist")
  }

  function InvalidIp(lowered: string): Error {
    Error("Invalid IP address: " + lowered)
  }

  /** The `try` block of the validator: None when the hostname passes, else the error thrown. */
  function ValidateHost(hostname: string): (r: Option<Error>)
    ensures IsAllowlisted(hostname) ==> r.None?
    ensures r.Some? ==> r.value == NotAllowlisted(hostname) || r.value == InvalidIp(Js.ToLower(hostname))
  {
    if IsAllowlisted(hostname) then None
    else
      var h := Js.ToLower(hostname);
      if h == "localhost" || IsLoopbackQuad(h) then None
      else if LooksLikeIPv6(h) then
        if IsPrivateIPv6(StripBrackets(h)) then None else Some(NotAllowlisted(hostname))
      else if IsDottedQuad(h) then
        var o := Octets(h);
        if !OctetsInRange(o) then Some(InvalidIp(h))
        else if IsPrivateOctets(o) then None
        else Some(NotAllowlisted(hostname))
      else Some(NotAllowlisted(hostname))
  }

  /** A dotted quad is made of digits and dots only. */
  lemma QuadCharacters(h: string)
    ensures IsDottedQuad(h) ==> forall i :: 0 <= i < |h| ==> Js.IsDigit(h[i]) || h[i] == '.'
  {
    if IsDottedQuad(h) {
      var parts := Js.Split(h, '.');
      forall k | 0 <= k < |parts| ensures Js.AllDigits(parts[k]) { assert IsDigitRun(parts[k]); }
      Js.SplitIntoDigitsOnly(h, '.');
    }
  }

  /** A dotted quad is neither `localhost` nor IPv6-like. */
  lemma QuadIsNotIPv6(h: string)
    requires IsDottedQuad(h)
    ensures !LooksLikeIPv6(h) && h != "localhost"
  {
    QuadCharacters(h);
    assert forall i :: 0 <= i < |h| ==> h[i] != ':' && h[i] != '[' && h[i] != 'l';
    if |h| > 0 {
      assert h[..1][0] == h[0];
    }
  }

  /** An IPv6-looking hostname is neither `localhost` nor a 127.x.x.x literal. */
  lemma IPv6IsNotLocal(h: string)
    requires LooksLikeIPv6(h)
    ensures h != "localhost" && !IsLoopbackQuad(h)
  {
    assert !IsDottedQuad(h) by { QuadCharacters(h); }
    assert !LooksLikeIPv6("localhost") by {
      var l := "localhost";
      assert forall j :: 0 <= j < |l| ==> l[j] != ':';
      assert l[0] != '[';
    }
  }

  /** No request can be pointed at a public address: an accepted hostname is allowlisted, is
      `localhost`, a 127.x.x.x literal, a private IPv6 literal, or an IPv4 literal in a private block. */
  lemma AcceptedHostIsAllowlistedOrPrivate(hostname: string)
    requires ValidateHost(hostname).None?
    ensures var h := Js.ToLower(hostname);
      || IsAllowlisted(hostname)
      || h == "localhost"
      || IsLoopbackQuad(h)
      || (LooksLikeIPv6(h) && IsPrivateIPv6(StripBrackets(h)))
      || (IsDottedQuad(h) && OctetsInRange(Octets(h)) && IsPrivateAddress(Address(Octets(h))))
  {
    var h := Js.ToLower(hostname);
    if !IsAllowlisted(hostname) && h != "localhost" && !IsLoopbackQuad(h) && !LooksLikeIPv6(h) && IsDottedQuad(h) {
      PrivateOctetsAreCidrBlocks(Octets(h));
    }
  }

  /** An IPv6 literal (after lower-casing) that is not allowlisted passes exactly when it is private. */
  lemma IPv6Decision(hostname: string)
    requires !IsAllowlisted(hostname) && LooksLikeIPv6(Js.ToLower(hostname))
    ensures ValidateHost(hostname).None? <==> IsPrivateIPv6(StripBrackets(Js.ToLower(hostname)))
    ensures ValidateHost(hostname).Some? ==> ValidateHost(hostname).value == NotAllowlisted(hostname)
  {
    var h := Js.ToLower(hostname);
    IPv6IsNotLocal(h);
    assert ValidateHost(hostname) == if IsPrivateIPv6(StripBrackets(h)) then None else Some(NotAllowlisted(hostname));
  }

  /** A non-allowlisted IPv4 literal outside 127/8 fails with `Invalid IP address` exactly when an
      octet exceeds 255, and otherwise passes exactly when it lies in a private block. */
  lemma IPv4Decision(hostname: string)
    requires !IsAllowlisted(hostname)
    requires IsDottedQuad(Js.ToLower(hostname)) && !IsLoopbackQuad(Js.ToLower(hostname))
    ensures var h := Js.ToLower(hostname);
      && (!OctetsInRange(Octets(h)) <==> ValidateHost(hostname) == Some(InvalidIp(h)))
      && (OctetsInRange(Octets(h)) ==>
            (ValidateHost(hostname).None? <==> IsPrivateAddress(Address(Octets(h))))
            && (ValidateHost(hostname).Some? ==> ValidateHost(hostname).value == NotAllowlisted(hostname)))
  {
    var h := Js.ToLower(hostname);
    QuadIsNotIPv6(h);
    var o := Octets(h);
    var r := ValidateHost(hostname);
    assert NotAllowlisted(hostname) != InvalidIp(h) by {
      assert NotAllowlisted(hostname).message[0] == 'A';
      assert InvalidIp(h).message[0] == 'I';
    }
    if !OctetsInRange(o) {
      assert r == Some(InvalidIp(h));
    } else {
      PrivateOctetsAreCidrBlocks(o);
      assert r == if IsPrivateOctets(o) then None else Some(NotAllowlisted(hostname));
    }
  }

  /** A hostname that is not allowlisted, not local and not an IP literal is rejected. */
  lemma OtherHostRejected(hostname: string)
    requires !IsAllowlisted(hostname)
    requires var h := Js.ToLower(hostname); h != "localhost" && !LooksLikeIPv6(h) && !IsDottedQuad(h)
    ensures ValidateHost(hostname) == Some(NotAllowlisted(hostname))
  {
  }

  // ---- Config assembly ----

  /** The URL step: an unparsable URL fails with `Invalid API URL`, otherwise the hostname decides. */
  function ValidateApiUrl(apiUrl: string, hostOf: string -> Option<string>): (r: Option<Error>)
    ensures hostOf(apiUrl).None? ==> r == Some(Error("Invalid API URL: " + apiUrl))
    ensures hostOf(apiUrl).Some? ==> r == ValidateHost(hostOf(apiUrl).value)
  {
    match hostOf(apiUrl)
    case None => Some(Error("Invalid API URL: " + apiUrl))
    case Some(hostname) => ValidateHost(hostname)
  }

  /** Case 1: a given `prefactorConfig`, with the default schema filled in only for http. */
  function WithDefaultSchema(core: CoreConfig): (r: CoreConfig)
    ensures core.transportType != Some(Http) ==> r == core
    ensures core.transportType == Some(Http) ==>
      && r.transportType == core.transportType && r.httpConfig.Some?
      && (core.httpConfig.Some? && core.httpConfig.value.agentSchema.Some? ==> r == core)
      && (core.httpConfig.Some? ==> r.httpConfig.value == core.httpConfig.value.(agentSchema := r.httpConfig.value.agentSchema))
      && r.httpConfig.value.agentSchema ==
           (if core.httpConfig.Some? && core.httpConfig.value.agentSchema.Some? then core.httpConfig.value.agentSchema
            else Some(DefaultAnthropicAgentSchema))
  {
    if core.transportType == Some(Http) then
      var base := core.httpConfig.GetOr(HttpConfig(None, None, None, None, None, None, None));
      core.(httpConfig := Some(base.(agentSchema := Some(base.agentSchema.GetOr(DefaultAnthropicAgentSchema)))))
    else core
  }

  function ConfigApiUrl(config: Option<PluginConfig>): Option<string> {
    if config.Some? then config.value.apiUrl else None
  }

  function ConfigApiKey(config: Option<PluginConfig>): Option<string> {
    if config.Some? then config.value.apiKey else None
  }

  function ConfigAgentId(config: Option<PluginConfig>): Option<string> {
    if config.Some? then config.value.agentId else None
  }

  /** `config?.apiUrl ?? PREFACTOR_API_URL ?? DEFAULT_API_URL`. */
  function ResolveApiUrl(config: Option<PluginConfig>, env: Env): string {
    ConfigApiUrl(config).OrElse(env.apiUrl).GetOr(DefaultApiUrl)
  }

  const MissingKeyInConfig := "apiKey is required in PrefactorAnthropicConfig"
  const MissingTokenInEnv := "Either provide PrefactorAnthropicConfig or set PREFACTOR_API_TOKEN environment variable"

  function BuildCoreConfig(config: Option<PluginConfig>, env: Env, hostOf: string -> Option<string>): (r: Result<CoreConfig, Error>)
    // a full core configuration takes precedence over everything else, and is never validated
    ensures config.Some? && config.value.prefactorConfig.Some? ==>
      r == Success(WithDefaultSchema(config.value.prefactorConfig.value))
    ensures (config.None? || config.value.prefactorConfig.None?) ==>
      var apiUrl := ResolveApiUrl(config, env);
      var apiToken := ConfigApiKey(config).OrElse(env.apiToken);
      var agentId := ConfigAgentId(config).OrElse(env.agentId);
      // the URL is validated first; its error wins over a missing token
      && (ValidateApiUrl(apiUrl, hostOf).Some? ==> r == Failure(ValidateApiUrl(apiUrl, hostOf).value))
      && (ValidateApiUrl(apiUrl, hostOf).None? && !Js.TruthyOpt(apiToken) ==>
            r == Failure(Error(if config.Some? then MissingKeyInConfig else MissingTokenInEnv)))
      && (r.Success? <==> ValidateApiUrl(apiUrl, hostOf).None? && Js.TruthyOpt(apiToken))
      && (r.Success? ==> r.value == CoreConfig(Some(Http), Some(HttpConfig(
            Some(apiUrl), apiToken, agentId, Some(DefaultAgentIdentifier), None, None, Some(DefaultAnthropicAgentSchema)))))
  {
    if config.Some? && config.value.prefactorConfig.Some? then
      Success(WithDefaultSchema(config.value.prefactorConfig.value))
    else
      var apiUrl := ResolveApiUrl(config, env);
      var apiToken := ConfigApiKey(config).OrElse(env.apiToken);
      var agentId := ConfigAgentId(config).OrElse(env.agentId);
      match ValidateApiUrl(apiUrl, hostOf)
      case Some(e) => Failure(e)
      case None =>
        if !Js.TruthyOpt(apiToken) then
          Failure(Error(if config.Some? then MissingKeyInConfig else MissingTokenInEnv))
        else
          Success(CoreConfig(Some(Http), Some(HttpConfig(
            Some(apiUrl), apiToken, agentId, Some(DefaultAgentIdentifier), None, None, Some(DefaultAnthropicAgentSchema)))))
  }

  /** Source precedence for the URL: the config's value, then the environment's, then the default. */
  lemma ApiUrlPrecedence(config: Option<PluginConfig>, env: Env)
    ensures ConfigApiUrl(config).Some? ==> ResolveApiUrl(config, env) == config.value.apiUrl.value
    ensures ConfigApiUrl(config).None? && env.apiUrl.Some? ==> ResolveApiUrl(config, env) == env.apiUrl.value
    ensures ConfigApiUrl(config).None? && env.apiUrl.None? ==> ResolveApiUrl(config, env) == DefaultApiUrl
  {
  }

  // ---- Scenarios ----

  lemma ScenarioAllowlisted(h: string, sub: string)
    requires h == "api.prefactor.ai" && sub == "eu.api.prefactor.ai"
    ensures ValidateHost(h).None? && ValidateHost(sub).None?
  {
    assert IsAllowlisted(h);
    assert sub[|sub| - |"." + AllowedHost|..] == "." + AllowedHost;
    assert IsAllowlisted(sub);
  }

  lemma ScenarioLocalhost(h: string)
    requires h == "localhost"
    ensures ValidateHost(h).None?
  {
    assert !IsAllowlisted(h) by { assert |h| < |"." + AllowedHost|; }
    Js.ToLowerWithoutCapitals(h);
  }

  lemma ScenarioPublicName(h: string)
    requires h == "evil.com"
    ensures ValidateHost(h) == Some(NotAllowlisted(h))
  {
    assert !IsAllowlisted(h) by { assert |h| < |"." + AllowedHost|; }
    Js.ToLowerWithoutCapitals(h);
    QuadCharacters(h);
    assert h[0] == 'e' && !Js.IsDigit(h[0]);
    assert ':' !in h by { assert forall i :: 0 <= i < |h| ==> h[i] != ':'; }
    OtherHostRejected(h);
  }

  lemma ScenarioIPv6Loopback(h: string)
    requires h == "[::1]"
    ensures ValidateHost(h).None?
  {
    assert !IsAllowlisted(h) by { assert |h| < |"." + AllowedHost|; }
    Js.ToLowerWithoutCapitals(h);
    assert LooksLikeIPv6(h) by { assert h[1] == ':'; }
    assert StripBrackets(h) == "::1" by { assert h[1..][..|h[1..]| - 1] == "::1"; }
    IPv6Decision(h);
  }

  /** `[a, b, c, d].join(sep)`, written out. */
  lemma JoinOfFour(a: string, b: string, c: string, d: string, sep: char)
    ensures Js.Join([a, b, c, d], sep) == a + [sep] + b + [sep] + c + [sep] + d
  {
    assert Js.Join([c, d], sep) == c + [sep] + d by { assert [c, d][1..] == [d]; }
    assert Js.Join([b, c, d], sep) == b + [sep] + (c + [sep] + d) by { assert [b, c, d][1..] == [c, d]; }
    assert Js.Join([a, b, c, d], sep) == a + [sep] + (b + [sep] + (c + [sep] + d)) by {
      assert [a, b, c, d][1..] == [b, c, d];
    }
  }

  /** Four digit runs joined by dots form a dotted quad with those parts. */
  lemma QuadOf(a: string, b: string, c: string, d: string)
    requires IsDigitRun(a) && IsDigitRun(b) && IsDigitRun(c) && IsDigitRun(d)
    ensures IsDottedQuad(a + "." + b + "." + c + "." + d)
    ensures Js.Split(a + "." + b + "." + c + "." + d, '.') == [a, b, c, d]
  {
    var parts := [a, b, c, d];
    forall k | 0 <= k < 4 ensures '.' !in parts[k] {
      assert Js.AllDigits(parts[k]);
    }
    JoinOfFour(a, b, c, d, '.');
    Js.SplitJoin(parts, '.');
  }

  /** The verdict on any dotted quad: it is never allowlisted, passes when its first part is
      `127`, and is otherwise judged by the range and then the private blocks of its octets. */
  lemma QuadVerdict(h: string)
    requires IsDottedQuad(h)
    ensures ValidateHost(h) ==
      if Js.Split(h, '.')[0] == "127" then None
      else if !OctetsInRange(Octets(h)) then Some(InvalidIp(h))
      else if IsPrivateOctets(Octets(h)) then None
      else Some(NotAllowlisted(h))
  {
    QuadCharacters(h);
    assert Js.ToLower(h) == h by { Js.ToLowerWithoutCapitals(h); }
    assert !IsAllowlisted(h) by {
      var suffix := "." + AllowedHost;
      assert AllowedHost[0] == 'a' && suffix[|suffix| - 1] == 'i';
      assert |h| > 0 ==> h[0] != 'a' && h[|h| - 1] != 'i';
    }
    QuadIsNotIPv6(h);
  }

  lemma ScenarioPrivateIPv4(h: string)
    requires h == "10.0.0.1"
    ensures ValidateHost(h).None?
  {
    var a, b, c := "10", "0", "1";
    QuadOf(a, b, b, c);
    assert a + "." + b + "." + b + "." + c == h;
    assert DecimalValue(a) == 10 by { assert a[..1] == "1"; }
    assert Octets(h) == [10, 0, 0, 1];
    QuadVerdict(h);
  }

  lemma ScenarioPublicIPv4(h: string)
    requires h == "8.8.8.8"
    ensures ValidateHost(h) == Some(NotAllowlisted(h))
  {
    var a := "8";
    QuadOf(a, a, a, a);
    assert a + "." + a + "." + a + "." + a == h;
    assert Octets(h) == [8, 8, 8, 8];
    QuadVerdict(h);
  }

  lemma ScenarioOctetOutOfRange(h: string)
    requires h == "999.1.1.1"
    ensures ValidateHost(h) == Some(InvalidIp(h))
  {
    var a, b := "999", "1";
    QuadOf(a, b, b, b);
    assert a + "." + b + "." + b + "." + b == h;
    assert DecimalValue(a) == 999 by {
      assert a[..2] == "99" && a[2] == '9';
      assert DecimalValue("99") == 99 by { assert "99"[..1] == "9"; }
    }
    assert Octets(h)[0] == 999;
    QuadVerdict(h);
  }

  /** The loopback pattern is matched before the octet range, so 127.999.999.999 passes. */
  lemma ScenarioLoopbackBeforeRangeCheck(h: string)
    requires h == "127.999.999.999"
    ensures ValidateHost(h).None?
  {
    var a, b := "127", "999";
    QuadOf(a, b, b, b);
    assert a + "." + b + "." + b + "." + b == h;
    QuadVerdict(h);
  }
}
