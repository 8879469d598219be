/**
 * `WC_SGTM_Helpers` (includes/class-helpers.php): the option getters, the endpoint builder,
 * PII hashing, the digit-only normalisers and the level filter in front of the WooCommerce logger.
 */
module Helpers {
  import opened Wrappers
  import opened Php

  /** The WordPress options table as `get_option` sees it: option name to stored string. */
  type Options = map<string, string>

  const UrlOption := "wc_sgtm_webhook_url"
  const ContainerOption := "wc_sgtm_container_id"
  const TokenOption := "wc_sgtm_webhook_token"
  const EnabledOption := "wc_sgtm_webhook_enabled"
  const DebugOption := "wc_sgtm_debug_mode"

  /** `get_option($key, $default)`. */
  function GetOption(opts: Options, key: string, default: string): string {
    if key in opts then opts[key] else default
  }

  function WebhookUrl(opts: Options): string {
    GetOption(opts, UrlOption, "")
  }

  function ContainerId(opts: Options): string {
    GetOption(opts, ContainerOption, "")
  }

  function WebhookToken(opts: Options): string {
    GetOption(opts, TokenOption, "")
  }

  /** `is_webhook_enabled`: on only when the option is stored and is exactly "yes". */
  function IsWebhookEnabled(opts: Options): (r: bool)
    ensures r <==> EnabledOption in opts && opts[EnabledOption] == "yes"
  {
    GetOption(opts, EnabledOption, "no") == "yes"
  }

  /** `is_debug_mode`: on only when the option is stored and is exactly "yes". */
  function IsDebugMode(opts: Options): (r: bool)
    ensures r <==> DebugOption in opts && opts[DebugOption] == "yes"
  {
    GetOption(opts, DebugOption, "no") == "yes"
  }

  // ---------------------------------------------------------------------------------------------
  // build_endpoint
  // ---------------------------------------------------------------------------------------------

  /** The base URL with a `/data` path: kept when it already mentions `/data` in any case, else trailing slashes are stripped and `/data` appended. */
  function WithDataPath(base: string): (r: string)
    ensures ContainsCI(r, "/data")
    ensures ContainsCI(base, "/data") ==> r == base
    ensures |r| >= 5
    ensures base != [] && !IsTrimChar(base[0]) ==> !IsTrimChar(r[0])
    ensures !IsTrimChar(r[|r| - 1]) || r == base
  {
    if ContainsCI(base, "/data") then
      assert |base| >= 5;
      base
    else
      var stem := RTrimChar(base, '/');
      ContainsCIMiddle(stem, "/data", "");
      assert stem + "/data" + "" == stem + "/data";
      stem + "/data"
  }

  /** The `?` or `&` that introduces the `id` parameter. */
  function QuerySeparator(url: string): (c: char)
    ensures c == '&' <==> '?' in url
    ensures c == '&' || c == '?'
  {
    if '?' in url then '&' else '?'
  }

  /** The `id=<rawurlencoded container id>` query parameter appended to a URL. */
  function AppendId(url: string, cid: string): (r: string)
    ensures |r| > |url| + 3 && r[..|url|] == url
    ensures r[|url|] == QuerySeparator(url)
    ensures r[|url| + 1..] == "id=" + RawUrlEncode(cid)
    ensures ContainsCI(r, "id=")
  {
    ContainsCIMiddle(url + [QuerySeparator(url)], "id=", RawUrlEncode(cid));
    url + [QuerySeparator(url)] + "id=" + RawUrlEncode(cid)
  }

  /** Appending the parameter keeps a `/data` the URL had. */
  lemma AppendIdKeepsData(url: string, cid: string)
    requires ContainsCI(url, "/data")
    ensures ContainsCI(AppendId(url, cid), "/data")
  {
    var r := AppendId(url, cid);
    ContainsCIExtend(url, "/data", r[|url|..]);
    assert r == url + r[|url|..];
  }

  /** The endpoint `build_endpoint` derives from a stored base URL and container id. */
  function BuildEndpointFrom(url: string, container: string): string {
    var base := Trim(url);
    var cid := Trim(container);
    if IsEmptyString(base) then ""
    else
      var withData := WithDataPath(base);
      if IsEmptyString(cid) || ContainsCI(withData, "id=") then withData
      else AppendId(withData, cid)
  }

  /** `build_endpoint`, reading the two options. */
  function BuildEndpoint(opts: Options): string {
    BuildEndpointFrom(WebhookUrl(opts), ContainerId(opts))
  }

  /** The endpoint is empty exactly when the trimmed base URL is PHP-empty. */
  lemma BuildEndpointEmptyIff(url: string, container: string)
    ensures BuildEndpointFrom(url, container) == "" <==> IsEmptyString(Trim(url))
  {
    var base := Trim(url);
    if !IsEmptyString(base) {
      var withData := WithDataPath(base);
      var cid := Trim(container);
      if !(IsEmptyString(cid) || ContainsCI(withData, "id=")) {
        assert |BuildEndpointFrom(url, container)| > |withData|;
      } else {
        assert BuildEndpointFrom(url, container) == withData;
      }
    }
  }

  /** A non-empty endpoint mentions `/data`. */
  lemma BuildEndpointMentionsData(url: string, container: string)
    requires !IsEmptyString(Trim(url))
    ensures ContainsCI(BuildEndpointFrom(url, container), "/data")
  {
    var withData := WithDataPath(Trim(url));
    var cid := Trim(container);
    if !(IsEmptyString(cid) || ContainsCI(withData, "id=")) {
      AppendIdKeepsData(withData, cid);
      assert BuildEndpointFrom(url, container) == AppendId(withData, cid);
    } else {
      assert BuildEndpointFrom(url, container) == withData;
    }
  }

  /**
   * The `id` rules: with a PHP-empty container id, or when the `/data` URL already carries `id=`,
   * nothing is appended; otherwise `id=<rawurlencoded id>` follows `&` when the URL already has a
   * `?` and follows `?` when it has none.
   */
  lemma BuildEndpointQuery(url: string, container: string)
    requires !IsEmptyString(Trim(url))
    ensures var withData := WithDataPath(Trim(url));
      var r := BuildEndpointFrom(url, container);
      && ContainsCI(r, "id=") == (ContainsCI(withData, "id=") || !IsEmptyString(Trim(container)))
      && (IsEmptyString(Trim(container)) || ContainsCI(withData, "id=") ==> r == withData)
      && (!IsEmptyString(Trim(container)) && !ContainsCI(withData, "id=") ==>
            && |r| > |withData| && r[..|withData|] == withData
            && (r[|withData|] == '&' <==> '?' in withData)
            && r[|withData| + 1..] == "id=" + RawUrlEncode(Trim(container)))
  {
    var withData := WithDataPath(Trim(url));
    var cid := Trim(container);
    if IsEmptyString(cid) || ContainsCI(withData, "id=") {
      assert BuildEndpointFrom(url, container) == withData;
    } else {
      assert BuildEndpointFrom(url, container) == AppendId(withData, cid);
    }
  }

  /** A non-empty endpoint has nothing for `trim` to strip and is not PHP-empty. */
  lemma BuildEndpointTrimmed(url: string, container: string)
    ensures Trimmed(BuildEndpointFrom(url, container))
    ensures BuildEndpointFrom(url, container) != "" ==> !IsEmptyString(BuildEndpointFrom(url, container))
  {
    var base := Trim(url);
    if !IsEmptyString(base) {
      var withData := WithDataPath(base);
      var cid := Trim(container);
      if !(IsEmptyString(cid) || ContainsCI(withData, "id=")) {
        var enc := RawUrlEncode(cid);
        var r := AppendId(withData, cid);
        assert r[0] == withData[0];
        assert r[|r| - 1] == r[|withData| + 1..][|r| - |withData| - 2] == enc[|enc| - 1];
      }
    }
  }

  /** Feeding the endpoint back in as the base URL, with the same container id, gives the same endpoint. */
  lemma BuildEndpointIdempotent(url: string, container: string)
    ensures BuildEndpointFrom(BuildEndpointFrom(url, container), container) == BuildEndpointFrom(url, container)
  {
    var r := BuildEndpointFrom(url, container);
    BuildEndpointTrimmed(url, container);
    BuildEndpointEmptyIff(url, container);
    if r != "" {
      BuildEndpointMentionsData(url, container);
      TrimOfTrimmed(r);
      BuildEndpointQuery(url, container);
      var cid := Trim(container);
      assert WithDataPath(r) == r;
      if !IsEmptyString(cid) {
        assert ContainsCI(r, "id=");
      }
    }
  }

  // ---------------------------------------------------------------------------------------------
  // hash_pii, format_phone, format_zip
  // ---------------------------------------------------------------------------------------------

  /** A lower-case hexadecimal SHA-256 digest, as `hash('sha256', ...)` returns it. */
  type Digest = s: string | |s| == 64
    witness "0000000000000000000000000000000000000000000000000000000000000000"

  /** `hash_pii`: '' for a PHP-empty value, otherwise the digest of the lower-cased, trimmed value. */
  function HashPii(sha: string -> Digest, v: string): (r: string)
    ensures r == "" <==> IsEmptyString(v)
    ensures r != "" ==> |r| == 64
  {
    if IsEmptyString(v) then "" else sha(Lower(Trim(v)))
  }

  /** Values that differ only in ASCII case or in outer whitespace hash identically. */
  lemma HashPiiNormalises(sha: string -> Digest, a: string, b: string)
    requires !IsEmptyString(a) && !IsEmptyString(b)
    requires Lower(Trim(a)) == Lower(Trim(b))
    ensures HashPii(sha, a) == HashPii(sha, b)
  {
  }

  /** Hashing the trimmed value gives the digest of the raw one, unless trimming leaves a PHP-empty string. */
  lemma HashPiiOfTrim(sha: string -> Digest, raw: string)
    requires !IsEmptyString(Trim(raw))
    ensures HashPii(sha, Trim(raw)) == HashPii(sha, raw)
  {
    if IsEmptyString(raw) {
      TrimOfEmpty(raw);
    }
    TrimIdempotent(raw);
  }

  /** Hashing an already normalised value gives the same digest as hashing the raw one. */
  lemma HashPiiOfNormalised(sha: string -> Digest, v: string)
    requires !IsEmptyString(Lower(Trim(v)))
    ensures HashPii(sha, Lower(Trim(v))) == HashPii(sha, v)
  {
    NormaliseIdempotent(v);
  }

  /** `format_phone`: the digits of the input, in order. */
  function FormatPhone(phone: string): string {
    DigitsOnly(phone)
  }

  /** `format_zip`: the digits of the input, in order. */
  function FormatZip(zip: string): string {
    DigitsOnly(zip)
  }

  /** Both normalisers keep exactly the digit characters, each as often as it occurs, and are idempotent. */
  lemma FormatDigitsSpec(s: string, c: char)
    ensures AllDigits(FormatPhone(s)) && AllDigits(FormatZip(s))
    ensures multiset(FormatPhone(s))[c] == if IsDigit(c) then multiset(s)[c] else 0
    ensures multiset(FormatZip(s))[c] == if IsDigit(c) then multiset(s)[c] else 0
    ensures FormatPhone(FormatPhone(s)) == FormatPhone(s)
    ensures FormatZip(FormatZip(s)) == FormatZip(s)
  {
    DigitsOnlyCounts(s, c);
    DigitsOnlyIdempotent(s);
  }

  /**
   * Both normalisers keep the digits in the order they occur: a character contributes itself
   * when it is a digit and nothing otherwise, wherever it stands.
   */
  lemma FormatDigitsOrder(a: string, c: char, b: string)
    ensures FormatPhone(a + [c] + b) == FormatPhone(a) + (if IsDigit(c) then [c] else []) + FormatPhone(b)
    ensures FormatZip(a + [c] + b) == FormatZip(a) + (if IsDigit(c) then [c] else []) + FormatZip(b)
  {
    DigitsOnlyAppend(a + [c], b);
    DigitsOnlyAppend(a, [c]);
    DigitsOnlyOfChar(c);
  }

  // ---------------------------------------------------------------------------------------------
  // log
  // ---------------------------------------------------------------------------------------------

  datatype Level = Error | Warning | Debug | Info

  /**
   * Where `log($message, $level)` sends a message: nowhere for a debug message outside debug mode
   * or when the WooCommerce logger is unavailable; otherwise to the logger method of its level,
   * with every unrecognised level going to `info`.
   */
  function LogRoute(level: string, debugMode: bool, loggerAvailable: bool): (r: Option<Level>)
    ensures r == None <==> !loggerAvailable || (level == "debug" && !debugMode)
    ensures r == Some(Debug) ==> debugMode
    ensures loggerAvailable && level in {"error", "warning", "info"} ==> r != None
    ensures r == Some(Info) <==> loggerAvailable && level !in {"error", "warning", "debug"}
  {
    if !debugMode && level == "debug" then None
    else if !loggerAvailable then None
    else if level == "error" then Some(Error)
    else if level == "warning" then Some(Warning)
    else if level == "debug" then Some(Debug)
    else Some(Info)
  }
}
