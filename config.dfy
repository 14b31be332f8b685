// src/config.rs: `HoneyIdConfig`, its defaults and the two `util`
// deserialisers. `Url::parse` is a black box given as a parameter.
module Config {
  import opened Wrappers
  import opened Entities

  /** A parsed `url::Url`, by its serialisation. */
  datatype Url = Url(serialization: string)

  /** `secrecy::SecretString`. */
  datatype Secret = Secret(exposed: string)

  datatype HoneyIdConfig = HoneyIdConfig(
    addr: Url,
    appPublicId: Uuid,
    appApiKey: Option<Secret>,
    authApiKey: Option<Secret>)

  const DEFAULT_ADDR: string := "wss://api.honey.id:443"

  /**
   * `SmartDefault`: addr is `Url::parse(DEFAULT_ADDR).unwrap()` (so the parse
   * must succeed), the app id is the nil UUID and both keys are absent.
   */
  function DefaultConfig(parse: string -> Result<Url, string>): (c: HoneyIdConfig)
    requires parse(DEFAULT_ADDR).Ok?
    ensures c.addr == parse(DEFAULT_ADDR).value
    ensures c.appApiKey.None? && c.authApiKey.None?
  {
    HoneyIdConfig(parse(DEFAULT_ADDR).value, NIL_UUID, None, None)
  }

  function Slashes(n: nat): (r: string)
    ensures |r| == n && forall i :: 0 <= i < n ==> r[i] == '/'
  {
    if n == 0 then "" else Slashes(n - 1) + "/"
  }

  /** `str::trim_end_matches('/')`: drop every trailing slash. */
  function TrimEndSlashes(s: string): (r: string)
    ensures |r| <= |s| && r == s[..|r|]
    ensures r == [] || r[|r| - 1] != '/'
    ensures forall i :: |r| <= i < |s| ==> s[i] == '/'
    decreases |s|
  {
    if s != [] && s[|s| - 1] == '/' then TrimEndSlashes(s[..|s| - 1]) else s
  }

  /** `format!("{}/", c.trim_end_matches('/'))`: the text handed to `Url::parse`. */
  function NormaliseBaseUrl(s: string): (r: string)
  {
    TrimEndSlashes(s) + "/"
  }

  /** The normalised text ends with exactly one slash, after the input minus its trailing slashes. */
  lemma NormalisedEndsWithOneSlash(s: string)
    ensures var r := NormaliseBaseUrl(s);
      && |r| >= 1 && r[|r| - 1] == '/'
      && (|r| == 1 || r[|r| - 2] != '/')
      && r[..|r| - 1] == s[..|r| - 1]
      && forall i :: |r| - 1 <= i < |s| ==> s[i] == '/'
  {
  }

  /** A text without trailing slash is its own trim. */
  lemma TrimWithoutTrailingSlash(s: string)
    requires s == [] || s[|s| - 1] != '/'
    ensures TrimEndSlashes(s) == s
  {
  }

  /** Appending slashes does not change the trimmed text. */
  lemma {:induction false} TrimIgnoresTrailingSlashes(s: string, n: nat)
    ensures TrimEndSlashes(s + Slashes(n)) == TrimEndSlashes(s)
  {
    if n > 0 {
      var t := s + Slashes(n);
      assert t[..|t| - 1] == s + Slashes(n - 1);
      TrimIgnoresTrailingSlashes(s, n - 1);
    } else {
      assert s + Slashes(n) == s;
    }
  }

  /** Normalising is idempotent. */
  lemma NormaliseIdempotent(s: string)
    ensures NormaliseBaseUrl(NormaliseBaseUrl(s)) == NormaliseBaseUrl(s)
  {
    var t := TrimEndSlashes(s);
    TrimIgnoresTrailingSlashes(t, 1);
    TrimWithoutTrailingSlash(t);
  }

  /** Inputs that differ only in their number of trailing slashes normalise alike. */
  lemma NormaliseIgnoresTrailingSlashes(s: string, n: nat)
    ensures NormaliseBaseUrl(s + Slashes(n)) == NormaliseBaseUrl(s)
  {
    TrimIgnoresTrailingSlashes(s, n);
  }

  /** `util::deserialize_base_url`: parse the normalised text; a parse error is reported as "Invalid `Url`: ..". */
  function DeserializeBaseUrl(s: string, parse: string -> Result<Url, string>): (r: Result<Url, string>)
    ensures r.Ok? <==> parse(NormaliseBaseUrl(s)).Ok?
    ensures r.Ok? ==> r.value == parse(NormaliseBaseUrl(s)).value
    ensures r.Err? ==> r.error == "Invalid `Url`: " + parse(NormaliseBaseUrl(s)).error
  {
    match parse(NormaliseBaseUrl(s))
    case Ok(u) => Ok(u)
    case Err(e) => Err("Invalid `Url`: " + e)
  }

  /** Trailing slashes in the configured address never change what is deserialised. */
  lemma DeserializeIgnoresTrailingSlashes(s: string, n: nat, parse: string -> Result<Url, string>)
    ensures DeserializeBaseUrl(s + Slashes(n), parse) == DeserializeBaseUrl(s, parse)
  {
    NormaliseIgnoresTrailingSlashes(s, n);
  }

  /** `util::deserialize_secret_string`: always `Some`, holding the text unchanged. */
  function DeserializeSecretString(s: string): (r: Option<Secret>)
    ensures r.Some? && r.value.exposed == s
  {
    Some(Secret(s))
  }
}
