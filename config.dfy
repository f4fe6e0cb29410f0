/** Reading the application settings from the process environment:
    defaults for the optional variables, the two API keys that must be
    present (the Deepgram key checked first), and PORT parsed as Python's
    `int()` parses a string. */
module Config {
  import opened Wrappers
  import opened Text

  const DEFAULT_MONGODB_URI: string := "mongodb://localhost:27017"
  const DEFAULT_MONGODB_DB: string := "radio_mirchi"
  const DEFAULT_SECRET_KEY: string := "your_secret_key_here"
  const DEFAULT_API_SECRET: string := "your_api_secret_here"
  const DEFAULT_HOST: string := "0.0.0.0"
  const DEFAULT_PORT: int := 8000

  datatype Settings = Settings(
    mongodbUri: string,
    mongodbDb: string,
    deepgramApiKey: string,
    googleApiKey: string,
    secretKey: string,
    apiSecret: string,
    host: string,
    port: int)

  /** Why construction raised `ValueError`: a required variable is unset, or
      PORT is not an integer literal. */
  datatype ConfigError = MissingVariable(name: string) | InvalidPort(value: string)

  // ---------------------------------------------------------------- int()

  predicate IsDigit(c: char) {
    '0' <= c <= '9'
  }

  predicate AllDigits(s: string) {
    forall k :: 0 <= k < |s| ==> IsDigit(s[k])
  }

  /** Decimal digits, with single underscores allowed between two digits:
      it starts and ends with a digit and has no two underscores in a row. */
  predicate DigitGroups(s: string) {
    && |s| > 0 && IsDigit(s[0])
    && (forall k :: 0 <= k < |s| ==> IsDigit(s[k]) || s[k] == '_')
    && (forall k :: 0 <= k < |s| ==> DigitFollowsUnderscore(s, k))
  }

  predicate DigitFollowsUnderscore(s: string, k: nat)
    requires k < |s|
  {
    s[k] == '_' ==> k + 1 < |s| && IsDigit(s[k + 1])
  }

  function WithoutUnderscores(s: string): (r: string)
    ensures |r| <= |s|
  {
    if s == [] then [] else (if s[0] == '_' then [] else [s[0]]) + WithoutUnderscores(s[1..])
  }

  lemma {:induction false} WithoutUnderscoresDigits(s: string)
    requires forall k :: 0 <= k < |s| ==> IsDigit(s[k]) || s[k] == '_'
    ensures AllDigits(WithoutUnderscores(s))
  {
    if s != [] {
      WithoutUnderscoresDigits(s[1..]);
    }
  }

  lemma {:induction false} WithoutUnderscoresKeepsDigits(s: string)
    requires AllDigits(s)
    ensures WithoutUnderscores(s) == s
  {
    if s != [] {
      WithoutUnderscoresKeepsDigits(s[1..]);
    }
  }

  function DigitValue(c: char): nat
    requires IsDigit(c)
  {
    (c as int) - ('0' as int)
  }

  /** The value of a string of decimal digits, most significant first. */
  function DigitsValue(s: string): nat
    requires AllDigits(s)
  {
    if s == [] then 0 else 10 * DigitsValue(s[..|s| - 1]) + DigitValue(s[|s| - 1])
  }

  /** `int()` on what follows the optional sign. */
  function ParseUnsigned(s: string): (r: Option<nat>)
    ensures r.Some? <==> DigitGroups(s)
  {
    if DigitGroups(s) then
      WithoutUnderscoresDigits(s);
      Some(DigitsValue(WithoutUnderscores(s)))
    else None
  }

  /** The whitespace `int()` skips around the number: the six ASCII
      whitespace characters tab, newline, vertical tab, form feed, carriage
      return and space, and every non-ASCII character `str.isspace()`
      accepts. The ASCII separators U+001C to U+001F, which `str.isspace()`
      also accepts, are not skipped. */
  predicate IntSpace(c: char) {
    ('\U{0009}' <= c <= '\U{000D}') || c == ' ' || (c as int >= 0x80 && IsSpace(c))
  }

  /** `int()` skips less than `str.strip()` removes: exactly the four
      ASCII separators are whitespace to `strip()` and not to `int()`. */
  lemma IntSpaceWithinIsSpace(c: char)
    ensures IntSpace(c) ==> IsSpace(c)
    ensures (IsSpace(c) && !IntSpace(c)) <==> '\U{001C}' <= c <= '\U{001F}'
  {
  }

  /** Python's `int(s)` for a `str` argument in base 10: surrounding
      whitespace is ignored, one optional sign, then digit groups. `None`
      is the `ValueError`. */
  function ParseInt(s: string): (r: Option<int>)
    ensures var t := StripBy(s, IntSpace);
            r.Some? <==> DigitGroups(t) || (|t| > 0 && (t[0] == '+' || t[0] == '-') && DigitGroups(t[1..]))
  {
    var t := StripBy(s, IntSpace);
    if |t| > 0 && (t[0] == '+' || t[0] == '-') then
      match ParseUnsigned(t[1..])
      case None => None
      case Some(v) =>
        var value: int := if t[0] == '-' then -(v as int) else v;
        Some(value)
    else
      match ParseUnsigned(t)
      case None => None
      case Some(v) => Some(v)
  }

  function DigitChar(d: nat): (c: char)
    requires d < 10
    ensures IsDigit(c) && DigitValue(c) == d
  {
    ((d + '0' as int) as char)
  }

  /** The decimal digits of `n` without leading zeros. */
  function NatToDigits(n: nat): (s: string)
    ensures |s| > 0 && AllDigits(s)
    ensures |s| > 1 ==> s[0] != '0'
  {
    if n < 10 then [DigitChar(n)] else NatToDigits(n / 10) + [DigitChar(n % 10)]
  }

  /** `str(n)`. */
  function IntToString(n: int): string {
    if n < 0 then "-" + NatToDigits(-n) else NatToDigits(n)
  }

  lemma {:induction false} DigitsRoundTrip(n: nat)
    ensures DigitsValue(NatToDigits(n)) == n
  {
    if n >= 10 {
      var s := NatToDigits(n);
      assert s[..|s| - 1] == NatToDigits(n / 10);
      DigitsRoundTrip(n / 10);
    }
  }

  /** `int()` reads back the digits of a natural number. */
  lemma ParseUnsignedDigits(n: nat)
    ensures ParseUnsigned(NatToDigits(n)) == Some(n)
  {
    var digits := NatToDigits(n);
    assert DigitGroups(digits);
    WithoutUnderscoresKeepsDigits(digits);
    DigitsRoundTrip(n);
  }

  /** `int(str(n)) == n` for every integer. */
  lemma ParseIntRoundTrip(n: int)
    ensures ParseInt(IntToString(n)) == Some(n)
  {
    var s := IntToString(n);
    var digits := NatToDigits(if n < 0 then -n else n);
    ParseUnsignedDigits(if n < 0 then -n else n);
    assert !IntSpace(s[0]) && !IntSpace(s[|s| - 1]);
    StripOfStripped(s, IntSpace);
    if n < 0 {
      assert s[1..] == digits;
    } else {
      assert s == digits && IsDigit(s[0]);
    }
  }

  // ---------------------------------------------------------------- settings

  function Getenv(env: map<string, string>, key: string, default: string): string {
    if key in env then env[key] else default
  }

  /** `Settings()` with the environment `env`. */
  function LoadSettings(env: map<string, string>): (r: Result<Settings, ConfigError>)
    ensures "DEEPGRAM_API_KEY" !in env ==> r == Failure(MissingVariable("DEEPGRAM_API_KEY"))
    ensures "DEEPGRAM_API_KEY" in env && "GOOGLE_API_KEY" !in env ==>
              r == Failure(MissingVariable("GOOGLE_API_KEY"))
    ensures r.Success? <==> "DEEPGRAM_API_KEY" in env && "GOOGLE_API_KEY" in env
                            && ("PORT" in env ==> ParseInt(env["PORT"]).Some?)
    ensures r.Failure? && "DEEPGRAM_API_KEY" in env && "GOOGLE_API_KEY" in env ==>
              r.error == InvalidPort(env["PORT"])
    ensures r.Success? ==> (
              && r.value.mongodbUri == Getenv(env, "MONGODB_URI", DEFAULT_MONGODB_URI)
              && r.value.mongodbDb == Getenv(env, "MONGODB_DB", DEFAULT_MONGODB_DB)
              && r.value.deepgramApiKey == env["DEEPGRAM_API_KEY"]
              && r.value.googleApiKey == env["GOOGLE_API_KEY"]
              && r.value.secretKey == Getenv(env, "SECRET_KEY", DEFAULT_SECRET_KEY)
              && r.value.apiSecret == Getenv(env, "API_SECRET", DEFAULT_API_SECRET)
              && r.value.host == Getenv(env, "HOST", DEFAULT_HOST)
              && r.value.port == (if "PORT" in env then ParseInt(env["PORT"]).value else DEFAULT_PORT))
  {
    var mongodbUri := Getenv(env, "MONGODB_URI", DEFAULT_MONGODB_URI);
    var mongodbDb := Getenv(env, "MONGODB_DB", DEFAULT_MONGODB_DB);
    if "DEEPGRAM_API_KEY" !in env then Failure(MissingVariable("DEEPGRAM_API_KEY"))
    else if "GOOGLE_API_KEY" !in env then Failure(MissingVariable("GOOGLE_API_KEY"))
    else
      var secretKey := Getenv(env, "SECRET_KEY", DEFAULT_SECRET_KEY);
      var apiSecret := Getenv(env, "API_SECRET", DEFAULT_API_SECRET);
      var host := Getenv(env, "HOST", DEFAULT_HOST);
      var port: Option<int> := if "PORT" in env then ParseInt(env["PORT"]) else Some(DEFAULT_PORT);
      if port.None? then Failure(InvalidPort(env["PORT"]))
      else Success(Settings(mongodbUri, mongodbDb, env["DEEPGRAM_API_KEY"], env["GOOGLE_API_KEY"],
                            secretKey, apiSecret, host, port.value))
  }

  /** An environment that spells out every setting, PORT written in
      decimal. */
  function Environment(s: Settings): map<string, string> {
    map["MONGODB_URI" := s.mongodbUri, "MONGODB_DB" := s.mongodbDb,
        "DEEPGRAM_API_KEY" := s.deepgramApiKey, "GOOGLE_API_KEY" := s.googleApiKey,
        "SECRET_KEY" := s.secretKey, "API_SECRET" := s.apiSecret,
        "HOST" := s.host, "PORT" := IntToString(s.port)]
  }

  /** Every settings value is read back unchanged from its environment. */
  lemma SettingsRoundTrip(s: Settings)
    ensures LoadSettings(Environment(s)) == Success(s)
  {
    ParseIntRoundTrip(s.port);
    assert Environment(s)["PORT"] == IntToString(s.port);
  }

  /** A PORT preceded by an ASCII separator is not an integer to `int()`,
      although `str.strip()` would remove the separator. */
  lemma SeparatorBeforePortRejected(env: map<string, string>)
    requires "DEEPGRAM_API_KEY" in env && "GOOGLE_API_KEY" in env
    ensures ParseInt("\U{001C}8000").None?
    ensures LoadSettings(env["PORT" := "\U{001C}8000"]) == Failure(InvalidPort("\U{001C}8000"))
  {
    var p := "\U{001C}8000";
    assert LeadingSpaces(p, IntSpace) == 0;
    var t := StripBy(p, IntSpace);
    assert t[0] == '\U{001C}';
  }

  /** Only absence is rejected: keys that are set to the empty string are
      accepted and kept. */
  lemma EmptyKeysAccepted(env: map<string, string>)
    requires "PORT" !in env
    ensures var e := env["DEEPGRAM_API_KEY" := ""]["GOOGLE_API_KEY" := ""];
            LoadSettings(e).Success? && LoadSettings(e).value.deepgramApiKey == ""
            && LoadSettings(e).value.googleApiKey == "" && LoadSettings(e).value.port == DEFAULT_PORT
  {
  }
}
