/**
The decision procedure of scripts/validate-production-env.js: which problems and warnings an
environment gives rise to, under the strict and the thesis-demo profile.
 */
module EnvValidator {
  import opened Basics
  import opened EnvFile

  type Env = map<string, string>

  const REQUIRED_KEYS: seq<string> := [
    "DB_HOST", "DB_PORT", "DB_USERNAME", "DB_PASSWORD", "DB_DATABASE", "FRONTEND_URL", "API_GATEWAY_PUBLIC_URL",
    "NEXT_PUBLIC_API_URL", "NEXT_PUBLIC_SOCKET_URL", "JWT_SECRET", "JWT_REFRESH_SECRET", "INTERNAL_SERVICE_SECRET",
    "GATEWAY_SERVICE_SECRET", "PAYMENT_WEBHOOK_SHARED_SECRET", "USER_SERVICE_URL", "PRODUCT_SERVICE_URL",
    "CART_SERVICE_URL", "ORDER_SERVICE_URL", "PAYMENT_SERVICE_URL", "VOUCHER_SERVICE_URL", "TRYON_SERVICE_URL",
    "MARKET_ANALYSIS_SERVICE_URL", "CHATBOT_SERVICE_URL", "VNPAY_ENVIRONMENT", "VNPAY_TMN_CODE", "VNPAY_HASH_SECRET",
    "VNPAY_PAYMENT_URL", "VNPAY_RETURN_URL", "VNPAY_IPN_URL"
  ]

  const SUGGESTED_KEYS: seq<string> := [
    "MAIL_HOST", "MAIL_PORT", "MAIL_USER", "MAIL_PASS", "MAIL_FROM", "CLOUDINARY_CLOUD_NAME", "CLOUDINARY_API_KEY",
    "CLOUDINARY_API_SECRET", "PAYMENT_PUBLIC_RETURN_URL", "SERPAPI_KEY", "GEMINI_API_KEY", "FASHN_API_KEY", "QDRANT_URL"
  ]

  const MAIL_KEYS: seq<string> := ["MAIL_HOST", "MAIL_PORT", "MAIL_USER", "MAIL_PASS", "MAIL_FROM"]

  const ZALO_KEYS: seq<string> := ["ZALO_IMEI", "ZALO_USER_AGENT"]

  const CALLBACK_KEYS: seq<string> := ["VNPAY_RETURN_URL", "VNPAY_IPN_URL"]

  const PUBLIC_URL_KEYS: seq<string> := ["NEXT_PUBLIC_API_URL", "NEXT_PUBLIC_SOCKET_URL", "FRONTEND_URL"]

  /** Switches that have to be exactly `false` in production, in the order in which they are reported. */
  const EARLY_SWITCHES: seq<string> := ["PAYMENT_ALLOW_UNVERIFIED_WEBHOOKS", "PAYMENT_SIMULATION_ALLOW_PRODUCTION"]

  const LATE_SWITCHES: seq<string> := [
    "PAYMENT_SIMULATION_ENABLED", "PAYMENT_REFUND_SIMULATION_ENABLED", "NEXT_PUBLIC_ENABLE_PAYMENT_SIMULATION"
  ]

  datatype Secret = Secret(key: string, minimum: nat)

  const MINIMUM_SECRET_LENGTHS: seq<Secret> := [
    Secret("DB_PASSWORD", 16), Secret("JWT_SECRET", 32), Secret("JWT_REFRESH_SECRET", 32),
    Secret("INTERNAL_SERVICE_SECRET", 32), Secret("GATEWAY_SERVICE_SECRET", 32),
    Secret("PAYMENT_WEBHOOK_SHARED_SECRET", 32), Secret("VNPAY_HASH_SECRET", 32)
  ]

  const PROFILE := "DEPLOYMENT_PROFILE"

  const DEMO := "thesis-demo"

  datatype Problem =
    | TooShort(key: string)
    | ProxyHops
    | MissingHeader
    | Missing(key: string)
    | PlaceholderHeader
    | SuggestedHeader
    | Placeholder(key: string)
    | SerpapiName
    | Localhost(key: string)
    | ZaloMissing(key: string)
    | ZaloCookie
    | ZaloGroup
    | NotFalse(key: string)
    | NoEmailVerification
    | MailNotReal(key: string)
    | VnpayEnvironment
    | VnpaySandbox
    | NotHttps(key: string)
    | DemoWebhooks
  {
    /** The problems that only the strict production checks report. */
    predicate StrictOnly() {
      NotFalse? || NoEmailVerification? || MailNotReal? || VnpayEnvironment? || VnpaySandbox? || NotHttps?
    }
  }

  datatype Warning = ShortPassword | DemoProfile

  // ----- values

  /** `env[key]`, with the empty string for a missing key: no check tells the two apart. */
  function Get(env: Env, key: string): string {
    if key in env then env[key] else ""
  }

  function Trimmed(env: Env, key: string): string {
    TrimJs(Get(env, key))
  }

  function LowerAscii(s: string): (r: string)
    ensures |r| == |s|
  {
    seq(|s|, k requires 0 <= k < |s| => if 'A' <= s[k] <= 'Z' then (s[k] as int + 32) as char else s[k])
  }

  /** The patterns are ASCII, so that case folding outside ASCII never makes a match. */
  predicate IsPlaceholder(value: string) {
    var v := LowerAscii(value);
    || v in {
      "change_me", "replace_me", "example.com", "https://api.example.com", "https://shop.example.com",
      "ops@example.com", "mailer@example.com"
    }
    || "replace_with_" <= v
  }

  /** `value.length`: UTF-16 code units. */
  function Utf16Length(s: string): nat {
    if s == "" then 0 else (if s[0] as int >= 0x10000 then 2 else 1) + Utf16Length(s[1..])
  }

  predicate AllDigits(s: string) {
    s != "" && forall k :: 0 <= k < |s| ==> '0' <= s[k] <= '9'
  }

  function Decimal(s: string): nat
    requires s == "" || AllDigits(s)
  {
    if s == "" then 0 else 10 * Decimal(s[..|s| - 1]) + (s[|s| - 1] as int - '0' as int)
  }

  predicate IsDemo(env: Env) { Get(env, PROFILE) == DEMO }

  predicate IsProduction(env: Env) { Get(env, "APP_ENV") == "production" }

  // ----- the single checks, each true of a faulty environment

  predicate IsMissing(env: Env, key: string) { Trimmed(env, key) == "" }

  predicate IsMock(env: Env, key: string) { !IsMissing(env, key) && IsPlaceholder(Trimmed(env, key)) }

  predicate IsShort(env: Env, s: Secret) {
    !IsMissing(env, s.key) && !IsPlaceholder(Trimmed(env, s.key)) && Utf16Length(Trimmed(env, s.key)) < s.minimum
  }

  predicate BadHops(env: Env) {
    var hops := Get(env, "TRUST_PROXY_HOPS");
    hops != "" && (!AllDigits(hops) || Decimal(hops) > 5)
  }

  predicate BadSerpapi(env: Env) {
    Get(env, "SERPAPI_API_KEY") != "" && Get(env, "SERPAPI_KEY") == ""
  }

  predicate PointsHome(env: Env, key: string) {
    Contains(Get(env, key), "localhost") && IsProduction(env)
  }

  predicate ZaloOn(env: Env) { Get(env, "ZALO_NOTIFICATION_ENABLED") == "true" }

  predicate NoZaloCookie(env: Env) { IsMissing(env, "ZALO_COOKIE_BASE64") && IsMissing(env, "ZALO_COOKIE_JSON") }

  predicate NoZaloGroup(env: Env) { IsMissing(env, "ZALO_GROUP_ID") && IsMissing(env, "ZALO_GROUP_IDS") }

  predicate SwitchedOn(env: Env, key: string) { Get(env, key) != "false" }

  predicate NoRealMail(env: Env, key: string) { IsMissing(env, key) || IsPlaceholder(Trimmed(env, key)) }

  predicate Sandboxed(env: Env) { Contains(LowerAscii(Get(env, "VNPAY_PAYMENT_URL")), "sandbox") }

  predicate Insecure(env: Env, key: string) { Get(env, key) != "" && !("https://" <= Get(env, key)) }

  // ----- the report; specification

  /** The keys that fail a check, in order. */
  function Failing(check: (Env, string) -> bool, env: Env, keys: seq<string>): seq<string> {
    if keys == [] then []
    else
      var last := keys[|keys| - 1];
      Failing(check, env, keys[..|keys| - 1]) + (if check(env, last) then [last] else [])
  }

  function Report(kind: string -> Problem, keys: seq<string>): (r: seq<Problem>)
    ensures |r| == |keys|
  {
    seq(|keys|, k requires 0 <= k < |keys| => kind(keys[k]))
  }

  function MissingOf(key: string): Problem { Missing(key) }
  function PlaceholderOf(key: string): Problem { Placeholder(key) }
  function LocalhostOf(key: string): Problem { Localhost(key) }
  function ZaloOf(key: string): Problem { ZaloMissing(key) }
  function NotFalseOf(key: string): Problem { NotFalse(key) }
  function MailOf(key: string): Problem { MailNotReal(key) }
  function NotHttpsOf(key: string): Problem { NotHttps(key) }

  function One(bad: bool, p: Problem): seq<Problem> {
    if bad then [p] else []
  }

  /** A header, then one line per key, or nothing. */
  function Listing(header: Problem, kind: string -> Problem, keys: seq<string>): seq<Problem> {
    if keys == [] then [] else [header] + Report(kind, keys)
  }

  predicate Forgiven(env: Env, s: Secret) { IsDemo(env) && s.key == "DB_PASSWORD" }

  function SecretProblems(env: Env, secrets: seq<Secret>): seq<Problem> {
    if secrets == [] then []
    else
      var s := secrets[|secrets| - 1];
      SecretProblems(env, secrets[..|secrets| - 1]) + One(IsShort(env, s) && !Forgiven(env, s), TooShort(s.key))
  }

  function SecretWarnings(env: Env, secrets: seq<Secret>): seq<Warning> {
    if secrets == [] then []
    else
      var s := secrets[|secrets| - 1];
      SecretWarnings(env, secrets[..|secrets| - 1])
      + (if IsShort(env, s) && Forgiven(env, s) then [ShortPassword] else [])
  }

  function KeyProblems(env: Env): seq<Problem> {
    Listing(MissingHeader, MissingOf, Failing(IsMissing, env, REQUIRED_KEYS))
    + Listing(PlaceholderHeader, PlaceholderOf, Failing(IsMock, env, REQUIRED_KEYS))
    + Listing(SuggestedHeader, PlaceholderOf, Failing(IsMock, env, SUGGESTED_KEYS))
  }

  function ZaloProblems(env: Env): seq<Problem> {
    if !ZaloOn(env) then []
    else
      Report(ZaloOf, Failing(IsMissing, env, ZALO_KEYS))
      + One(NoZaloCookie(env), ZaloCookie)
      + One(NoZaloGroup(env), ZaloGroup)
  }

  function StrictProblems(env: Env): seq<Problem> {
    Report(NotFalseOf, Failing(SwitchedOn, env, EARLY_SWITCHES))
    + One(Get(env, "DISABLE_EMAIL_VERIFICATION") == "true", NoEmailVerification)
    + Report(MailOf, Failing(NoRealMail, env, MAIL_KEYS))
    + One(Get(env, "VNPAY_ENVIRONMENT") != "production", VnpayEnvironment)
    + One(Sandboxed(env), VnpaySandbox)
    + Report(NotHttpsOf, Failing(Insecure, env, CALLBACK_KEYS))
    + Report(NotFalseOf, Failing(SwitchedOn, env, LATE_SWITCHES))
  }

  /** The checks that do not look at the profile. */
  function CommonProblems(env: Env): seq<Problem> {
    One(BadHops(env), ProxyHops)
    + KeyProblems(env)
    + One(BadSerpapi(env), SerpapiName)
    + Report(LocalhostOf, Failing(PointsHome, env, PUBLIC_URL_KEYS))
    + ZaloProblems(env)
  }

  function ProfileProblems(env: Env): seq<Problem> {
    if !IsProduction(env) then []
    else if IsDemo(env) then One(SwitchedOn(env, "PAYMENT_ALLOW_UNVERIFIED_WEBHOOKS"), DemoWebhooks)
    else StrictProblems(env)
  }

  function Problems(env: Env): seq<Problem> {
    SecretProblems(env, MINIMUM_SECRET_LENGTHS) + CommonProblems(env) + ProfileProblems(env)
  }

  function Warnings(env: Env): seq<Warning> {
    SecretWarnings(env, MINIMUM_SECRET_LENGTHS) + (if IsProduction(env) && IsDemo(env) then [DemoProfile] else [])
  }

  // ----- the program

  /** A loop that pushes one problem per failing key. */
  method PushFailing(check: (Env, string) -> bool, kind: string -> Problem, env: Env, keys: seq<string>)
      returns (pushed: seq<Problem>)
    ensures pushed == Report(kind, Failing(check, env, keys))
  {
    pushed := [];
    for i := 0 to |keys|
      invariant pushed == Report(kind, Failing(check, env, keys[..i]))
    {
      assert keys[..i + 1][..i] == keys[..i];
      if check(env, keys[i]) {
        pushed := pushed + [kind(keys[i])];
      }
    }
    assert keys[..|keys|] == keys;
  }

  /** `keys.filter(check)`, and a header with one line per key if there are any. */
  method PushListing(
      header: Problem, check: (Env, string) -> bool, kind: string -> Problem, env: Env, keys: seq<string>)
      returns (pushed: seq<Problem>)
    ensures pushed == Listing(header, kind, Failing(check, env, keys))
  {
    pushed := PushFailing(check, kind, env, keys);
    if pushed != [] {
      pushed := [header] + pushed;
    }
  }

  method CheckSecrets(env: Env) returns (problems: seq<Problem>, warnings: seq<Warning>)
    ensures problems == SecretProblems(env, MINIMUM_SECRET_LENGTHS)
    ensures warnings == SecretWarnings(env, MINIMUM_SECRET_LENGTHS)
  {
    var secrets := MINIMUM_SECRET_LENGTHS;
    var isThesisDemo := IsDemo(env);
    problems, warnings := [], [];
    hide IsPlaceholder, Trimmed, Utf16Length, IsDemo;
    for i := 0 to |secrets|
      invariant problems == SecretProblems(env, secrets[..i])
      invariant warnings == SecretWarnings(env, secrets[..i])
    {
      assert secrets[..i + 1][..i] == secrets[..i];
      var s := secrets[i];
      var value := Trimmed(env, s.key);
      if value != "" && !IsPlaceholder(value) && Utf16Length(value) < s.minimum {
        if isThesisDemo && s.key == "DB_PASSWORD" {
          warnings := warnings + [ShortPassword];
        } else {
          problems := problems + [TooShort(s.key)];
        }
      }
    }
    assert secrets[..|secrets|] == secrets;
  }

  method CheckKeys(env: Env) returns (problems: seq<Problem>)
    ensures problems == KeyProblems(env)
  {
    hide Listing, Failing, REQUIRED_KEYS, SUGGESTED_KEYS;
    problems := PushListing(MissingHeader, IsMissing, MissingOf, env, REQUIRED_KEYS);
    var pushed := PushListing(PlaceholderHeader, IsMock, PlaceholderOf, env, REQUIRED_KEYS);
    problems := problems + pushed;
    pushed := PushListing(SuggestedHeader, IsMock, PlaceholderOf, env, SUGGESTED_KEYS);
    problems := problems + pushed;
  }

  method CheckZalo(env: Env) returns (problems: seq<Problem>)
    ensures problems == ZaloProblems(env)
  {
    hide Report, Failing, ZaloOn, NoZaloCookie, NoZaloGroup;
    if !ZaloOn(env) {
      return [];
    }
    problems := PushFailing(IsMissing, ZaloOf, env, ZALO_KEYS);
    if NoZaloCookie(env) {
      problems := problems + [ZaloCookie];
    }
    if NoZaloGroup(env) {
      problems := problems + [ZaloGroup];
    }
  }

  method CheckCommon(env: Env) returns (problems: seq<Problem>)
    ensures problems == CommonProblems(env)
  {
    hide KeyProblems, ZaloProblems, Report, Failing, BadHops, BadSerpapi;
    problems := if BadHops(env) then [ProxyHops] else [];
    var pushed := CheckKeys(env);
    problems := problems + pushed;
    if BadSerpapi(env) {
      problems := problems + [SerpapiName];
    }
    pushed := PushFailing(PointsHome, LocalhostOf, env, PUBLIC_URL_KEYS);
    problems := problems + pushed;
    pushed := CheckZalo(env);
    problems := problems + pushed;
  }

  lemma OneCases(problems: seq<Problem>, bad: bool, p: Problem)
    ensures problems + One(bad, p) == if bad then problems + [p] else problems
  {
  }

  method CheckStrict(env: Env) returns (problems: seq<Problem>)
    ensures problems == StrictProblems(env)
  {
    hide Report, Failing, Get, Sandboxed, One;
    problems := PushFailing(SwitchedOn, NotFalseOf, env, EARLY_SWITCHES);
    OneCases(problems, Get(env, "DISABLE_EMAIL_VERIFICATION") == "true", NoEmailVerification);
    if Get(env, "DISABLE_EMAIL_VERIFICATION") == "true" {
      problems := problems + [NoEmailVerification];
    }
    var pushed := PushFailing(NoRealMail, MailOf, env, MAIL_KEYS);
    problems := problems + pushed;
    OneCases(problems, Get(env, "VNPAY_ENVIRONMENT") != "production", VnpayEnvironment);
    if Get(env, "VNPAY_ENVIRONMENT") != "production" {
      problems := problems + [VnpayEnvironment];
    }
    OneCases(problems, Sandboxed(env), VnpaySandbox);
    if Sandboxed(env) {
      problems := problems + [VnpaySandbox];
    }
    pushed := PushFailing(Insecure, NotHttpsOf, env, CALLBACK_KEYS);
    problems := problems + pushed;
    pushed := PushFailing(SwitchedOn, NotFalseOf, env, LATE_SWITCHES);
    problems := problems + pushed;
  }

  /** The whole decision procedure; the file is accepted if there are no problems. */
  method Validate(env: Env) returns (problems: seq<Problem>, warnings: seq<Warning>)
    ensures problems == Problems(env)
    ensures warnings == Warnings(env)
  {
    hide SecretProblems, SecretWarnings, CommonProblems, StrictProblems, IsDemo, IsProduction, Get;
    problems, warnings := CheckSecrets(env);
    var isThesisDemo := IsDemo(env);
    var more := CheckCommon(env);
    problems := problems + more;
    if IsProduction(env) && !isThesisDemo {
      more := CheckStrict(env);
      problems := problems + more;
    }
    if IsProduction(env) && isThesisDemo {
      if Get(env, "PAYMENT_ALLOW_UNVERIFIED_WEBHOOKS") != "false" {
        problems := problems + [DemoWebhooks];
      }
      warnings := warnings + [DemoProfile];
    }
  }

  method ValidateFile(contents: string) returns (accepted: bool, problems: seq<Problem>, warnings: seq<Warning>)
    ensures accepted <==> Problems(EnvOf(contents)) == []
    ensures problems == Problems(EnvOf(contents)) && warnings == Warnings(EnvOf(contents))
  {
    hide Problems, Warnings, EnvOf;
    var env := ParseEnvFile(contents);
    problems, warnings := Validate(env);
    accepted := problems == [];
  }
}
