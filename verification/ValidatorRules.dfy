/**
Acceptance of an env file said from the characters of its values: which values count as filled in, as templates, as
numbers of proxies and as long enough, and the requirements key by key.
 */
module ValidatorRules {
  import opened Basics
  import opened Trimming
  import opened EnvFile
  import opened EnvValidator
  import opened ValidatorTheorems

  // ----- values

  /** Something besides white space. */
  ghost predicate Filled(value: string) {
    exists k :: 0 <= k < |value| && !IsJsSpace(value[k])
  }

  lemma FilledIs(value: string)
    ensures Filled(value) <==> TrimJs(value) != ""
  {
    var left, right := TrimSplits(IsJsSpace, value);
    var core := TrimJs(value);
    assert value == left + core + right;
    if core != "" {
      assert value[|left|] == core[0];
    } else {
      assert forall k :: 0 <= k < |value| ==> value[k] == if k < |left| then left[k] else right[k - |left|];
    }
  }

  /** The letter in either case. */
  predicate EitherCase(c: char, lower: char) {
    c == lower || ('a' <= lower <= 'z' && c as int + 32 == lower as int)
  }

  /** `value` starts with the text, in either case. */
  ghost predicate Starts(value: string, text: string) {
    |text| <= |value| && forall k :: 0 <= k < |text| ==> EitherCase(value[k], text[k])
  }

  ghost predicate Reads(value: string, text: string) {
    |value| == |text| && Starts(value, text)
  }

  /** The values of the templates, in either case. */
  ghost predicate Template(value: string) {
    || Reads(value, "change_me") || Reads(value, "replace_me") || Reads(value, "example.com")
    || Reads(value, "https://api.example.com") || Reads(value, "https://shop.example.com")
    || Reads(value, "ops@example.com") || Reads(value, "mailer@example.com")
    || Starts(value, "replace_with_")
  }

  ghost predicate NoCapitals(text: string) {
    forall k :: 0 <= k < |text| ==> !('A' <= text[k] <= 'Z')
  }

  lemma LowerPrefix(value: string, text: string)
    requires NoCapitals(text)
    ensures text <= LowerAscii(value) <==> Starts(value, text)
  {
    var v := LowerAscii(value);
    if |text| <= |value| {
      forall k | 0 <= k < |text|
        ensures v[k] == text[k] <==> EitherCase(value[k], text[k])
      {
      }
      if Starts(value, text) {
        assert forall k :: 0 <= k < |text| ==> v[..|text|][k] == text[k];
        assert v[..|text|] == text;
      }
    }
  }

  lemma LowerEqual(value: string, text: string)
    requires NoCapitals(text)
    ensures LowerAscii(value) == text <==> Reads(value, text)
  {
    hide Starts, NoCapitals, LowerAscii;
    LowerPrefix(value, text);
    if |value| == |text| {
      PrefixWhole(LowerAscii(value), text);
    }
  }

  lemma PrefixWhole(v: string, text: string)
    requires |v| == |text|
    ensures text <= v <==> v == text
  {
  }

  lemma TemplatesAreLower()
    ensures NoCapitals("change_me") && NoCapitals("replace_me") && NoCapitals("example.com")
    ensures NoCapitals("https://api.example.com") && NoCapitals("https://shop.example.com")
    ensures NoCapitals("ops@example.com") && NoCapitals("mailer@example.com") && NoCapitals("replace_with_")
  {
  }

  lemma PlaceholderIs(value: string)
    ensures IsPlaceholder(value) <==> Template(value)
  {
    hide Reads, Starts, LowerAscii, NoCapitals;
    TemplatesAreLower();
    LowerEqual(value, "change_me");
    LowerEqual(value, "replace_me");
    LowerEqual(value, "example.com");
    LowerEqual(value, "https://api.example.com");
    LowerEqual(value, "https://shop.example.com");
    LowerEqual(value, "ops@example.com");
    LowerEqual(value, "mailer@example.com");
    LowerPrefix(value, "replace_with_");
  }

  /** Nothing, or zeros and one digit up to five. */
  ghost predicate HopsFit(value: string) {
    value == ""
    || ((forall k :: 0 <= k < |value| - 1 ==> value[k] == '0') && '0' <= value[|value| - 1] <= '5')
  }

  lemma {:induction false} DecimalZero(s: string)
    requires s == "" || AllDigits(s)
    ensures Decimal(s) == 0 <==> forall k :: 0 <= k < |s| ==> s[k] == '0'
  {
    if s != "" {
      DecimalZero(s[..|s| - 1]);
      assert forall k :: 0 <= k < |s| - 1 ==> s[..|s| - 1][k] == s[k];
    }
  }

  lemma HopsAre(env: Env)
    ensures BadHops(env) <==> !HopsFit(Get(env, "TRUST_PROXY_HOPS"))
  {
    hide Get;
    var hops := Get(env, "TRUST_PROXY_HOPS");
    if hops != "" && AllDigits(hops) {
      var front := hops[..|hops| - 1];
      DecimalZero(front);
      assert forall k :: 0 <= k < |front| ==> front[k] == hops[k];
    }
  }

  /** The characters that JavaScript counts twice. */
  ghost function Wide(s: string): set<int> {
    set k | 0 <= k < |s| && s[k] as int >= 0x10000
  }

  lemma WideSnoc(s: string, c: char)
    ensures |Wide(s + [c])| == |Wide(s)| + if c as int >= 0x10000 then 1 else 0
  {
    assert Wide(s + [c]) == Wide(s) + if c as int >= 0x10000 then {|s|} else {};
  }

  /** `value.length` counts characters, those beyond the basic plane twice. */
  lemma {:induction false} LengthIs(s: string)
    ensures Utf16Length(s) == |s| + |Wide(s)|
  {
    hide Wide, Utf16Length;
    if s == "" {
      NothingLong();
    } else {
      var n := |s| - 1;
      LengthIs(s[..n]);
      LengthSnoc(s[..n], s[n]);
      WideSnoc(s[..n], s[n]);
      assert s == s[..n] + [s[n]];
    }
  }

  lemma NothingLong()
    ensures Utf16Length("") == 0 && Wide("") == {}
  {
  }

  lemma {:induction false} LengthSnoc(s: string, c: char)
    ensures Utf16Length(s + [c]) == Utf16Length(s) + if c as int >= 0x10000 then 2 else 1
  {
    if s != "" {
      assert (s + [c])[1..] == s[1..] + [c];
      LengthSnoc(s[1..], c);
    }
  }

  // ----- the requirements, key by key

  ghost predicate Real(env: Env, key: string) {
    Filled(Get(env, key)) && !Template(TrimJs(Get(env, key)))
  }

  /** A secret that is filled in and no template has at least `n` code units. */
  ghost predicate LongEnough(env: Env, key: string, n: nat) {
    Real(env, key) ==> var v := TrimJs(Get(env, key)); |v| + |Wide(v)| >= n
  }

  ghost predicate SecretsMeet(env: Env) {
    && (Get(env, "DEPLOYMENT_PROFILE") != "thesis-demo" ==> LongEnough(env, "DB_PASSWORD", 16))
    && LongEnough(env, "JWT_SECRET", 32) && LongEnough(env, "JWT_REFRESH_SECRET", 32)
    && LongEnough(env, "INTERNAL_SERVICE_SECRET", 32) && LongEnough(env, "GATEWAY_SERVICE_SECRET", 32)
    && LongEnough(env, "PAYMENT_WEBHOOK_SHARED_SECRET", 32) && LongEnough(env, "VNPAY_HASH_SECRET", 32)
  }

  ghost predicate ZaloMeets(env: Env) {
    Get(env, "ZALO_NOTIFICATION_ENABLED") == "true" ==>
      && Filled(Get(env, "ZALO_IMEI")) && Filled(Get(env, "ZALO_USER_AGENT"))
      && (Filled(Get(env, "ZALO_COOKIE_BASE64")) || Filled(Get(env, "ZALO_COOKIE_JSON")))
      && (Filled(Get(env, "ZALO_GROUP_ID")) || Filled(Get(env, "ZALO_GROUP_IDS")))
  }

  ghost predicate UrlsMeet(env: Env) {
    Get(env, "APP_ENV") == "production" ==>
      && !Contains(Get(env, "NEXT_PUBLIC_API_URL"), "localhost")
      && !Contains(Get(env, "NEXT_PUBLIC_SOCKET_URL"), "localhost")
      && !Contains(Get(env, "FRONTEND_URL"), "localhost")
  }

  ghost predicate KeysMeet(env: Env) {
    && (forall key :: key in REQUIRED_KEYS ==> Real(env, key))
    && (forall key :: key in SUGGESTED_KEYS && Filled(Get(env, key)) ==> !Template(TrimJs(Get(env, key))))
  }

  /** `text` stands somewhere in `value`, in either case. */
  ghost predicate Mentions(value: string, text: string) {
    exists k :: 0 <= k <= |value| && Starts(value[k..], text)
  }

  ghost predicate CallbackMeets(value: string) {
    value == "" || "https://" <= value
  }

  ghost predicate StrictMeets(env: Env) {
    && Get(env, "PAYMENT_ALLOW_UNVERIFIED_WEBHOOKS") == "false"
    && Get(env, "PAYMENT_SIMULATION_ALLOW_PRODUCTION") == "false"
    && Get(env, "PAYMENT_SIMULATION_ENABLED") == "false"
    && Get(env, "PAYMENT_REFUND_SIMULATION_ENABLED") == "false"
    && Get(env, "NEXT_PUBLIC_ENABLE_PAYMENT_SIMULATION") == "false"
    && Get(env, "DISABLE_EMAIL_VERIFICATION") != "true"
    && Real(env, "MAIL_HOST") && Real(env, "MAIL_PORT") && Real(env, "MAIL_USER") && Real(env, "MAIL_PASS")
    && Real(env, "MAIL_FROM")
    && Get(env, "VNPAY_ENVIRONMENT") == "production"
    && !Mentions(Get(env, "VNPAY_PAYMENT_URL"), "sandbox")
    && CallbackMeets(Get(env, "VNPAY_RETURN_URL")) && CallbackMeets(Get(env, "VNPAY_IPN_URL"))
  }

  ghost predicate ProfileMeets(env: Env) {
    Get(env, "APP_ENV") == "production" ==>
      if Get(env, "DEPLOYMENT_PROFILE") == "thesis-demo"
      then Get(env, "PAYMENT_ALLOW_UNVERIFIED_WEBHOOKS") == "false"
      else StrictMeets(env)
  }

  /** All that an env file has to meet. */
  ghost predicate Meets(env: Env) {
    && SecretsMeet(env) && KeysMeet(env) && ZaloMeets(env) && UrlsMeet(env) && ProfileMeets(env)
    && HopsFit(Get(env, "TRUST_PROXY_HOPS"))
    && (Get(env, "SERPAPI_API_KEY") != "" ==> Get(env, "SERPAPI_KEY") != "")
  }

  // ----- the checks against the requirements

  lemma MissingIs(env: Env, key: string)
    ensures IsMissing(env, key) <==> !Filled(Get(env, key))
  {
    hide Get, TrimJs, Filled;
    FilledIs(Get(env, key));
  }

  lemma RealIs(env: Env, key: string)
    ensures Real(env, key) <==> !IsMissing(env, key) && !IsPlaceholder(Trimmed(env, key))
  {
    hide Get, TrimJs, Filled, IsPlaceholder, Template;
    FilledIs(Get(env, key));
    PlaceholderIs(TrimJs(Get(env, key)));
  }

  lemma ShortIs(env: Env, key: string, n: nat)
    ensures IsShort(env, Secret(key, n)) <==> !LongEnough(env, key, n)
  {
    hide Get, TrimJs, Real, IsPlaceholder, IsMissing, Wide, Utf16Length;
    RealIs(env, key);
    TrimmedIs(env, key);
    LengthIs(TrimJs(Get(env, key)));
  }

  lemma TrimmedIs(env: Env, key: string)
    ensures Trimmed(env, key) == TrimJs(Get(env, key))
  {
  }

  lemma SecretsListed(s: Secret)
    ensures s in MINIMUM_SECRET_LENGTHS <==>
            || s == Secret("DB_PASSWORD", 16) || s == Secret("JWT_SECRET", 32) || s == Secret("JWT_REFRESH_SECRET", 32)
            || s == Secret("INTERNAL_SERVICE_SECRET", 32) || s == Secret("GATEWAY_SERVICE_SECRET", 32)
            || s == Secret("PAYMENT_WEBHOOK_SHARED_SECRET", 32) || s == Secret("VNPAY_HASH_SECRET", 32)
  {
    var all := MINIMUM_SECRET_LENGTHS;
    assert all[0] in all && all[1] in all && all[2] in all && all[3] in all && all[4] in all && all[5] in all;
    assert all[6] in all;
  }

  /** The check of one secret, excused for the database password of the demo. */
  ghost predicate Excused(env: Env, s: Secret) {
    IsDemo(env) && s.key == "DB_PASSWORD"
  }

  ghost predicate FitsOrExcused(env: Env, s: Secret) {
    Excused(env, s) || !IsShort(env, s)
  }

  lemma SecretFits(env: Env, key: string, n: nat)
    ensures FitsOrExcused(env, Secret(key, n)) <==>
            (!(Get(env, "DEPLOYMENT_PROFILE") == "thesis-demo" && key == "DB_PASSWORD") ==> LongEnough(env, key, n))
  {
    hide Get, IsShort, LongEnough;
    ShortIs(env, key, n);
    assert IsDemo(env) <==> Get(env, "DEPLOYMENT_PROFILE") == "thesis-demo";
  }

  lemma SecretsEach(env: Env)
    ensures (forall s :: s in MINIMUM_SECRET_LENGTHS ==> FitsOrExcused(env, s)) <==>
            && FitsOrExcused(env, Secret("DB_PASSWORD", 16)) && FitsOrExcused(env, Secret("JWT_SECRET", 32))
            && FitsOrExcused(env, Secret("JWT_REFRESH_SECRET", 32))
            && FitsOrExcused(env, Secret("INTERNAL_SERVICE_SECRET", 32))
            && FitsOrExcused(env, Secret("GATEWAY_SERVICE_SECRET", 32))
            && FitsOrExcused(env, Secret("PAYMENT_WEBHOOK_SHARED_SECRET", 32))
            && FitsOrExcused(env, Secret("VNPAY_HASH_SECRET", 32))
  {
    hide FitsOrExcused, MINIMUM_SECRET_LENGTHS;
    if s :| s in MINIMUM_SECRET_LENGTHS && !FitsOrExcused(env, s) {
      SecretsListed(s);
    } else {
      SecretsListed(Secret("DB_PASSWORD", 16));
      SecretsListed(Secret("JWT_SECRET", 32));
      SecretsListed(Secret("JWT_REFRESH_SECRET", 32));
      SecretsListed(Secret("INTERNAL_SERVICE_SECRET", 32));
      SecretsListed(Secret("GATEWAY_SERVICE_SECRET", 32));
      SecretsListed(Secret("PAYMENT_WEBHOOK_SHARED_SECRET", 32));
      SecretsListed(Secret("VNPAY_HASH_SECRET", 32));
    }
  }

  lemma SecretsAre(env: Env)
    ensures SecretRequirements(env) <==> SecretsMeet(env)
  {
    hide Get, FitsOrExcused, LongEnough, SecretRequirements, MINIMUM_SECRET_LENGTHS;
    SecretsFit(env);
    SecretsEach(env);
    SecretFits(env, "DB_PASSWORD", 16);
    SecretFits(env, "JWT_SECRET", 32);
    SecretFits(env, "JWT_REFRESH_SECRET", 32);
    SecretFits(env, "INTERNAL_SERVICE_SECRET", 32);
    SecretFits(env, "GATEWAY_SERVICE_SECRET", 32);
    SecretFits(env, "PAYMENT_WEBHOOK_SHARED_SECRET", 32);
    SecretFits(env, "VNPAY_HASH_SECRET", 32);
  }

  lemma SecretsFit(env: Env)
    ensures SecretRequirements(env) <==> forall s :: s in MINIMUM_SECRET_LENGTHS ==> FitsOrExcused(env, s)
  {
    hide IsShort, IsDemo, MINIMUM_SECRET_LENGTHS;
  }

  lemma KeysAre(env: Env)
    ensures KeysMeet(env) <==>
            && (forall key :: key in REQUIRED_KEYS ==> !IsMissing(env, key) && !IsPlaceholder(Trimmed(env, key)))
            && (forall key :: key in SUGGESTED_KEYS ==> IsMissing(env, key) || !IsPlaceholder(Trimmed(env, key)))
  {
    hide Get, TrimJs, Filled, IsPlaceholder, Template, REQUIRED_KEYS, SUGGESTED_KEYS, IsMissing, Trimmed;
    forall key
      ensures Real(env, key) <==> !IsMissing(env, key) && !IsPlaceholder(Trimmed(env, key))
      ensures Filled(Get(env, key)) <==> !IsMissing(env, key)
      ensures Template(TrimJs(Get(env, key))) <==> IsPlaceholder(Trimmed(env, key))
    {
      RealIs(env, key);
      MissingIs(env, key);
      TrimmedIs(env, key);
      PlaceholderIs(TrimJs(Get(env, key)));
    }
    hide Real;
  }

  lemma ZaloIs(env: Env)
    ensures ZaloMeets(env) <==>
            (ZaloOn(env) ==>
              && (forall key :: key in ZALO_KEYS ==> !IsMissing(env, key))
              && (!IsMissing(env, "ZALO_COOKIE_BASE64") || !IsMissing(env, "ZALO_COOKIE_JSON"))
              && (!IsMissing(env, "ZALO_GROUP_ID") || !IsMissing(env, "ZALO_GROUP_IDS")))
  {
    hide Get, Filled, IsMissing;
    MissingIs(env, "ZALO_IMEI");
    MissingIs(env, "ZALO_USER_AGENT");
    MissingIs(env, "ZALO_COOKIE_BASE64");
    MissingIs(env, "ZALO_COOKIE_JSON");
    MissingIs(env, "ZALO_GROUP_ID");
    MissingIs(env, "ZALO_GROUP_IDS");
    assert ZALO_KEYS[0] in ZALO_KEYS && ZALO_KEYS[1] in ZALO_KEYS;
  }

  lemma UrlsAre(env: Env)
    ensures UrlsMeet(env) <==>
            (IsProduction(env) ==> forall key :: key in PUBLIC_URL_KEYS ==> !Contains(Get(env, key), "localhost"))
  {
    hide Get, Contains;
    assert PUBLIC_URL_KEYS[0] in PUBLIC_URL_KEYS && PUBLIC_URL_KEYS[1] in PUBLIC_URL_KEYS;
    assert PUBLIC_URL_KEYS[2] in PUBLIC_URL_KEYS;
  }

  lemma CommonIs(env: Env)
    ensures CommonRequirements(env) <==>
            && KeysMeet(env) && ZaloMeets(env) && UrlsMeet(env)
            && HopsFit(Get(env, "TRUST_PROXY_HOPS"))
            && (Get(env, "SERPAPI_API_KEY") != "" ==> Get(env, "SERPAPI_KEY") != "")
  {
    hide KeysMeet, ZaloMeets, UrlsMeet, HopsFit, BadHops, Get, IsMissing, IsPlaceholder, Trimmed, Contains, ZaloOn,
         IsProduction, REQUIRED_KEYS, SUGGESTED_KEYS, ZALO_KEYS, PUBLIC_URL_KEYS;
    KeysAre(env);
    ZaloIs(env);
    UrlsAre(env);
    HopsAre(env);
  }

  lemma {:induction false} SandboxIs(env: Env)
    ensures Sandboxed(env) <==> Mentions(Get(env, "VNPAY_PAYMENT_URL"), "sandbox")
  {
    hide Get, LowerAscii, Starts;
    var url := Get(env, "VNPAY_PAYMENT_URL");
    forall k | 0 <= k <= |url|
      ensures "sandbox" <= LowerAscii(url)[k..] <==> Starts(url[k..], "sandbox")
    {
      LowerSuffix(url, k);
      LowerPrefix(url[k..], "sandbox");
    }
  }

  lemma LowerSuffix(s: string, k: nat)
    requires k <= |s|
    ensures LowerAscii(s)[k..] == LowerAscii(s[k..])
  {
  }

  lemma SwitchesAre(env: Env)
    ensures (forall key :: key in EARLY_SWITCHES || key in LATE_SWITCHES ==> Get(env, key) == "false") <==>
            && Get(env, "PAYMENT_ALLOW_UNVERIFIED_WEBHOOKS") == "false"
            && Get(env, "PAYMENT_SIMULATION_ALLOW_PRODUCTION") == "false"
            && Get(env, "PAYMENT_SIMULATION_ENABLED") == "false"
            && Get(env, "PAYMENT_REFUND_SIMULATION_ENABLED") == "false"
            && Get(env, "NEXT_PUBLIC_ENABLE_PAYMENT_SIMULATION") == "false"
  {
    hide Get;
    assert EARLY_SWITCHES[0] in EARLY_SWITCHES && EARLY_SWITCHES[1] in EARLY_SWITCHES;
    assert LATE_SWITCHES[0] in LATE_SWITCHES && LATE_SWITCHES[1] in LATE_SWITCHES && LATE_SWITCHES[2] in LATE_SWITCHES;
  }

  lemma MailIs(env: Env)
    ensures (forall key :: key in MAIL_KEYS ==> !IsMissing(env, key) && !IsPlaceholder(Trimmed(env, key))) <==>
            && Real(env, "MAIL_HOST") && Real(env, "MAIL_PORT") && Real(env, "MAIL_USER") && Real(env, "MAIL_PASS")
            && Real(env, "MAIL_FROM")
  {
    hide Get, Trimmed, Real, IsMissing, IsPlaceholder;
    forall key { RealIs(env, key); }
    var keys := MAIL_KEYS;
    assert keys[0] in keys && keys[1] in keys && keys[2] in keys && keys[3] in keys && keys[4] in keys;
  }

  lemma CallbacksAre(env: Env)
    ensures (forall key :: key in CALLBACK_KEYS ==> Get(env, key) == "" || "https://" <= Get(env, key)) <==>
            CallbackMeets(Get(env, "VNPAY_RETURN_URL")) && CallbackMeets(Get(env, "VNPAY_IPN_URL"))
  {
    hide Get;
    assert CALLBACK_KEYS[0] in CALLBACK_KEYS && CALLBACK_KEYS[1] in CALLBACK_KEYS;
  }

  lemma StrictIs(env: Env)
    ensures StrictRequirements(env) <==> StrictMeets(env)
  {
    hide Get, Real, Sandboxed, Mentions, CallbackMeets, IsMissing, IsPlaceholder, Trimmed, EARLY_SWITCHES,
         LATE_SWITCHES, MAIL_KEYS, CALLBACK_KEYS;
    SwitchesAre(env);
    MailIs(env);
    SandboxIs(env);
    CallbacksAre(env);
  }

  lemma ProfileIs(env: Env)
    ensures ProfileMeets(env) <==>
            && (IsProduction(env) && !IsDemo(env) ==> StrictRequirements(env))
            && (IsProduction(env) && IsDemo(env) ==> Get(env, "PAYMENT_ALLOW_UNVERIFIED_WEBHOOKS") == "false")
  {
    hide Get, StrictRequirements, StrictMeets;
    StrictIs(env);
  }

  /** An environment raises no problem if and only if it meets the requirements, character by character. */
  lemma {:induction false} AcceptedIff(env: Env)
    ensures Problems(env) == [] <==> Meets(env)
  {
    hide Problems, SecretsMeet, KeysMeet, ZaloMeets, UrlsMeet, ProfileMeets, HopsFit, SecretRequirements,
         CommonRequirements, StrictRequirements, Get, IsProduction, IsDemo;
    Decision(env);
    SecretsAre(env);
    CommonIs(env);
    ProfileIs(env);
  }

  // ----- warnings

  lemma {:induction false} ShortWarned(env: Env, secrets: seq<Secret>)
    ensures ShortPassword in SecretWarnings(env, secrets) <==>
            exists s :: s in secrets && IsShort(env, s) && Forgiven(env, s)
    ensures DemoProfile !in SecretWarnings(env, secrets)
  {
    hide IsShort, IsDemo;
    if secrets != [] {
      var n := |secrets| - 1;
      ShortWarned(env, secrets[..n]);
      assert secrets == secrets[..n] + [secrets[n]];
    }
  }

  /** The two warnings: a short database password in the demo profile, and the demo profile in production. */
  lemma WarnedIff(env: Env)
    ensures ShortPassword in Warnings(env) <==>
            Get(env, "DEPLOYMENT_PROFILE") == "thesis-demo" && !LongEnough(env, "DB_PASSWORD", 16)
    ensures DemoProfile in Warnings(env) <==>
            Get(env, "DEPLOYMENT_PROFILE") == "thesis-demo" && Get(env, "APP_ENV") == "production"
  {
    hide Get, IsShort, LongEnough, MINIMUM_SECRET_LENGTHS, SecretWarnings;
    ShortWarned(env, MINIMUM_SECRET_LENGTHS);
    ShortIs(env, "DB_PASSWORD", 16);
    SecretsListed(Secret("DB_PASSWORD", 16));
    forall s | s in MINIMUM_SECRET_LENGTHS && s.key == "DB_PASSWORD"
      ensures s == Secret("DB_PASSWORD", 16)
    {
      SecretsListed(s);
    }
  }
}
