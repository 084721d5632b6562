/**
What acceptance of an env file means, and how the two deployment profiles are related.
 */
module ValidatorTheorems {
  import opened Basics
  import opened EnvFile
  import opened EnvValidator

  // ----- acceptance, said once and for all

  /** The requirements that do not depend on the profile. */
  ghost predicate CommonRequirements(env: Env) {
    && (forall key :: key in REQUIRED_KEYS ==> !IsMissing(env, key) && !IsPlaceholder(Trimmed(env, key)))
    && (forall key :: key in SUGGESTED_KEYS ==> IsMissing(env, key) || !IsPlaceholder(Trimmed(env, key)))
    && !BadHops(env)
    && !BadSerpapi(env)
    && (IsProduction(env) ==> forall key :: key in PUBLIC_URL_KEYS ==> !Contains(Get(env, key), "localhost"))
    && (ZaloOn(env) ==>
          && (forall key :: key in ZALO_KEYS ==> !IsMissing(env, key))
          && (!IsMissing(env, "ZALO_COOKIE_BASE64") || !IsMissing(env, "ZALO_COOKIE_JSON"))
          && (!IsMissing(env, "ZALO_GROUP_ID") || !IsMissing(env, "ZALO_GROUP_IDS")))
  }

  /** The further requirements of the strict profile in production. */
  ghost predicate StrictRequirements(env: Env) {
    && (forall key :: key in EARLY_SWITCHES || key in LATE_SWITCHES ==> Get(env, key) == "false")
    && Get(env, "DISABLE_EMAIL_VERIFICATION") != "true"
    && (forall key :: key in MAIL_KEYS ==> !IsMissing(env, key) && !IsPlaceholder(Trimmed(env, key)))
    && Get(env, "VNPAY_ENVIRONMENT") == "production"
    && !Sandboxed(env)
    && (forall key :: key in CALLBACK_KEYS ==> Get(env, key) == "" || "https://" <= Get(env, key))
  }

  ghost predicate SecretRequirements(env: Env) {
    forall s :: s in MINIMUM_SECRET_LENGTHS && !(IsDemo(env) && s.key == "DB_PASSWORD") ==> !IsShort(env, s)
  }

  ghost predicate Acceptable(env: Env) {
    && SecretRequirements(env)
    && CommonRequirements(env)
    && (IsProduction(env) && !IsDemo(env) ==> StrictRequirements(env))
    && (IsProduction(env) && IsDemo(env) ==> Get(env, "PAYMENT_ALLOW_UNVERIFIED_WEBHOOKS") == "false")
  }

  lemma {:induction false} FailingIs(check: (Env, string) -> bool, env: Env, keys: seq<string>)
    ensures forall key :: key in Failing(check, env, keys) <==> key in keys && check(env, key)
  {
    if keys != [] {
      var n := |keys| - 1;
      FailingIs(check, env, keys[..n]);
      assert keys == keys[..n] + [keys[n]];
    }
  }

  lemma FailingNone(check: (Env, string) -> bool, env: Env, keys: seq<string>)
    ensures Failing(check, env, keys) == [] <==> forall key :: key in keys ==> !check(env, key)
  {
    hide Failing;
    FailingIs(check, env, keys);
    if Failing(check, env, keys) != [] {
      assert Failing(check, env, keys)[0] in Failing(check, env, keys);
    }
  }

  lemma ReportNone(kind: string -> Problem, keys: seq<string>)
    ensures Report(kind, keys) == [] <==> keys == []
  {
  }

  lemma {:induction false} SecretsNone(env: Env, secrets: seq<Secret>)
    ensures SecretProblems(env, secrets) == [] <==>
            forall s :: s in secrets && !(IsDemo(env) && s.key == "DB_PASSWORD") ==> !IsShort(env, s)
  {
    hide IsShort, IsDemo;
    if secrets != [] {
      var n := |secrets| - 1;
      SecretsNone(env, secrets[..n]);
      assert secrets == secrets[..n] + [secrets[n]];
    }
  }

  lemma {:induction false} KeysNone(env: Env)
    ensures KeyProblems(env) == [] <==>
            && (forall key :: key in REQUIRED_KEYS ==> !IsMissing(env, key) && !IsPlaceholder(Trimmed(env, key)))
            && (forall key :: key in SUGGESTED_KEYS ==> IsMissing(env, key) || !IsPlaceholder(Trimmed(env, key)))
  {
    hide Failing, Report, Trimmed, IsPlaceholder, REQUIRED_KEYS, SUGGESTED_KEYS;
    FailingNone(IsMissing, env, REQUIRED_KEYS);
    FailingNone(IsMock, env, REQUIRED_KEYS);
    FailingNone(IsMock, env, SUGGESTED_KEYS);
  }

  lemma ZaloNone(env: Env)
    ensures ZaloProblems(env) == [] <==>
            (ZaloOn(env) ==>
              && (forall key :: key in ZALO_KEYS ==> !IsMissing(env, key))
              && (!IsMissing(env, "ZALO_COOKIE_BASE64") || !IsMissing(env, "ZALO_COOKIE_JSON"))
              && (!IsMissing(env, "ZALO_GROUP_ID") || !IsMissing(env, "ZALO_GROUP_IDS")))
  {
    hide Failing, Trimmed, ZALO_KEYS, ZaloOn;
    FailingNone(IsMissing, env, ZALO_KEYS);
    ReportNone(ZaloOf, Failing(IsMissing, env, ZALO_KEYS));
  }

  lemma {:induction false} CommonNone(env: Env)
    ensures CommonProblems(env) == [] <==> CommonRequirements(env)
  {
    hide KeyProblems, ZaloProblems, Failing, BadHops, BadSerpapi, ZaloOn, IsMissing, IsPlaceholder, Contains,
         IsProduction, PUBLIC_URL_KEYS, REQUIRED_KEYS, SUGGESTED_KEYS, ZALO_KEYS, Get, Trimmed;
    KeysNone(env);
    ZaloNone(env);
    FailingNone(PointsHome, env, PUBLIC_URL_KEYS);
  }

  lemma {:induction false} StrictNone(env: Env)
    ensures StrictProblems(env) == [] <==> StrictRequirements(env)
  {
    hide Failing, Get, Trimmed, IsPlaceholder, Sandboxed, EARLY_SWITCHES, LATE_SWITCHES, MAIL_KEYS, CALLBACK_KEYS;
    FailingNone(SwitchedOn, env, EARLY_SWITCHES);
    FailingNone(SwitchedOn, env, LATE_SWITCHES);
    FailingNone(NoRealMail, env, MAIL_KEYS);
    FailingNone(Insecure, env, CALLBACK_KEYS);
    forall key
      ensures SwitchedOn(env, key) <==> Get(env, key) != "false"
      ensures NoRealMail(env, key) <==> IsMissing(env, key) || IsPlaceholder(Trimmed(env, key))
      ensures Insecure(env, key) <==> Get(env, key) != "" && !("https://" <= Get(env, key))
    {
    }
  }

  /** The report is empty exactly for the acceptable environments. */
  lemma {:induction false} Decision(env: Env)
    ensures Problems(env) == [] <==> Acceptable(env)
  {
    hide SecretProblems, CommonProblems, StrictProblems, CommonRequirements, StrictRequirements, IsShort, IsDemo,
         IsProduction, Get, MINIMUM_SECRET_LENGTHS;
    SecretsNone(env, MINIMUM_SECRET_LENGTHS);
    CommonNone(env);
    StrictNone(env);
  }

  // ----- two environments that differ only in the profile

  ghost predicate SameButProfile(a: Env, b: Env) {
    forall key :: key != PROFILE ==> Get(a, key) == Get(b, key)
  }

  ghost predicate AvoidsProfile(keys: seq<string>) {
    forall k :: 0 <= k < |keys| ==> keys[k] != PROFILE
  }

  lemma ListsAvoidProfile()
    ensures AvoidsProfile(REQUIRED_KEYS) && AvoidsProfile(SUGGESTED_KEYS) && AvoidsProfile(ZALO_KEYS)
    ensures AvoidsProfile(PUBLIC_URL_KEYS)
  {
  }

  lemma {:induction false} SecretsAvoidProfile(secrets: seq<Secret>)
    requires secrets == MINIMUM_SECRET_LENGTHS
    ensures forall k :: 0 <= k < |secrets| ==> secrets[k].key != PROFILE
  {
  }

  lemma {:induction false} FailingSame(check: (Env, string) -> bool, a: Env, b: Env, keys: seq<string>)
    requires forall k :: 0 <= k < |keys| ==> check(a, keys[k]) == check(b, keys[k])
    ensures Failing(check, a, keys) == Failing(check, b, keys)
  {
    if keys != [] {
      FailingSame(check, a, b, keys[..|keys| - 1]);
    }
  }

  lemma KeysSame(a: Env, b: Env)
    requires SameButProfile(a, b)
    ensures KeyProblems(a) == KeyProblems(b)
  {
    hide Listing, Failing, IsPlaceholder, TrimJs, Get, REQUIRED_KEYS, SUGGESTED_KEYS;
    ListsAvoidProfile();
    FailingSame(IsMissing, a, b, REQUIRED_KEYS);
    FailingSame(IsMock, a, b, REQUIRED_KEYS);
    FailingSame(IsMock, a, b, SUGGESTED_KEYS);
  }

  lemma KeyChecksSame(a: Env, b: Env)
    requires SameButProfile(a, b)
    ensures BadHops(a) == BadHops(b) && BadSerpapi(a) == BadSerpapi(b)
    ensures NoZaloCookie(a) == NoZaloCookie(b) && NoZaloGroup(a) == NoZaloGroup(b)
  {
    hide Get, TrimJs, AllDigits, Decimal, IsProduction, ZaloOn;
    assert Get(a, "TRUST_PROXY_HOPS") == Get(b, "TRUST_PROXY_HOPS");
  }

  lemma SingleKeysSame(a: Env, b: Env)
    requires SameButProfile(a, b)
    ensures IsProduction(a) == IsProduction(b)
    ensures BadHops(a) == BadHops(b) && BadSerpapi(a) == BadSerpapi(b) && ZaloOn(a) == ZaloOn(b)
    ensures NoZaloCookie(a) == NoZaloCookie(b) && NoZaloGroup(a) == NoZaloGroup(b)
    ensures Get(a, "PAYMENT_ALLOW_UNVERIFIED_WEBHOOKS") == Get(b, "PAYMENT_ALLOW_UNVERIFIED_WEBHOOKS")
    ensures Get(a, "DB_PASSWORD") == Get(b, "DB_PASSWORD")
  {
    hide Get, TrimJs, AllDigits, Decimal, BadHops, BadSerpapi, NoZaloCookie, NoZaloGroup;
    KeyChecksSame(a, b);
  }

  lemma {:induction false} CommonSame(a: Env, b: Env)
    requires SameButProfile(a, b)
    ensures CommonProblems(a) == CommonProblems(b)
  {
    hide KeyProblems, Report, Failing, BadHops, BadSerpapi, ZaloOn, NoZaloCookie, NoZaloGroup, Get, TrimJs, Contains,
         IsProduction, PUBLIC_URL_KEYS, ZALO_KEYS;
    KeysSame(a, b);
    SingleKeysSame(a, b);
    ListsAvoidProfile();
    FailingSame(IsMissing, a, b, ZALO_KEYS);
    FailingSame(PointsHome, a, b, PUBLIC_URL_KEYS);
  }

  /** `secrets` holds no key that is the profile switch. */
  ghost predicate SecretsAvoid(secrets: seq<Secret>) {
    forall k :: 0 <= k < |secrets| ==> secrets[k].key != PROFILE
  }

  /** With no problem left under the demo profile, the strict one can only complain about the database password. */
  lemma {:induction false} OnlyPasswordShort(strict: Env, demo: Env, secrets: seq<Secret>)
    requires SameButProfile(strict, demo) && SecretsAvoid(secrets)
    requires SecretProblems(demo, secrets) == []
    ensures forall k :: 0 <= k < |SecretProblems(strict, secrets)| ==>
              SecretProblems(strict, secrets)[k] == TooShort("DB_PASSWORD")
  {
    hide IsDemo, IsShort;
    if secrets != [] {
      var n := |secrets| - 1;
      OnlyPasswordShort(strict, demo, secrets[..n]);
      ShortSame(strict, demo, secrets[n]);
    }
  }

  lemma {:induction false} SecretsRelated(strict: Env, demo: Env, secrets: seq<Secret>)
    requires SameButProfile(strict, demo) && !IsDemo(strict) && IsDemo(demo) && SecretsAvoid(secrets)
    ensures SecretProblems(strict, secrets) == [] <==>
            && SecretProblems(demo, secrets) == []
            && forall s :: s in secrets && s.key == "DB_PASSWORD" ==> !IsShort(strict, s)
  {
    hide IsDemo, IsShort, SecretProblems;
    SecretsNone(strict, secrets);
    SecretsNone(demo, secrets);
    forall s | s in secrets
      ensures IsShort(strict, s) == IsShort(demo, s)
    {
      ShortSame(strict, demo, s);
    }
  }

  lemma ShortSame(a: Env, b: Env, s: Secret)
    requires SameButProfile(a, b) && s.key != PROFILE
    ensures IsShort(a, s) == IsShort(b, s)
  {
    hide IsPlaceholder, Utf16Length, TrimJs, Get;
  }

  ghost predicate AllStrict(ps: seq<Problem>) {
    forall k :: 0 <= k < |ps| ==> ps[k].StrictOnly()
  }

  lemma AllStrictAppend(a: seq<Problem>, b: seq<Problem>)
    requires AllStrict(a) && AllStrict(b)
    ensures AllStrict(a + b)
  {
  }

  lemma StrictReport(kind: string -> Problem, keys: seq<string>)
    requires forall key :: kind(key).StrictOnly()
    ensures AllStrict(Report(kind, keys))
  {
    forall k | 0 <= k < |keys|
      ensures Report(kind, keys)[k].StrictOnly()
    {
      assert Report(kind, keys)[k] == kind(keys[k]);
    }
  }

  lemma StrictPartsAreStrict(env: Env)
    ensures AllStrict(StrictProblems(env))
  {
    hide Failing, Report, Get, Sandboxed, AllStrict, One;
    var p1 := Report(NotFalseOf, Failing(SwitchedOn, env, EARLY_SWITCHES));
    var p2 := One(Get(env, "DISABLE_EMAIL_VERIFICATION") == "true", NoEmailVerification);
    var p3 := Report(MailOf, Failing(NoRealMail, env, MAIL_KEYS));
    var p4 := One(Get(env, "VNPAY_ENVIRONMENT") != "production", VnpayEnvironment);
    var p5 := One(Sandboxed(env), VnpaySandbox);
    var p6 := Report(NotHttpsOf, Failing(Insecure, env, CALLBACK_KEYS));
    var p7 := Report(NotFalseOf, Failing(SwitchedOn, env, LATE_SWITCHES));
    StrictReport(NotFalseOf, Failing(SwitchedOn, env, EARLY_SWITCHES));
    StrictReport(MailOf, Failing(NoRealMail, env, MAIL_KEYS));
    StrictReport(NotHttpsOf, Failing(Insecure, env, CALLBACK_KEYS));
    StrictReport(NotFalseOf, Failing(SwitchedOn, env, LATE_SWITCHES));
    OneStrict(Get(env, "DISABLE_EMAIL_VERIFICATION") == "true", NoEmailVerification);
    OneStrict(Get(env, "VNPAY_ENVIRONMENT") != "production", VnpayEnvironment);
    OneStrict(Sandboxed(env), VnpaySandbox);
    AllStrictAppend(p1, p2);
    AllStrictAppend(p1 + p2, p3);
    AllStrictAppend(p1 + p2 + p3, p4);
    AllStrictAppend(p1 + p2 + p3 + p4, p5);
    AllStrictAppend(p1 + p2 + p3 + p4 + p5, p6);
    AllStrictAppend(p1 + p2 + p3 + p4 + p5 + p6, p7);
  }

  lemma OneStrict(bad: bool, p: Problem)
    requires p.StrictOnly()
    ensures AllStrict(One(bad, p))
  {
  }

  lemma StrictAreStrict(env: Env)
    ensures forall p :: p in StrictProblems(env) ==> p.StrictOnly()
    ensures StrictProblems(env) == [] ==> Get(env, "PAYMENT_ALLOW_UNVERIFIED_WEBHOOKS") == "false"
  {
    hide Failing, Get, Sandboxed, MAIL_KEYS, CALLBACK_KEYS, LATE_SWITCHES;
    StrictPartsAreStrict(env);
    FailingNone(SwitchedOn, env, EARLY_SWITCHES);
    assert EARLY_SWITCHES[0] in EARLY_SWITCHES;
  }

  ghost predicate DatabasePasswordLong(env: Env) {
    forall s :: s in MINIMUM_SECRET_LENGTHS && s.key == "DB_PASSWORD" ==> !IsShort(env, s)
  }

  /**
  The exact relation of the profiles: an environment is accepted strictly if and only if it is accepted
  with only the profile switched to thesis-demo, its database password is long enough, and, in
  production, the strict requirements hold.
   */
  lemma {:induction false} StrictIffDemoAndMore(strict: Env, demo: Env)
    requires SameButProfile(strict, demo) && !IsDemo(strict) && IsDemo(demo)
    ensures Problems(strict) == [] <==>
            && Problems(demo) == []
            && DatabasePasswordLong(strict)
            && (IsProduction(strict) ==> StrictRequirements(strict))
  {
    hide SecretProblems, CommonProblems, StrictProblems, StrictRequirements, IsShort, IsDemo, IsProduction, Get,
         MINIMUM_SECRET_LENGTHS;
    SecretsAvoidProfile(MINIMUM_SECRET_LENGTHS);
    SecretsRelated(strict, demo, MINIMUM_SECRET_LENGTHS);
    CommonSame(strict, demo);
    SingleKeysSame(strict, demo);
    StrictAreStrict(strict);
    StrictNone(strict);
  }

  /** Whatever is accepted only under the demo profile fails solely on what that profile forgives. */
  lemma OnlyForgivenProblems(strict: Env, demo: Env)
    requires SameButProfile(strict, demo) && !IsDemo(strict) && IsDemo(demo)
    requires Problems(demo) == []
    ensures forall p :: p in Problems(strict) ==>
              p == TooShort("DB_PASSWORD") || (IsProduction(strict) && p.StrictOnly())
  {
    hide SecretProblems, CommonProblems, StrictProblems, IsDemo, IsProduction, Get, MINIMUM_SECRET_LENGTHS;
    SecretsAvoidProfile(MINIMUM_SECRET_LENGTHS);
    OnlyPasswordShort(strict, demo, MINIMUM_SECRET_LENGTHS);
    CommonSame(strict, demo);
    StrictAreStrict(strict);
  }

  /** Switching an accepted environment to the demo profile keeps it accepted. */
  lemma {:induction false} DemoIsWeaker(env: Env)
    requires Problems(env) == [] && !IsDemo(env)
    ensures Problems(env[PROFILE := DEMO]) == []
  {
    hide Problems;
    StrictIffDemoAndMore(env, env[PROFILE := DEMO]);
  }

  // ----- what an accepted file contains

  /** `value` is what the last assignment of `key` assigns. */
  ghost predicate LastAssigned(assignments: seq<Assignment>, key: string, value: string) {
    exists i :: 0 <= i < |assignments| && assignments[i] == Assignment(key, value) &&
      forall j :: i < j < |assignments| ==> assignments[j].key != key
  }

  lemma {:induction false} MapHoldsLast(assignments: seq<Assignment>, key: string)
    requires key in EnvMap(assignments)
    ensures LastAssigned(assignments, key, EnvMap(assignments)[key])
  {
    var n := |assignments| - 1;
    var front, last := assignments[..n], assignments[n];
    if last.key == key {
      assert assignments[n] == Assignment(key, last.value);
    } else {
      MapHoldsLast(front, key);
      var i :| 0 <= i < n && front[i] == Assignment(key, EnvMap(front)[key]) &&
        forall j :: i < j < n ==> front[j].key != key;
      assert assignments[i] == front[i];
      assert forall j :: i < j < n ==> assignments[j] == front[j];
    }
  }

  lemma SecretsAreRequired()
    ensures forall s :: s in MINIMUM_SECRET_LENGTHS ==> s.key in REQUIRED_KEYS
  {
    assert forall k :: 0 <= k < |MINIMUM_SECRET_LENGTHS| ==> MINIMUM_SECRET_LENGTHS[k].key in REQUIRED_KEYS by {
      assert REQUIRED_KEYS[3] == "DB_PASSWORD" && REQUIRED_KEYS[9] == "JWT_SECRET";
      assert REQUIRED_KEYS[10] == "JWT_REFRESH_SECRET" && REQUIRED_KEYS[11] == "INTERNAL_SERVICE_SECRET";
      assert REQUIRED_KEYS[12] == "GATEWAY_SERVICE_SECRET" && REQUIRED_KEYS[13] == "PAYMENT_WEBHOOK_SHARED_SECRET";
      assert REQUIRED_KEYS[25] == "VNPAY_HASH_SECRET";
    }
  }

  lemma EmptyIsMissing(env: Env, key: string)
    requires !IsMissing(env, key)
    ensures key in env && Trimmed(env, key) == TrimJs(env[key])
  {
  }

  /** A genuine value: not blank and none of the placeholders. */
  ghost predicate Genuine(value: string) {
    TrimJs(value) != "" && !IsPlaceholder(TrimJs(value))
  }

  /**
  The guarantee of an accepted file: every required key is assigned, and its last value is genuine; every
  secret has its minimum length, save the database password under the demo profile.
   */
  lemma AcceptedFile(text: string)
    requires Problems(EnvOf(text)) == []
    ensures forall key :: key in REQUIRED_KEYS ==>
              && key in EnvOf(text)
              && LastAssigned(TextAssignments(text), key, EnvOf(text)[key]) && Genuine(EnvOf(text)[key])
    ensures forall s :: s in MINIMUM_SECRET_LENGTHS && !(IsDemo(EnvOf(text)) && s.key == "DB_PASSWORD") ==>
              s.key in EnvOf(text) && Utf16Length(TrimJs(EnvOf(text)[s.key])) >= s.minimum
  {
    hide Problems, IsPlaceholder, TrimJs, Utf16Length, EnvMap, TextAssignments, EnvOf, REQUIRED_KEYS, LastAssigned,
         MINIMUM_SECRET_LENGTHS, IsDemo, Get;
    var env := EnvOf(text);
    Decision(env);
    EnvOfIs(text);
    SecretsAreRequired();
    forall key | key in REQUIRED_KEYS
      ensures key in env && LastAssigned(TextAssignments(text), key, env[key]) && Genuine(env[key])
      ensures Trimmed(env, key) == TrimJs(env[key])
    {
      EmptyIsMissing(env, key);
      MapHoldsLast(TextAssignments(text), key);
    }
  }

  /** Reordering lines with distinct keys changes neither the problems nor the warnings. */
  lemma {:induction false} VerdictIgnoresOrder(a: seq<string>, b: seq<string>)
    requires multiset(a) == multiset(b) && DistinctKeys(a)
    ensures Problems(EnvMap(Assignments(a))) == Problems(EnvMap(Assignments(b)))
    ensures Warnings(EnvMap(Assignments(a))) == Warnings(EnvMap(Assignments(b)))
  {
    Reordering(a, b);
  }
}
