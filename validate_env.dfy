/**
 * `validateEnv` (backend/src/utils/validateEnv.ts), run once at start-up: the
 * required variables are checked in order, any that are unset stop the process
 * with exit code 1, and otherwise two configuration warnings may be issued.
 * The environment is a map; an absent or empty value reads as unset, as
 * JavaScript's truthiness makes it.
 */
module Environment {
  import opened Listing

  type Env = map<string, string>

  /** `process.env[name]` is truthy. */
  predicate IsSet(env: Env, name: string) {
    name in env && env[name] != ""
  }

  /** `process.env[name] || fallback`. */
  function ValueOr(env: Env, name: string, fallback: string): string {
    if IsSet(env, name) then env[name] else fallback
  }

  /** `process.env[name] === value`: an absent variable equals nothing. */
  predicate Equals(env: Env, name: string, value: string) {
    name in env && env[name] == value
  }

  const RequiredVars: seq<string> := ["MONGODB_URI", "JWT_SECRET"]

  /** The development secret the JWT helper falls back to. */
  const DevelopmentSecret: string := "fallback_secret_key_for_development"

  datatype Warning = DefaultJwtSecret | FrontendUrlUnset

  /** `process.exit(code)` with the names reported missing, or a validated start with its warnings. */
  datatype Outcome = Exit(code: int, missing: seq<string>) | Validated(warnings: seq<Warning>)

  /** The names among `names` that are unset, in their order. */
  function Missing(names: seq<string>, env: Env): seq<string> {
    Where(names, name => !IsSet(env, name))
  }

  /** `Missing` holds exactly the unset names. */
  lemma MissingExactly(names: seq<string>, env: Env, name: string)
    ensures name in Missing(names, env) <==> name in names && !IsSet(env, name)
  {
    var r := Missing(names, env);
    if name in r {
      var k :| 0 <= k < |r| && r[k] == name;
    }
    if name in names && !IsSet(env, name) {
      var k :| 0 <= k < |names| && names[k] == name;
    }
  }

  /** The warnings of a start whose required variables are all set, in the order they are checked. */
  function Warnings(env: Env): (w: seq<Warning>)
    ensures DefaultJwtSecret in w <==> Equals(env, "JWT_SECRET", DevelopmentSecret)
    ensures FrontendUrlUnset in w <==> Equals(env, "NODE_ENV", "production") && !IsSet(env, "FRONTEND_URL")
    ensures |w| <= 2 && (|w| == 2 ==> w == [DefaultJwtSecret, FrontendUrlUnset])
  {
    (if Equals(env, "JWT_SECRET", DevelopmentSecret) then [DefaultJwtSecret] else [])
    + (if Equals(env, "NODE_ENV", "production") && !IsSet(env, "FRONTEND_URL") then [FrontendUrlUnset] else [])
  }

  /** `validateEnv`. */
  method ValidateEnv(env: Env) returns (outcome: Outcome)
    ensures outcome.Exit? <==> exists i :: 0 <= i < |RequiredVars| && !IsSet(env, RequiredVars[i])
    ensures outcome.Exit? ==> outcome.code == 1 && outcome.missing == Missing(RequiredVars, env)
    ensures outcome.Validated? ==> outcome.warnings == Warnings(env)
  {
    var missing: seq<string> := [];
    var i := 0;
    while i < |RequiredVars|
      invariant 0 <= i <= |RequiredVars|
      invariant missing == Missing(RequiredVars[..i], env)
    {
      WhereAppend(RequiredVars[..i], RequiredVars[i], name => !IsSet(env, name));
      assert RequiredVars[..i + 1] == RequiredVars[..i] + [RequiredVars[i]];
      if !IsSet(env, RequiredVars[i]) {
        missing := missing + [RequiredVars[i]];
      }
      i := i + 1;
    }
    assert RequiredVars[..i] == RequiredVars;
    if |missing| > 0 {
      var k :| 0 <= k < |missing|;
      MissingExactly(RequiredVars, env, missing[k]);
      return Exit(1, missing);
    }
    forall j | 0 <= j < |RequiredVars|
      ensures IsSet(env, RequiredVars[j])
    {
      MissingExactly(RequiredVars, env, RequiredVars[j]);
    }
    outcome := Validated(Warnings(env));
  }

  /** The development secret earns a warning but does not stop the start. */
  lemma FallbackSecretOnlyWarns(env: Env)
    requires IsSet(env, "MONGODB_URI") && Equals(env, "JWT_SECRET", DevelopmentSecret)
    ensures Missing(RequiredVars, env) == []
    ensures DefaultJwtSecret in Warnings(env)
  {
    assert RequiredVars == [] + ["MONGODB_URI"] + ["JWT_SECRET"];
    WhereAppend([], "MONGODB_URI", name => !IsSet(env, name));
    WhereAppend(["MONGODB_URI"], "JWT_SECRET", name => !IsSet(env, name));
    assert ["MONGODB_URI"] + ["JWT_SECRET"] == RequiredVars;
  }
}
