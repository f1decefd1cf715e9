/** The start-up check of the environment: every required variable is
    either set (present) or not (missing), and the check fails with exit
    code 1 exactly when one is missing. */
module CheckEnv {

  /** The process environment after `.env.local` has been loaded. */
  type Environment = map<string, string>

  /** The variables the services need, in the order they are reported. */
  const RequiredEnvVars: seq<string> := [
    "PORT",
    "AWS_ACCESS_KEY_ID",
    "AWS_SECRET_ACCESS_KEY",
    "AWS_DEFAULT_REGION",
    "AWS_ECS_CLUSTER_ARN",
    "AWS_TASK_DEFINITION_ARN",
    "SUBNET_1",
    "SUBNET_2",
    "SUBNET_3",
    "SECURITY_GROUPS",
    "IMAGE_NAME",
    "SERVICE_URI"
  ]

  /** `process.env[name]` is truthy: the variable is set and not empty. */
  predicate IsSet(env: Environment, name: string)
  {
    name in env && env[name] != ""
  }

  /** The names of `names` that are set, in their order. */
  function Present(names: seq<string>, env: Environment): (present: seq<string>)
    ensures |present| <= |names|
    ensures forall name | name in present :: name in names && IsSet(env, name)
  {
    if names == [] then []
    else
      var last := names[|names| - 1];
      Present(names[..|names| - 1], env) + (if IsSet(env, last) then [last] else [])
  }

  /** The names of `names` that are not set, in their order. */
  function Missing(names: seq<string>, env: Environment): (missing: seq<string>)
    ensures |missing| <= |names|
    ensures forall name | name in missing :: name in names && !IsSet(env, name)
  {
    if names == [] then []
    else
      var last := names[|names| - 1];
      Missing(names[..|names| - 1], env) + (if IsSet(env, last) then [] else [last])
  }

  /** `checkEnvironment`: sorts each required name into `present` or
      `missing` in one pass, then exits with 1 if anything is missing and
      finishes normally (code 0) otherwise. */
  method CheckEnvironment(env: Environment) returns (present: seq<string>, missing: seq<string>, exitCode: int)
    ensures present == Present(RequiredEnvVars, env)
    ensures missing == Missing(RequiredEnvVars, env)
    ensures exitCode == (if |missing| > 0 then 1 else 0)
  {
    missing := [];
    present := [];
    var i := 0;
    while i < |RequiredEnvVars|
      invariant 0 <= i <= |RequiredEnvVars|
      invariant present == Present(RequiredEnvVars[..i], env)
      invariant missing == Missing(RequiredEnvVars[..i], env)
    {
      var varName := RequiredEnvVars[i];
      assert RequiredEnvVars[..i + 1][..i] == RequiredEnvVars[..i];
      if varName in env && env[varName] != "" {
        present := present + [varName];
      } else {
        missing := missing + [varName];
      }
      i := i + 1;
    }
    assert RequiredEnvVars[..i] == RequiredEnvVars;
    if |missing| > 0 {
      exitCode := 1;
    } else {
      exitCode := 0;
    }
  }

  /** `s` is `a` and `b` shuffled together, each keeping its own order. */
  predicate Interleaving(s: seq<string>, a: seq<string>, b: seq<string>)
    decreases |s|
  {
    if s == [] then a == [] && b == []
    else
      var last := s[|s| - 1];
      || (a != [] && a[|a| - 1] == last && Interleaving(s[..|s| - 1], a[..|a| - 1], b))
      || (b != [] && b[|b| - 1] == last && Interleaving(s[..|s| - 1], a, b[..|b| - 1]))
  }

  /** Every name lands in exactly one of the two lists, and both keep the
      order of the required list. */
  lemma {:induction false} PresentMissingInterleave(names: seq<string>, env: Environment)
    ensures Interleaving(names, Present(names, env), Missing(names, env))
  {
    if names != [] {
      var init := names[..|names| - 1];
      PresentMissingInterleave(init, env);
      var last := names[|names| - 1];
      if IsSet(env, last) {
        var p := Present(names, env);
        assert p[|p| - 1] == last;
        assert p[..|p| - 1] == Present(init, env);
        assert Missing(names, env) == Missing(init, env);
      } else {
        var m := Missing(names, env);
        assert m[..|m| - 1] == Missing(init, env);
        assert Present(names, env) == Present(init, env);
      }
    }
  }

  /** The two lists hold every name exactly as often as the list does. */
  lemma {:induction false} PresentMissingPartition(names: seq<string>, env: Environment)
    ensures multiset(Present(names, env)) + multiset(Missing(names, env)) == multiset(names)
    ensures |Present(names, env)| + |Missing(names, env)| == |names|
  {
    if names != [] {
      var init := names[..|names| - 1];
      PresentMissingPartition(init, env);
      var last := names[|names| - 1];
      assert names == init + [last];
      assert multiset(names) == multiset(init) + multiset{last};
      var p, m := Present(init, env), Missing(init, env);
      if IsSet(env, last) {
        assert Present(names, env) == p + [last];
        assert multiset(p + [last]) == multiset(p) + multiset{last};
      } else {
        assert Missing(names, env) == m + [last];
        assert multiset(m + [last]) == multiset(m) + multiset{last};
      }
    }
  }

  /** A name is reported present exactly when it is required and set, and
      missing exactly when it is required and unset or empty. */
  lemma {:induction false} PresentIffSet(names: seq<string>, env: Environment, name: string)
    ensures name in Present(names, env) <==> name in names && IsSet(env, name)
    ensures name in Missing(names, env) <==> name in names && !IsSet(env, name)
  {
    if names != [] {
      var init := names[..|names| - 1];
      PresentIffSet(init, env, name);
      assert names == init + [names[|names| - 1]];
    }
  }

  /** The check fails exactly when some required variable is unset or
      empty. */
  lemma FailsIffSomeUnset(env: Environment)
    ensures |Missing(RequiredEnvVars, env)| > 0 <==> exists name | name in RequiredEnvVars :: !IsSet(env, name)
  {
    var m := Missing(RequiredEnvVars, env);
    if |m| > 0 {
      PresentIffSet(RequiredEnvVars, env, m[0]);
    } else {
      forall name | name in RequiredEnvVars ensures IsSet(env, name) {
        PresentIffSet(RequiredEnvVars, env, name);
      }
    }
  }

  /** The count `present.length/requiredEnvVars.length` reports all twelve
      variables exactly when none is missing. */
  lemma ReportedCount(env: Environment)
    ensures |Present(RequiredEnvVars, env)| <= |RequiredEnvVars| == 12
    ensures |Present(RequiredEnvVars, env)| == |RequiredEnvVars| <==> Missing(RequiredEnvVars, env) == []
  {
    PresentMissingPartition(RequiredEnvVars, env);
  }
}
