/** The process environment as a map, and the scripts' two ways of reading
    it: `os.getenv(name, "").strip()` and `required_env(name)`. */
module Environment {
  import opened Wrappers
  import opened Text

  type Env = map<string, string>

  /** `os.getenv(name, "")`. */
  function GetEnv(env: Env, name: string): string {
    if name in env then env[name] else ""
  }

  /** `os.getenv(name, "").strip()`. */
  function EnvValue(env: Env, name: string): string {
    Strip(GetEnv(env, name))
  }

  /** The variable is present and holds something other than whitespace. */
  predicate IsSet(env: Env, name: string) {
    name in env && !AllSpace(env[name])
  }

  /** The test `required_env` fails, as a predicate on variable names. */
  function Unset(env: Env): string -> bool {
    (name: string) => !IsSet(env, name)
  }

  /** A variable is set exactly when its stripped value is not empty. */
  lemma IsSetIff(env: Env, name: string)
    ensures IsSet(env, name) <==> EnvValue(env, name) != ""
  {
    StripSpec(GetEnv(env, name));
  }

  /** `required_env(name)`: the stripped value, or a failure naming the
      variable when it is unset (the `ValueError` of the source). */
  function RequiredEnv(env: Env, name: string): (r: Result<string, string>)
    ensures r.Failure? <==> !IsSet(env, name)
    ensures r.Success? ==> r.value == EnvValue(env, name)
    ensures r.Failure? ==> r.error == name
  {
    IsSetIff(env, name);
    var value := EnvValue(env, name);
    if value == "" then Failure(name) else Success(value)
  }

  /** `required_env` fails exactly for an absent or all-whitespace variable;
      what it returns is a part of the variable's text that neither begins
      nor ends with whitespace. */
  lemma RequiredEnvValue(env: Env, name: string)
    ensures RequiredEnv(env, name).Failure? <==> name !in env || AllSpace(env[name])
    ensures var r := RequiredEnv(env, name);
      r.Success? ==> r.value != "" && !IsSpace(r.value[0]) && !IsSpace(r.value[|r.value| - 1])
                     && Contains(env[name], r.value)
  {
    var value := EnvValue(env, name);
    if value != "" {
      StripSpec(GetEnv(env, name));
      var i :| 0 <= i <= |GetEnv(env, name)| && Trimmed(GetEnv(env, name), value, i);
      assert OccursAt(GetEnv(env, name), value, i);
    }
  }
}
