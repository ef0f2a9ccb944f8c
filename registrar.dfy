/** What the two Namecheap scripts share: `parse_domain`, the four
    credentials read in order by `required_env`, the redaction of `ApiKey`
    before the request is shown, and the dry-run / apply exit policy of
    `main`. Both scripts carry identical copies of this code; it is defined
    once here. */
module Registrar {
  import opened Wrappers
  import opened Text
  import opened Search
  import opened Environment

  /** The `ValueError`s that `main` turns into exit status 2. */
  datatype ConfigError =
    | InvalidDomain(domain: string)
    | MissingVariable(name: string)

  /** `parse_domain`: split on dots and keep the last two parts. */
  function ParseDomain(domain: string): (r: Result<(string, string), ConfigError>)
    ensures r.Failure? <==> !HasAny(domain, {'.'})
    ensures r.Failure? ==> r.error == InvalidDomain(domain)
    ensures r.Success? ==> !HasAny(r.value.0, {'.'}) && !HasAny(r.value.1, {'.'})
  {
    var parts := Split(domain, {'.'});
    if |parts| < 2 then Failure(InvalidDomain(domain))
    else Success((parts[|parts| - 2], parts[|parts| - 1]))
  }

  /** The two parts are the last two labels: the domain ends with
      `sld + "." + tld`, and what precedes them is empty or ends in a dot. */
  lemma ParseDomainSuffix(domain: string)
    requires ParseDomain(domain).Success?
    ensures var (sld, tld) := ParseDomain(domain).value;
      exists prefix :: Labelled(domain, prefix, sld, tld)
  {
    var parts := Split(domain, {'.'});
    var n := |parts|;
    var sld, tld := parts[n - 2], parts[n - 1];
    JoinSplit(domain, '.');
    InitLast(parts);
    JoinSnoc(parts[..n - 1], tld, ".");
    var init := parts[..n - 1];
    if n == 2 {
      assert Join(init, ".") == sld;
      assert Labelled(domain, "", sld, tld);
    } else {
      InitLast(init);
      JoinSnoc(init[..n - 2], sld, ".");
      var prefix := Join(init[..n - 2], ".") + ".";
      assert domain == prefix + sld + "." + tld;
      assert Labelled(domain, prefix, sld, tld);
    }
  }

  /** `domain` is `prefix + sld + "." + tld` with `prefix` empty or ending in a dot. */
  predicate Labelled(domain: string, prefix: string, sld: string, tld: string) {
    domain == prefix + sld + "." + tld && (prefix == [] || prefix[|prefix| - 1] == '.')
  }

  /** The credentials in the order `build_common_params` reads them: each
      query key with the environment variable that supplies it. */
  const CredentialKeys: seq<string> := ["ApiUser", "ApiKey", "UserName", "ClientIp"]
  const CredentialVars: seq<string> :=
    ["NAMECHEAP_API_USER", "NAMECHEAP_API_KEY", "NAMECHEAP_USERNAME", "NAMECHEAP_CLIENT_IP"]

  /** The position of the first credential that is unset, if any. */
  function FirstMissing(env: Env): Option<nat> {
    FirstIndex(CredentialVars, Unset(env))
  }

  /** `build_common_params`: the four credentials, each through
      `required_env`, in dictionary order. */
  function CommonParams(env: Env): Result<map<string, string>, ConfigError> {
    var user := RequiredEnv(env, "NAMECHEAP_API_USER");
    if user.Failure? then Failure(MissingVariable(user.error)) else
    var key := RequiredEnv(env, "NAMECHEAP_API_KEY");
    if key.Failure? then Failure(MissingVariable(key.error)) else
    var userName := RequiredEnv(env, "NAMECHEAP_USERNAME");
    if userName.Failure? then Failure(MissingVariable(userName.error)) else
    var clientIp := RequiredEnv(env, "NAMECHEAP_CLIENT_IP");
    if clientIp.Failure? then Failure(MissingVariable(clientIp.error)) else
    Success(map["ApiUser" := user.value, "ApiKey" := key.value,
                "UserName" := userName.value, "ClientIp" := clientIp.value])
  }

  /** `build_common_params` fails exactly when a credential is unset, and
      then names the first unset one. */
  lemma CommonParamsFailure(env: Env)
    ensures var r := CommonParams(env);
      && (r.Failure? <==> FirstMissing(env).Some?)
      && (r.Failure? ==> r.error == MissingVariable(CredentialVars[FirstMissing(env).value]))
  {
    FirstMissingCases(env);
  }

  /** Otherwise it maps each of the four keys to the stripped value of its
      variable, and holds no other key. */
  lemma CommonParamsSuccess(env: Env)
    requires CommonParams(env).Success?
    ensures var q := CommonParams(env).value;
      && q.Keys == {"ApiUser", "ApiKey", "UserName", "ClientIp"}
      && forall k :: 0 <= k < 4 ==>
           CredentialKeys[k] in q && q[CredentialKeys[k]] == EnvValue(env, CredentialVars[k])
  {
    var user := RequiredEnv(env, "NAMECHEAP_API_USER");
    var key := RequiredEnv(env, "NAMECHEAP_API_KEY");
    var userName := RequiredEnv(env, "NAMECHEAP_USERNAME");
    var clientIp := RequiredEnv(env, "NAMECHEAP_CLIENT_IP");
    assert user.Success? && key.Success? && userName.Success? && clientIp.Success?;
    var q := CommonParams(env).value;
    assert q == map["ApiUser" := user.value, "ApiKey" := key.value,
                    "UserName" := userName.value, "ClientIp" := clientIp.value];
    CredentialMap(user.value, key.value, userName.value, clientIp.value);
    forall k | 0 <= k < 4
      ensures CredentialKeys[k] in q && q[CredentialKeys[k]] == EnvValue(env, CredentialVars[k])
    {
      if k == 0 {
        assert q[CredentialKeys[0]] == user.value;
      } else if k == 1 {
        assert q[CredentialKeys[1]] == key.value;
      } else if k == 2 {
        assert q[CredentialKeys[2]] == userName.value;
      } else {
        assert q[CredentialKeys[3]] == clientIp.value;
      }
    }
  }

  /** The map of the four credentials. */
  lemma CredentialMap(user: string, key: string, userName: string, clientIp: string)
    ensures var m := map["ApiUser" := user, "ApiKey" := key, "UserName" := userName, "ClientIp" := clientIp];
      && m.Keys == {"ApiUser", "ApiKey", "UserName", "ClientIp"}
      && m[CredentialKeys[0]] == user && m[CredentialKeys[1]] == key
      && m[CredentialKeys[2]] == userName && m[CredentialKeys[3]] == clientIp
  {
    assert "UserName"[0] != "ClientIp"[0];
  }

  /** `FirstMissing`, one credential at a time. */
  lemma FirstMissingCases(env: Env)
    ensures var vars := CredentialVars;
      FirstMissing(env) ==
        if !IsSet(env, vars[0]) then Some(0)
        else if !IsSet(env, vars[1]) then Some(1)
        else if !IsSet(env, vars[2]) then Some(2)
        else if !IsSet(env, vars[3]) then Some(3)
        else None
  {
    var p := Unset(env);
    var vars := CredentialVars;
    if !p(vars[0]) && !p(vars[1]) && !p(vars[2]) && !p(vars[3]) {
      assert forall j :: 0 <= j < |vars| ==> !p(vars[j]);
    } else {
      var k := if p(vars[0]) then 0 else if p(vars[1]) then 1 else if p(vars[2]) then 2 else 3;
      FirstIndexUnique(vars, p, k);
    }
  }

  /** The copy of the request that `main` prints: `ApiKey` masked. */
  function Redact(params: map<string, string>): (r: map<string, string>)
    ensures r.Keys == params.Keys + {"ApiKey"}
    ensures r["ApiKey"] == "***"
    ensures forall k :: k in params && k != "ApiKey" ==> r[k] == params[k]
  {
    params["ApiKey" := "***"]
  }

  /** The printed lines of `main`, as tagged events. */
  datatype Line =
    | ConfigProblem(error: ConfigError)
    | Prepared(redacted: map<string, string>)
    | DryRunOnly
    | CallFailed(reason: string)
    | Response(excerpt: string)

  /** What a run comes to: the exit status, the printed lines, and the query
      parameters sent to the API, if a call was made. */
  datatype Outcome = Outcome(exit: int, lines: seq<Line>, sent: Option<map<string, string>>)

  /** The longest response excerpt `main` prints. */
  const ExcerptLength := 500

  /** `main` once the request has been built (or failed to build): a
      configuration error exits 2; otherwise the redacted request is shown,
      a dry run stops with 0, and with `--apply` the real parameters are
      sent; `api` is the answer of `call_namecheap` (the response text, or
      the exception it raised). */
  function Submit(built: Result<map<string, string>, ConfigError>, apply: bool, api: Result<string, string>): (o: Outcome)
    ensures o.exit in {0, 1, 2}
    ensures o.exit == 0 <==> built.Success? && (!apply || api.Success?)
    ensures o.exit == 2 <==> built.Failure?
    ensures built.Failure? ==> o.lines == [ConfigProblem(built.error)] && o.sent.None?
    ensures built.Success? ==> o.lines != [] && o.lines[0] == Prepared(Redact(built.value))
    ensures o.sent.Some? <==> built.Success? && apply
    ensures o.sent.Some? ==> o.sent.value == built.value
    ensures o.exit == 1 ==> o.lines[|o.lines| - 1] == CallFailed(api.error)
    ensures built.Success? && apply && api.Success? ==>
              && o.lines[|o.lines| - 1].Response?
              && var text := o.lines[|o.lines| - 1].excerpt;
              && |text| <= ExcerptLength
              && text <= api.value
              && (|api.value| <= ExcerptLength ==> text == api.value)
              && (|api.value| > ExcerptLength ==> |text| == ExcerptLength)
  {
    if built.Failure? then Outcome(2, [ConfigProblem(built.error)], None)
    else
      var shown := Prepared(Redact(built.value));
      if !apply then Outcome(0, [shown, DryRunOnly], None)
      else if api.Failure? then Outcome(1, [shown, CallFailed(api.error)], Some(built.value))
      else
        var text := api.value;
        Outcome(0, [shown, Response(text[..if |text| < ExcerptLength then |text| else ExcerptLength])], Some(built.value))
  }
}
