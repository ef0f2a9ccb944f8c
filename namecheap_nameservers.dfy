/** `namecheap_set_custom_nameservers.py`: the
    `namecheap.domains.dns.setCustom` request that hands a domain to custom
    nameservers, and its `main`. */
module NamecheapNameservers {
  import opened Wrappers
  import opened Text
  import opened Environment
  import opened Registrar

  const SetCustomCommand := "namecheap.domains.dns.setCustom"

  /** `build_query(sld, tld, nameservers)`: the credentials, then the
      command, the domain parts and the comma-joined nameservers. */
  function BuildQuery(env: Env, sld: string, tld: string, nameservers: seq<string>): Result<map<string, string>, ConfigError> {
    var common := CommonParams(env);
    if common.Failure? then Failure(common.error)
    else Success(common.value["Command" := SetCustomCommand]["SLD" := sld]["TLD" := tld]
                             ["Nameservers" := Join(nameservers, ",")])
  }

  /** `build_query` fails exactly when a credential is unset, naming the first
      one; otherwise it holds exactly eight keys: the credentials, the
      command, the domain parts and the nameservers joined in order. */
  lemma BuildQuerySpec(env: Env, sld: string, tld: string, nameservers: seq<string>)
    ensures var r := BuildQuery(env, sld, tld, nameservers);
      && (r.Failure? <==> FirstMissing(env).Some?)
      && (r.Failure? ==> r.error == MissingVariable(CredentialVars[FirstMissing(env).value]))
    ensures var r := BuildQuery(env, sld, tld, nameservers);
      r.Success? ==>
        && |r.value| == 8
        && r.value.Keys == {"ApiUser", "ApiKey", "UserName", "ClientIp", "Command", "SLD", "TLD", "Nameservers"}
        && (forall k :: 0 <= k < 4 ==> r.value[CredentialKeys[k]] == EnvValue(env, CredentialVars[k]))
        && r.value["Command"] == SetCustomCommand
        && r.value["SLD"] == sld && r.value["TLD"] == tld
        && r.value["Nameservers"] == Join(nameservers, ",")
  {
    CommonParamsFailure(env);
    var common := CommonParams(env);
    if common.Success? {
      CommonParamsSuccess(env);
      QueryKeys(common.value, sld, tld, Join(nameservers, ","));
    }
  }

  /** The four added keys are new, so the query has eight entries and the
      credentials keep their values. */
  lemma QueryKeys(common: map<string, string>, sld: string, tld: string, joined: string)
    requires common.Keys == {"ApiUser", "ApiKey", "UserName", "ClientIp"}
    ensures var q := common["Command" := SetCustomCommand]["SLD" := sld]["TLD" := tld]["Nameservers" := joined];
      && q.Keys == {"ApiUser", "ApiKey", "UserName", "ClientIp", "Command", "SLD", "TLD", "Nameservers"}
      && |q| == 8
      && forall k :: k in common ==> q[k] == common[k]
  {
    var q := common["Command" := SetCustomCommand]["SLD" := sld]["TLD" := tld]["Nameservers" := joined];
    assert "Command" !in common && "SLD" !in common && "TLD" !in common && "Nameservers" !in common;
    assert "SLD"[0] != "TLD"[0];
    assert |common| == 4 by {
      assert "UserName"[0] != "ClientIp"[0];
    }
  }

  /** The `Nameservers` value gives back the list it was built from when no
      nameserver holds a comma. */
  lemma NameserversRoundTrip(env: Env, sld: string, tld: string, nameservers: seq<string>)
    requires BuildQuery(env, sld, tld, nameservers).Success?
    requires nameservers != []
    requires forall k :: 0 <= k < |nameservers| ==> !HasAny(nameservers[k], {','})
    ensures Split(BuildQuery(env, sld, tld, nameservers).value["Nameservers"], {','}) == nameservers
  {
    SplitJoin(nameservers, ',');
  }

  /** `main` with its two `--ns` values: a bad domain is reported before any
      credential is read and ends with 2, as does a missing credential; a
      dry run sends nothing and ends with 0; otherwise the unredacted
      request is sent and the status says whether the call went through. */
  function Run(env: Env, domain: string, nameservers: seq<string>, apply: bool, api: Result<string, string>): (o: Outcome)
    requires |nameservers| == 2
    ensures o.exit == 2 <==> ParseDomain(domain).Failure? || FirstMissing(env).Some?
    ensures ParseDomain(domain).Failure? ==> o.lines == [ConfigProblem(InvalidDomain(domain))] && o.sent.None?
    ensures ParseDomain(domain).Success? && FirstMissing(env).Some? ==>
              o.lines == [ConfigProblem(MissingVariable(CredentialVars[FirstMissing(env).value]))] && o.sent.None?
    ensures o.exit == 0 <==> ParseDomain(domain).Success? && FirstMissing(env).None? && (!apply || api.Success?)
    ensures o.sent.Some? <==> ParseDomain(domain).Success? && FirstMissing(env).None? && apply
    ensures o.sent.Some? ==>
              var (sld, tld) := ParseDomain(domain).value;
              var q := o.sent.value;
              && q.Keys == {"ApiUser", "ApiKey", "UserName", "ClientIp", "Command", "SLD", "TLD", "Nameservers"}
              && q["Command"] == SetCustomCommand && q["SLD"] == sld && q["TLD"] == tld
              && q["Nameservers"] == nameservers[0] + "," + nameservers[1]
    ensures o.exit in {0, 1, 2}
    ensures o.exit == 1 <==> ParseDomain(domain).Success? && FirstMissing(env).None? && apply && api.Failure?
    ensures ParseDomain(domain).Failure? ==> o == Submit(Failure(InvalidDomain(domain)), apply, api)
    ensures ParseDomain(domain).Success? ==>
              var (sld, tld) := ParseDomain(domain).value;
              o == Submit(BuildQuery(env, sld, tld, nameservers), apply, api)
  {
    var parsed := ParseDomain(domain);
    if parsed.Failure? then Submit(Failure(parsed.error), apply, api)
    else
      var (sld, tld) := parsed.value;
      BuildQuerySpec(env, sld, tld, nameservers);
      assert Join(nameservers, ",") == nameservers[0] + "," + nameservers[1] by {
        assert nameservers[1..] == [nameservers[1]];
      }
      Submit(BuildQuery(env, sld, tld, nameservers), apply, api)
  }
}
