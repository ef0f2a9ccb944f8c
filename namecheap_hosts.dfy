/** `namecheap_set_github_pages_dns.py`: the `namecheap.domains.dns.setHosts`
    request that points a domain at GitHub Pages, and its `main`. */
module NamecheapHosts {
  import opened Wrappers
  import opened Environment
  import opened Registrar

  /** One row of `host_payload`: host name, record type, address, TTL. */
  datatype HostEntry = HostEntry(name: string, recordType: string, address: string, ttl: string)

  /** `host_payload()`: the GitHub Pages apex addresses and the `www` alias. */
  const HostPayload: seq<HostEntry> := [
    HostEntry("@", "A", "185.199.108.153", "300"),
    HostEntry("@", "A", "185.199.109.153", "300"),
    HostEntry("@", "A", "185.199.110.153", "300"),
    HostEntry("@", "A", "185.199.111.153", "300"),
    HostEntry("www", "CNAME", "northroot-labs.github.io", "300")
  ]

  const SetHostsCommand := "namecheap.domains.dns.setHosts"

  /** The keys of the query that are not numbered. */
  const FixedKeys: set<string> := {"ApiUser", "ApiKey", "UserName", "ClientIp", "Command", "SLD", "TLD"}

  /** The field names that are numbered once per host entry. */
  const HostFields: set<string> := {"HostName", "RecordType", "Address", "TTL"}

  function DigitChar(d: nat): char
    requires d < 10
  {
    ('0' as int + d) as char
  }

  /** Python's `str(n)` for a natural number. */
  function Decimal(n: nat): (r: string)
    ensures |r| >= 1
    ensures forall i :: 0 <= i < |r| ==> '0' <= r[i] <= '9'
    ensures r[|r| - 1] == DigitChar(n % 10)
    ensures |r| == 1 <==> n < 10
  {
    if n < 10 then [DigitChar(n)] else Decimal(n / 10) + [DigitChar(n % 10)]
  }

  /** The numbered key `f"{field}{idx}"`. */
  function Indexed(field: string, idx: nat): string {
    field + Decimal(idx)
  }

  /** `k` is one of the fixed keys, or a numbered key for an entry before `limit`. */
  predicate KeyBelow(k: string, limit: nat) {
    || k in FixedKeys
    || (k != [] && 1 <= k[|k| - 1] as int - '0' as int < limit && k[..|k| - 1] in HostFields)
  }

  /** The four keys numbered `j + 1` carry the fields of `payload[j]`. */
  predicate EntryAt(q: map<string, string>, payload: seq<HostEntry>, j: nat)
    requires j < |payload|
  {
    var e, idx := payload[j], j + 1;
    && Indexed("HostName", idx) in q && q[Indexed("HostName", idx)] == e.name
    && Indexed("RecordType", idx) in q && q[Indexed("RecordType", idx)] == e.recordType
    && Indexed("Address", idx) in q && q[Indexed("Address", idx)] == e.address
    && Indexed("TTL", idx) in q && q[Indexed("TTL", idx)] == e.ttl
  }

  /** The credentials, with the key each one goes under. */
  predicate HasCredentials(q: map<string, string>, env: Env) {
    forall k :: 0 <= k < 4 ==> CredentialKeys[k] in q && q[CredentialKeys[k]] == EnvValue(env, CredentialVars[k])
  }

  /** What `build_sethosts_query(sld, tld)` returns: the credentials, the
      command and the domain parts, and entry `i` of `host_payload` under the
      keys numbered `i`, counting from 1; 27 keys and no others. */
  predicate IsSetHostsQuery(q: map<string, string>, env: Env, sld: string, tld: string) {
    QueryUpTo(q, env, sld, tld, HostPayload, |HostPayload|)
  }

  /** The query once the first `n` entries of `payload` have been added. */
  predicate QueryUpTo(q: map<string, string>, env: Env, sld: string, tld: string, payload: seq<HostEntry>, n: nat)
    requires n <= |payload|
  {
    && |q| == |FixedKeys| + 4 * n
    && (forall k :: k in q ==> KeyBelow(k, n + 1))
    && HasCredentials(q, env)
    && "Command" in q && q["Command"] == SetHostsCommand
    && "SLD" in q && q["SLD"] == sld
    && "TLD" in q && q["TLD"] == tld
    && (forall j :: 0 <= j < n ==> EntryAt(q, payload, j))
  }

  /** The fixed keys are seven distinct strings. */
  lemma FixedKeysCount()
    ensures |FixedKeys| == 7
  {
    var keys := ["ApiUser", "ApiKey", "UserName", "ClientIp", "Command", "SLD", "TLD"];
    assert "UserName"[0] != "ClientIp"[0];
    assert "ApiUser"[0] != "Command"[0];
    assert "SLD"[0] != "TLD"[0];
    assert FixedKeys == {keys[0]} + {keys[1]} + {keys[2]} + {keys[3]} + {keys[4]} + {keys[5]} + {keys[6]};
  }

  /** `build_sethosts_query`: start from the credentials, add the command and
      the domain parts, then four numbered keys per entry of `host_payload`. */
  method BuildSetHostsQuery(env: Env, sld: string, tld: string)
    returns (r: Result<map<string, string>, ConfigError>)
    ensures r.Failure? <==> FirstMissing(env).Some?
    ensures r.Failure? ==> r.error == MissingVariable(CredentialVars[FirstMissing(env).value])
    ensures r.Success? ==> IsSetHostsQuery(r.value, env, sld, tld)
  {
    var common := CommonParams(env);
    CommonParamsFailure(env);
    if common.Failure? {
      return Failure(common.error);
    }
    CommonParamsSuccess(env);
    var params := common.value["Command" := SetHostsCommand]["SLD" := sld]["TLD" := tld];
    var payload := HostPayload;
    FirstEntries(common.value, params, env, sld, tld, payload);
    for j := 0 to |payload|
      invariant QueryUpTo(params, env, sld, tld, payload, j)
    {
      var entry, idx := payload[j], j + 1;
      ghost var before := params;
      params := params[Indexed("HostName", idx) := entry.name];
      params := params[Indexed("RecordType", idx) := entry.recordType];
      params := params[Indexed("Address", idx) := entry.address];
      params := params[Indexed("TTL", idx) := entry.ttl];
      AddHostStep(before, params, env, sld, tld, payload, j);
    }
    return Success(params);
  }

  /** The credentials, the command and the domain parts make the query
      before any entry. */
  lemma FirstEntries(common: map<string, string>, params: map<string, string>, env: Env, sld: string, tld: string,
                     payload: seq<HostEntry>)
    requires common.Keys == {"ApiUser", "ApiKey", "UserName", "ClientIp"}
    requires HasCredentials(common, env)
    requires params == common["Command" := SetHostsCommand]["SLD" := sld]["TLD" := tld]
    ensures QueryUpTo(params, env, sld, tld, payload, 0)
  {
    FixedKeysCount();
    assert "Command" !in common && "SLD" !in common && "TLD" !in common;
    assert params.Keys == FixedKeys;
    assert forall k :: k in common ==> params[k] == common[k];
    assert HasCredentials(params, env) by {
      forall k | 0 <= k < 4
        ensures CredentialKeys[k] in params && params[CredentialKeys[k]] == EnvValue(env, CredentialVars[k])
      {
        assert CredentialKeys[k] in common;
      }
    }
  }

  /** One turn of the loop of `build_sethosts_query` adds entry `j`. */
  lemma AddHostStep(before: map<string, string>, after: map<string, string>,
                    env: Env, sld: string, tld: string, payload: seq<HostEntry>, j: nat)
    requires j < |payload| <= 8
    requires QueryUpTo(before, env, sld, tld, payload, j)
    requires var e, idx := payload[j], j + 1;
      after == before[Indexed("HostName", idx) := e.name][Indexed("RecordType", idx) := e.recordType]
                     [Indexed("Address", idx) := e.address][Indexed("TTL", idx) := e.ttl]
    ensures QueryUpTo(after, env, sld, tld, payload, j + 1)
  {
    NewKeys(before, j + 1);
    AddHostKeeps(before, after, payload, j);
    KeepsEntries(before, after, payload, j);
    NewKeysBelow(before, after, j + 1);
    assert HasCredentials(after, env) by {
      assert HasCredentials(before, env);
    }
  }

  /** A turn adds four new keys, keeps every old one, and fills entry `j`. */
  lemma AddHostKeeps(before: map<string, string>, after: map<string, string>, payload: seq<HostEntry>, j: nat)
    requires j < |payload|
    requires var idx := j + 1;
      && Indexed("HostName", idx) !in before && Indexed("RecordType", idx) !in before
      && Indexed("Address", idx) !in before && Indexed("TTL", idx) !in before
    requires var e, idx := payload[j], j + 1;
      after == before[Indexed("HostName", idx) := e.name][Indexed("RecordType", idx) := e.recordType]
                     [Indexed("Address", idx) := e.address][Indexed("TTL", idx) := e.ttl]
    ensures forall k :: k in before ==> k in after && after[k] == before[k]
    ensures after.Keys == before.Keys + {Indexed("HostName", j + 1), Indexed("RecordType", j + 1),
                                         Indexed("Address", j + 1), Indexed("TTL", j + 1)}
    ensures |after| == |before| + 4
    ensures EntryAt(after, payload, j)
  {
    var idx, e := j + 1, payload[j];
    var h, r, a, t := Indexed("HostName", idx), Indexed("RecordType", idx), Indexed("Address", idx), Indexed("TTL", idx);
    assert |h| != |r| && |h| != |a| && |h| != |t| && |r| != |a| && |r| != |t| && |a| != |t|;
    AddFour(before, h, r, a, t, e.name, e.recordType, e.address, e.ttl);
  }

  /** Adding four distinct new keys to a map. */
  lemma AddFour(m: map<string, string>, h: string, r: string, a: string, t: string,
                vh: string, vr: string, va: string, vt: string)
    requires h != r && h != a && h != t && r != a && r != t && a != t
    requires h !in m && r !in m && a !in m && t !in m
    ensures var after := m[h := vh][r := vr][a := va][t := vt];
      && (forall k :: k in m ==> k in after && after[k] == m[k])
      && after.Keys == m.Keys + {h, r, a, t}
      && |after| == |m| + 4
      && after[h] == vh && after[r] == vr && after[a] == va && after[t] == vt
  {
    var m1 := m[h := vh];
    var m2 := m1[r := vr];
    var m3 := m2[a := va];
    assert |m1| == |m| + 1 && |m2| == |m1| + 1 && |m3| == |m2| + 1;
  }

  /** All keys after the turn are known ones below `idx + 1`. */
  lemma NewKeysBelow(before: map<string, string>, after: map<string, string>, idx: nat)
    requires 1 <= idx <= 9
    requires forall k :: k in before ==> KeyBelow(k, idx)
    requires after.Keys == before.Keys + {Indexed("HostName", idx), Indexed("RecordType", idx), Indexed("Address", idx), Indexed("TTL", idx)}
    requires KeyBelow(Indexed("HostName", idx), idx + 1) && KeyBelow(Indexed("RecordType", idx), idx + 1)
    requires KeyBelow(Indexed("Address", idx), idx + 1) && KeyBelow(Indexed("TTL", idx), idx + 1)
    ensures forall k :: k in after ==> KeyBelow(k, idx + 1)
  {
    forall k | k in after
      ensures KeyBelow(k, idx + 1)
    {
      if k in before {
        KeyBelowMono(k, idx, idx + 1);
      }
    }
  }

  /** A key below a limit is below every larger one. */
  lemma KeyBelowMono(k: string, limit: nat, larger: nat)
    requires limit <= larger && KeyBelow(k, limit)
    ensures KeyBelow(k, larger)
  {
  }

  /** The four keys numbered `idx` are new, and each is a known key below `idx + 1`. */
  lemma NewKeys(params: map<string, string>, idx: nat)
    requires 1 <= idx <= 9
    requires forall k :: k in params ==> KeyBelow(k, idx)
    ensures Indexed("HostName", idx) !in params && Indexed("RecordType", idx) !in params
    ensures Indexed("Address", idx) !in params && Indexed("TTL", idx) !in params
    ensures forall f :: f in HostFields ==> KeyBelow(Indexed(f, idx), idx + 1)
    ensures KeyBelow(Indexed("HostName", idx), idx + 1) && KeyBelow(Indexed("RecordType", idx), idx + 1)
    ensures KeyBelow(Indexed("Address", idx), idx + 1) && KeyBelow(Indexed("TTL", idx), idx + 1)
  {
    forall f | f in HostFields
      ensures Indexed(f, idx) !in params && KeyBelow(Indexed(f, idx), idx + 1)
    {
      var k := Indexed(f, idx);
      assert k[|k| - 1] == DigitChar(idx);
      assert k[..|k| - 1] == f;
      assert k !in FixedKeys;
    }
  }

  /** Adding the keys numbered `j + 1` keeps the keys of the earlier entries. */
  lemma KeepsEntries(before: map<string, string>, after: map<string, string>, payload: seq<HostEntry>, j: nat)
    requires j <= |payload|
    requires forall k :: k in before ==> k in after && after[k] == before[k]
    requires forall i :: 0 <= i < j ==> EntryAt(before, payload, i)
    ensures forall i :: 0 <= i < j ==> EntryAt(after, payload, i)
  {
    forall i | 0 <= i < j
      ensures EntryAt(after, payload, i)
    {
      assert EntryAt(before, payload, i);
    }
  }

  /** `main`: a bad domain is reported before any credential is read; then
      the request is built and handed to the shared dry-run / apply policy. */
  method Run(env: Env, domain: string, apply: bool, api: Result<string, string>) returns (o: Outcome)
    ensures ParseDomain(domain).Failure? ==> o == Submit(Failure(InvalidDomain(domain)), apply, api)
    ensures ParseDomain(domain).Success? && FirstMissing(env).Some? ==>
              o == Submit(Failure(MissingVariable(CredentialVars[FirstMissing(env).value])), apply, api)
    ensures ParseDomain(domain).Success? && FirstMissing(env).None? ==>
              var (sld, tld) := ParseDomain(domain).value;
              exists q :: IsSetHostsQuery(q, env, sld, tld) && o == Submit(Success(q), apply, api)
  {
    var parsed := ParseDomain(domain);
    if parsed.Failure? {
      return Submit(Failure(parsed.error), apply, api);
    }
    var (sld, tld) := parsed.value;
    var built := BuildSetHostsQuery(env, sld, tld);
    o := Submit(built, apply, api);
  }
}
