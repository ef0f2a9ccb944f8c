/** `preflight_auth.py`: whether GitHub, Cloudflare, Google Cloud and
    Namecheap are ready to use, the report of the four checks, and the exit
    status under `--require` and `--strict`. */
module Preflight {
  import opened Wrappers
  import opened Text
  import opened Search
  import opened Sorting
  import opened Environment

  /** The fixed messages a checker reports, as tags; `Wording` gives each one's
      wording. */
  datatype Message =
    | GithubCliMissing | InstallGh | GithubReady | GithubMissing | GhNotAuthenticated | RunGhLogin
    | CloudflarePresent | CloudflareMissing | SetCloudflareToken | UseProtectedSecrets
    | GcloudCliMissing | InstallGcloud | GcloudReady | ActiveAccountIs(account: string) | ProjectIs(project: string)
    | WorkloadIdentityPresent | UsingWorkloadIdentity | ServiceAccountJsonPresent | PreferWorkloadIdentity
    | GcloudMissing | NoActiveAccount | LocalGcloudHint | CiGcloudHint
    | NamecheapPresent | NamecheapMissing | MissingVariables(names: seq<string>) | FallbackOnly

  /** The text printed for a message. */
  function Wording(m: Message): string {
    match m
    case GithubCliMissing => "GitHub CLI missing"
    case InstallGh => "Install gh and run: gh auth login"
    case GithubReady => "GitHub auth ready"
    case GithubMissing => "GitHub auth missing"
    case GhNotAuthenticated => "gh found but not authenticated."
    case RunGhLogin => "Run: gh auth login"
    case CloudflarePresent => "Cloudflare token present"
    case CloudflareMissing => "Cloudflare token missing"
    case SetCloudflareToken => "Set CLOUDFLARE_API_TOKEN (and CLOUDFLARE_ACCOUNT_ID if creating zones)."
    case UseProtectedSecrets => "For CI, put these in protected environment secrets."
    case GcloudCliMissing => "gcloud CLI missing"
    case InstallGcloud => "Install gcloud SDK and run: gcloud auth login"
    case GcloudReady => "gcloud auth ready"
    case ActiveAccountIs(account) => "active_account=" + account
    case ProjectIs(project) => "project=" + (if project == "" then "(unset)" else project)
    case WorkloadIdentityPresent => "GCP workload identity wiring present"
    case UsingWorkloadIdentity => "Using workload identity provider + service account env vars."
    case ServiceAccountJsonPresent => "GCP service account JSON secret present"
    case PreferWorkloadIdentity => "Prefer workload identity over long-lived key JSON when possible."
    case GcloudMissing => "Google Cloud auth missing"
    case NoActiveAccount => "No active gcloud auth account found."
    case LocalGcloudHint => "Local: gcloud auth login && gcloud config set project <project_id>"
    case CiGcloudHint => "CI preferred: set GCP_WORKLOAD_IDENTITY_PROVIDER + GCP_SERVICE_ACCOUNT."
    case NamecheapPresent => "Namecheap fallback creds present"
    case NamecheapMissing => "Namecheap fallback creds missing"
    case MissingVariables(names) => "Missing: " + Join(names, ", ")
    case FallbackOnly => "Fallback only: prefer Cloudflare DNS authority for routine operations."
  }

  /** `CheckResult`. */
  datatype CheckResult = CheckResult(ok: bool, summary: Message, details: seq<Message>)

  /** What `subprocess.run` hands back: the status and the captured output. */
  datatype Completed = Completed(returncode: int, stdout: string)

  /** What the checks can see of the machine they run on: its
      environment, the tools on `PATH`, and what each command would answer. */
  datatype Machine = Machine(env: Env, tools: set<string>, respond: Command -> Completed) {
    /** `has_cmd(name)`. */
    predicate HasCmd(name: string) {
      name in tools
    }
  }

  /** The machine, with the commands run on it so far. */
  class Host {
    const machine: Machine
    var ran: seq<Command>

    constructor(machine: Machine)
      ensures this.machine == machine
      ensures ran == []
    {
      this.machine := machine;
      ran := [];
    }

    /** `run(cmd)`: the command's answer; the command is logged. */
    method Run(cmd: Command) returns (r: Completed)
      modifies this
      ensures r == machine.respond(cmd)
      ensures ran == old(ran) + [cmd]
    {
      r := machine.respond(cmd);
      ran := ran + [cmd];
    }
  }

  /** The commands the checkers run; `Argv` gives each one's arguments. */
  datatype Command = GhStatus | GcloudAccounts | GcloudProject

  function Argv(c: Command): seq<string> {
    match c
    case GhStatus => ["gh", "auth", "status"]
    case GcloudAccounts => ["gcloud", "auth", "list", "--filter=status:ACTIVE", "--format=value(account)"]
    case GcloudProject => ["gcloud", "config", "get-value", "project"]
  }

  /** The result of `check_github` given whether `gh` is installed and the
      status of `gh auth status`. */
  function GithubResult(hasGh: bool, status: int): (r: CheckResult)
    ensures r.ok <==> hasGh && status == 0
    ensures r.ok <==> r.details == []
    ensures !hasGh ==> r.summary == GithubCliMissing
  {
    if !hasGh then CheckResult(false, GithubCliMissing, [InstallGh])
    else if status == 0 then CheckResult(true, GithubReady, [])
    else CheckResult(false, GithubMissing, [GhNotAuthenticated, RunGhLogin])
  }

  /** `check_github`: `gh auth status` runs only when `gh` is installed. */
  method CheckGithub(host: Host) returns (res: CheckResult)
    modifies host
    ensures res == GithubResult(host.machine.HasCmd("gh"), host.machine.respond(GhStatus).returncode)
    ensures host.ran == old(host.ran) + (if host.machine.HasCmd("gh") then [GhStatus] else [])
  {
    var details: seq<Message> := [];
    if !host.machine.HasCmd("gh") {
      return CheckResult(false, GithubCliMissing, [InstallGh]);
    }
    var r := host.Run(GhStatus);
    if r.returncode == 0 {
      return CheckResult(true, GithubReady, []);
    }
    details := details + [GhNotAuthenticated];
    details := details + [RunGhLogin];
    return CheckResult(false, GithubMissing, details);
  }

  /** `check_cloudflare`: ready exactly when the token is set. */
  function CheckCloudflare(env: Env): (r: CheckResult)
    ensures r.ok <==> IsSet(env, "CLOUDFLARE_API_TOKEN")
    ensures r.ok <==> r.details == []
  {
    IsSetIff(env, "CLOUDFLARE_API_TOKEN");
    if EnvValue(env, "CLOUDFLARE_API_TOKEN") != "" then CheckResult(true, CloudflarePresent, [])
    else CheckResult(false, CloudflareMissing, [SetCloudflareToken, UseProtectedSecrets])
  }

  /** What `check_gcloud` reads once `gcloud` is known to be installed: the
      active account and project (stripped output of the two `gcloud`
      commands) and three stripped environment variables. */
  datatype GcloudState = GcloudState(account: string, project: string, wid: string, sa: string, saJson: string)

  /** The ways `check_gcloud` accepts, in the order it tries them. */
  datatype GcloudBasis = ActiveAccount | WorkloadIdentity | ServiceAccountJson

  const GcloudBases: seq<GcloudBasis> := [ActiveAccount, WorkloadIdentity, ServiceAccountJson]

  predicate Holds(b: GcloudBasis, st: GcloudState) {
    match b
    case ActiveAccount => st.account != ""
    case WorkloadIdentity => st.wid != "" && st.sa != ""
    case ServiceAccountJson => st.saJson != ""
  }

  function BasisSummary(b: GcloudBasis): Message {
    match b
    case ActiveAccount => GcloudReady
    case WorkloadIdentity => WorkloadIdentityPresent
    case ServiceAccountJson => ServiceAccountJsonPresent
  }

  /** The result of `check_gcloud`. */
  function GcloudResult(hasGcloud: bool, st: GcloudState): (r: CheckResult)
    ensures !hasGcloud ==> !r.ok && r.summary == GcloudCliMissing
  {
    if !hasGcloud then CheckResult(false, GcloudCliMissing, [InstallGcloud])
    else if st.account != "" then CheckResult(true, GcloudReady, [ActiveAccountIs(st.account), ProjectIs(st.project)])
    else if st.wid != "" && st.sa != "" then CheckResult(true, WorkloadIdentityPresent, [UsingWorkloadIdentity])
    else if st.saJson != "" then CheckResult(true, ServiceAccountJsonPresent, [PreferWorkloadIdentity])
    else CheckResult(false, GcloudMissing, [NoActiveAccount, LocalGcloudHint, CiGcloudHint])
  }

  /** With the CLI installed, `check_gcloud` is ready exactly when one of the
      three ways holds, and its summary names the first of them that holds;
      an active account also reports the project. */
  lemma GcloudPriority(st: GcloudState)
    ensures var r := GcloudResult(true, st);
      && (r.ok <==> exists k :: 0 <= k < |GcloudBases| && Holds(GcloudBases[k], st))
      && (r.ok ==> exists k :: 0 <= k < |GcloudBases| && Holds(GcloudBases[k], st)
                              && (forall j :: 0 <= j < k ==> !Holds(GcloudBases[j], st))
                              && r.summary == BasisSummary(GcloudBases[k]))
      && (Holds(ActiveAccount, st) ==> r.details == [ActiveAccountIs(st.account), ProjectIs(st.project)])
  {
    var bases := GcloudBases;
    assert bases[0] == ActiveAccount && bases[1] == WorkloadIdentity && bases[2] == ServiceAccountJson;
    var r := GcloudResult(true, st);
    if Holds(ActiveAccount, st) {
      assert r.summary == BasisSummary(bases[0]);
    } else if Holds(WorkloadIdentity, st) {
      assert !Holds(bases[0], st);
      assert r.summary == BasisSummary(bases[1]);
    } else if Holds(ServiceAccountJson, st) {
      assert !Holds(bases[0], st) && !Holds(bases[1], st);
      assert r.summary == BasisSummary(bases[2]);
    } else {
      assert !r.ok;
      assert forall k :: 0 <= k < |bases| ==> !Holds(bases[k], st);
    }
  }

  lemma AppendTwo<T>(s: seq<T>, a: T, b: T)
    ensures s + [a] + [b] == s + [a, b]
  {
  }

  /** What `check_gcloud` observes on `host`. */
  function GcloudObserved(m: Machine): GcloudState {
    GcloudState(Strip(m.respond(GcloudAccounts).stdout), Strip(m.respond(GcloudProject).stdout),
                EnvValue(m.env, "GCP_WORKLOAD_IDENTITY_PROVIDER"), EnvValue(m.env, "GCP_SERVICE_ACCOUNT"),
                EnvValue(m.env, "GOOGLE_APPLICATION_CREDENTIALS_JSON"))
  }

  /** `check_gcloud`: both `gcloud` commands run when the CLI is installed,
      whatever the first one answers; neither runs otherwise. */
  method CheckGcloud(host: Host) returns (res: CheckResult)
    modifies host
    ensures res == GcloudResult(host.machine.HasCmd("gcloud"), GcloudObserved(host.machine))
    ensures host.ran == old(host.ran) + (if host.machine.HasCmd("gcloud") then [GcloudAccounts, GcloudProject] else [])
  {
    if !host.machine.HasCmd("gcloud") {
      return CheckResult(false, GcloudCliMissing, [InstallGcloud]);
    }
    var active := host.Run(GcloudAccounts);
    var account := Strip(active.stdout);
    var projectRun := host.Run(GcloudProject);
    var project := Strip(projectRun.stdout);
    AppendTwo(old(host.ran), GcloudAccounts, GcloudProject);
    var wid := EnvValue(host.machine.env, "GCP_WORKLOAD_IDENTITY_PROVIDER");
    var sa := EnvValue(host.machine.env, "GCP_SERVICE_ACCOUNT");
    var saJson := EnvValue(host.machine.env, "GOOGLE_APPLICATION_CREDENTIALS_JSON");
    ghost var st := GcloudState(account, project, wid, sa, saJson);
    assert st == GcloudObserved(host.machine);
    if account != "" {
      res := CheckResult(true, GcloudReady, [ActiveAccountIs(account), ProjectIs(project)]);
    } else if wid != "" && sa != "" {
      res := CheckResult(true, WorkloadIdentityPresent, [UsingWorkloadIdentity]);
    } else if saJson != "" {
      res := CheckResult(true, ServiceAccountJsonPresent, [PreferWorkloadIdentity]);
    } else {
      res := CheckResult(false, GcloudMissing, [NoActiveAccount, LocalGcloudHint, CiGcloudHint]);
    }
    assert res == GcloudResult(true, st);
  }

  /** The variables `check_namecheap` requires, in the order it lists them. */
  const NamecheapRequired: seq<string> :=
    ["NAMECHEAP_API_USER", "NAMECHEAP_API_KEY", "NAMECHEAP_USERNAME", "NAMECHEAP_CLIENT_IP"]

  /** `missing` in `check_namecheap`. */
  function MissingNamecheap(env: Env): seq<string> {
    Filter(NamecheapRequired, Unset(env))
  }

  /** The missing list holds exactly the unset variables, in the fixed order. */
  lemma MissingNamecheapExact(env: Env)
    ensures forall name :: name in MissingNamecheap(env) <==> name in NamecheapRequired && !IsSet(env, name)
    ensures IsSubsequence(MissingNamecheap(env), NamecheapRequired)
  {
    var m := MissingNamecheap(env);
    forall name | name in NamecheapRequired && !IsSet(env, name)
      ensures name in m
    {
      var i :| 0 <= i < |NamecheapRequired| && NamecheapRequired[i] == name;
      assert Unset(env)(NamecheapRequired[i]);
    }
    forall name | name in m
      ensures name in NamecheapRequired && !IsSet(env, name)
    {
      var i :| 0 <= i < |m| && m[i] == name;
      assert Unset(env)(m[i]);
    }
  }

  /** `check_namecheap`: ready exactly when all four variables are set;
      otherwise the first detail line lists the missing ones. */
  function CheckNamecheap(env: Env): (r: CheckResult)
    ensures r.ok <==> forall k :: 0 <= k < |NamecheapRequired| ==> IsSet(env, NamecheapRequired[k])
    ensures !r.ok ==> r.details != [] && r.details[0] == MissingVariables(MissingNamecheap(env))
  {
    var missing := MissingNamecheap(env);
    MissingNamecheapExact(env);
    if missing == [] then
      assert forall k :: 0 <= k < |NamecheapRequired| ==> IsSet(env, NamecheapRequired[k]) by {
        forall k | 0 <= k < |NamecheapRequired|
          ensures IsSet(env, NamecheapRequired[k])
        {
          assert NamecheapRequired[k] !in missing;
        }
      }
      CheckResult(true, NamecheapPresent, [])
    else
      assert missing[0] in missing;
      CheckResult(false, NamecheapMissing, [MissingVariables(missing), FallbackOnly])
  }

  /** The keys of `CHECKERS`. */
  datatype Provider = GitHub | Cloudflare | Gcloud | Namecheap

  function Name(p: Provider): string {
    match p
    case GitHub => "github"
    case Cloudflare => "cloudflare"
    case Gcloud => "gcloud"
    case Namecheap => "namecheap"
  }

  /** `CHECKERS` in dictionary order, which is also the order of the report. */
  const Checkers: seq<Provider> := [GitHub, Cloudflare, Gcloud, Namecheap]

  lemma CheckersComplete(p: Provider)
    ensures p in Checkers
  {
  }

  /** What the checker of `p` returns on `host`. */
  function Expected(m: Machine, p: Provider): CheckResult {
    match p
    case GitHub => GithubResult(m.HasCmd("gh"), m.respond(GhStatus).returncode)
    case Cloudflare => CheckCloudflare(m.env)
    case Gcloud => GcloudResult(m.HasCmd("gcloud"), GcloudObserved(m))
    case Namecheap => CheckNamecheap(m.env)
  }

  /** The commands the checker of `p` runs on `host`. */
  function Commands(m: Machine, p: Provider): seq<Command> {
    match p
    case GitHub => if m.HasCmd("gh") then [GhStatus] else []
    case Gcloud => if m.HasCmd("gcloud") then [GcloudAccounts, GcloudProject] else []
    case _ => []
  }

  /** The commands of the checkers of `ps`, in order. */
  function AllCommands(m: Machine, ps: seq<Provider>): seq<Command>
    decreases |ps|
  {
    if ps == [] then [] else AllCommands(m, ps[..|ps| - 1]) + Commands(m, ps[|ps| - 1])
  }

  lemma AllCommandsStep(m: Machine, ps: seq<Provider>, i: nat)
    requires i < |ps|
    ensures AllCommands(m, ps[..i + 1]) == AllCommands(m, ps[..i]) + Commands(m, ps[i])
  {
    assert ps[..i + 1][..i] == ps[..i];
  }

  /** Calling the checker of `p`. */
  method RunChecker(host: Host, p: Provider) returns (res: CheckResult)
    modifies host
    ensures res == Expected(host.machine, p)
    ensures host.ran == old(host.ran) + Commands(host.machine, p)
  {
    match p
    case GitHub => res := CheckGithub(host);
    case Cloudflare => res := CheckCloudflare(host.machine.env);
    case Gcloud => res := CheckGcloud(host);
    case Namecheap => res := CheckNamecheap(host.machine.env);
  }

  /** `--context`. */
  datatype Context = Local | Ci

  /** The printed lines of `main`, as tagged events. */
  datatype ReportLine =
    | ContextLine(context: Context)
    | StatusLine(name: string, ok: bool, required: bool, summary: Message)
    | DetailLine(detail: Message)
    | FailLine(names: seq<string>)
    | InfoLine

  /** The lines for one provider: its status, then its details. */
  function Section(p: Provider, res: CheckResult, required: set<Provider>): (r: seq<ReportLine>) {
    [StatusLine(Name(p), res.ok, p in required, res.summary)]
      + seq(|res.details|, i requires 0 <= i < |res.details| => DetailLine(res.details[i]))
  }

  /** The sections of the providers `ps`, in order. */
  function Report(results: map<Provider, CheckResult>, ps: seq<Provider>, required: set<Provider>): seq<ReportLine>
    requires forall k :: 0 <= k < |ps| ==> ps[k] in results
    decreases |ps|
  {
    if ps == [] then []
    else Report(results, ps[..|ps| - 1], required) + Section(ps[|ps| - 1], results[ps[|ps| - 1]], required)
  }

  /** The status lines among `lines`, in order. */
  function Statuses(lines: seq<ReportLine>): seq<ReportLine>
    decreases |lines|
  {
    if lines == [] then []
    else Statuses(lines[..|lines| - 1]) + (if lines[|lines| - 1].StatusLine? then [lines[|lines| - 1]] else [])
  }

  lemma {:induction false} StatusesAppend(a: seq<ReportLine>, b: seq<ReportLine>)
    ensures Statuses(a + b) == Statuses(a) + Statuses(b)
    decreases |b|
  {
    if b == [] {
      assert a + b == a;
    } else {
      assert (a + b)[..|a + b| - 1] == a + b[..|b| - 1];
      StatusesAppend(a, b[..|b| - 1]);
    }
  }

  lemma SectionStatuses(p: Provider, res: CheckResult, required: set<Provider>)
    ensures Statuses(Section(p, res, required)) == [StatusLine(Name(p), res.ok, p in required, res.summary)]
  {
    var details := seq(|res.details|, i requires 0 <= i < |res.details| => DetailLine(res.details[i]));
    NoStatuses(details);
    StatusesAppend([StatusLine(Name(p), res.ok, p in required, res.summary)], details);
    assert Statuses([StatusLine(Name(p), res.ok, p in required, res.summary)])
        == [StatusLine(Name(p), res.ok, p in required, res.summary)] by {
      assert [StatusLine(Name(p), res.ok, p in required, res.summary)][..0] == [];
    }
  }

  lemma {:induction false} NoStatuses(lines: seq<ReportLine>)
    requires forall k :: 0 <= k < |lines| ==> lines[k].DetailLine?
    ensures Statuses(lines) == []
    decreases |lines|
  {
    if lines != [] {
      NoStatuses(lines[..|lines| - 1]);
    }
  }

  /** The report has one status line per provider, in the given order, each
      marked required exactly when the provider is required. */
  lemma {:induction false} ReportStatuses(results: map<Provider, CheckResult>, ps: seq<Provider>, required: set<Provider>)
    requires forall k :: 0 <= k < |ps| ==> ps[k] in results
    ensures var st := Statuses(Report(results, ps, required));
      && |st| == |ps|
      && forall k :: 0 <= k < |ps| ==>
           st[k] == StatusLine(Name(ps[k]), results[ps[k]].ok, ps[k] in required, results[ps[k]].summary)
    decreases |ps|
  {
    if ps != [] {
      var init, last := ps[..|ps| - 1], ps[|ps| - 1];
      ReportStatuses(results, init, required);
      StatusesAppend(Report(results, init, required), Section(last, results[last], required));
      SectionStatuses(last, results[last], required);
    }
  }

  /** The required providers that are not ready, in `CHECKERS` order. */
  function NotReady(results: map<Provider, CheckResult>, required: set<Provider>): seq<Provider>
    requires forall p :: p in results
  {
    Filter(Checkers, (p: Provider) => p in required && !results[p].ok)
  }

  function Names(ps: seq<Provider>): (r: seq<string>)
    ensures |r| == |ps|
    ensures forall k :: 0 <= k < |ps| ==> r[k] == Name(ps[k])
  {
    seq(|ps|, k requires 0 <= k < |ps| => Name(ps[k]))
  }

  /** Some required provider is not ready exactly when the list of them is not empty. */
  lemma NotReadyIff(results: map<Provider, CheckResult>, required: set<Provider>)
    requires forall p :: p in results
    ensures NotReady(results, required) != [] <==> exists p :: p in required && !results[p].ok
  {
    var nr := NotReady(results, required);
    if nr != [] {
      assert nr[0] in required && !results[nr[0]].ok;
    }
    if p :| p in required && !results[p].ok {
      CheckersComplete(p);
      var k :| 0 <= k < |Checkers| && Checkers[k] == p;
      assert p in nr;
    }
  }

  /** The lines after the report: `FAIL` under `--strict`, else `INFO`, when
      a required provider is not ready. */
  function VerdictLines(notReady: seq<Provider>, strict: bool): seq<ReportLine> {
    if notReady == [] then []
    else if strict then [FailLine(Sort(Names(notReady)))]
    else [InfoLine]
  }

  /** The dictionary mapping each key of `ks` to `f` of it, filled in order. */
  function Tabulate<K, V>(f: K -> V, ks: seq<K>): map<K, V>
    decreases |ks|
  {
    if ks == [] then map[]
    else Tabulate(f, ks[..|ks| - 1])[ks[|ks| - 1] := f(ks[|ks| - 1])]
  }

  /** It maps each key of `ks` to `f` of it, and holds no other key. */
  lemma {:induction false} TabulateSpec<K, V>(f: K -> V, ks: seq<K>)
    ensures forall k :: 0 <= k < |ks| ==> ks[k] in Tabulate(f, ks) && Tabulate(f, ks)[ks[k]] == f(ks[k])
    ensures forall key :: key in Tabulate(f, ks) ==> key in ks
    decreases |ks|
  {
    if ks != [] {
      var init := ks[..|ks| - 1];
      TabulateSpec(f, init);
      forall key | key in Tabulate(f, ks)
        ensures key in ks
      {
        if key != ks[|ks| - 1] {
          var j :| 0 <= j < |init| && init[j] == key;
          assert ks[j] == key;
        }
      }
    }
  }

  /** What each checker returns on `m`. */
  function Checker(m: Machine): Provider -> CheckResult {
    (p: Provider) => Expected(m, p)
  }

  /** The `results` dictionary of `main` holds every provider's result. */
  lemma ResultsComplete(m: Machine)
    ensures forall p :: p in Tabulate(Checker(m), Checkers) && Tabulate(Checker(m), Checkers)[p] == Expected(m, p)
  {
    TabulateSpec(Checker(m), Checkers);
    forall p ensures p in Tabulate(Checker(m), Checkers) && Tabulate(Checker(m), Checkers)[p] == Expected(m, p) {
      CheckersComplete(p);
      var k :| 0 <= k < |Checkers| && Checkers[k] == p;
      assert Checker(m)(Checkers[k]) == Expected(m, p);
    }
  }

  /** The loop of `main` that fills `results`: the checkers of `ps`, one
      after another. */
  method RunAll(host: Host, ps: seq<Provider>) returns (results: map<Provider, CheckResult>)
    modifies host
    ensures results == Tabulate(Checker(host.machine), ps)
    ensures host.ran == old(host.ran) + AllCommands(host.machine, ps)
  {
    results := map[];
    for i := 0 to |ps|
      invariant results == Tabulate(Checker(host.machine), ps[..i])
      invariant host.ran == old(host.ran) + AllCommands(host.machine, ps[..i])
    {
      var p := ps[i];
      var res := RunChecker(host, p);
      results := results[p := res];
      AllCommandsStep(host.machine, ps, i);
      assert ps[..i + 1][..i] == ps[..i];
    }
    TakeAll(ps);
  }

  /** The report loop of `main`: for each provider of `ps`, its status line
      and then one line per detail. */
  method PrintReport(results: map<Provider, CheckResult>, ps: seq<Provider>, required: set<Provider>)
    returns (lines: seq<ReportLine>)
    requires forall k :: 0 <= k < |ps| ==> ps[k] in results
    ensures lines == Report(results, ps, required)
  {
    lines := [];
    for i := 0 to |ps|
      invariant lines == Report(results, ps[..i], required)
    {
      var p := ps[i];
      var res := results[p];
      ghost var before := lines;
      lines := lines + [StatusLine(Name(p), res.ok, p in required, res.summary)];
      for d := 0 to |res.details|
        invariant lines == before + [StatusLine(Name(p), res.ok, p in required, res.summary)]
                           + seq(d, j requires 0 <= j < d => DetailLine(res.details[j]))
      {
        lines := lines + [DetailLine(res.details[d])];
      }
      assert lines == before + Section(p, res, required);
      assert ps[..i + 1][..i] == ps[..i];
    }
    TakeAll(ps);
  }

  /** `main`: every checker runs, in `CHECKERS` order, whatever `--require`
      says; then the report, then the verdict. The status is 1 exactly under
      `--strict` with some required provider not ready. */
  method Run(host: Host, required: set<Provider>, strict: bool, context: Context)
    returns (exit: int, lines: seq<ReportLine>, ghost results: map<Provider, CheckResult>)
    modifies host
    ensures results == Tabulate(Checker(host.machine), Checkers)
    ensures forall p :: p in results && results[p] == Expected(host.machine, p)
    ensures host.ran == old(host.ran) + AllCommands(host.machine, Checkers)
    ensures lines == [ContextLine(context)] + Report(results, Checkers, required)
                     + VerdictLines(NotReady(results, required), strict)
    ensures exit == (if strict && NotReady(results, required) != [] then 1 else 0)
  {
    var got := RunAll(host, Checkers);
    ResultsComplete(host.machine);
    results := got;
    var report := PrintReport(got, Checkers, required);
    lines := [ContextLine(context)] + report;
    var notReady := NotReady(got, required);
    if strict && notReady != [] {
      lines := lines + [FailLine(Sort(Names(notReady)))];
      exit := 1;
    } else {
      if notReady != [] {
        lines := lines + [InfoLine];
      }
      exit := 0;
    }
  }

  /** The exit status of `main` is 1 exactly under `--strict` with a required
      provider that is not ready, and then the `FAIL` line names exactly
      those providers, sorted. */
  lemma ExitPolicy(results: map<Provider, CheckResult>, required: set<Provider>, strict: bool)
    requires forall p :: p in results
    ensures (strict && NotReady(results, required) != []) <==> strict && exists p :: p in required && !results[p].ok
    ensures var v := VerdictLines(NotReady(results, required), strict);
      strict && v != [] ==>
        && v[0].FailLine?
        && Sorted(v[0].names)
        && multiset(v[0].names) == multiset(Names(NotReady(results, required)))
  {
    NotReadyIff(results, required);
  }
}
