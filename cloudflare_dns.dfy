/** The DNS upsert of `scripts/cloudflare_set_github_pages_dns.py`: a fixed
    table of desired records, a first-match search of a zone's records keyed
    on (type, name, content), a create-if-absent upsert against the zone, and
    the dry-run / apply / exit-code policy of `main`. The HTTP API is
    abstracted: the zone is an object holding its record list, and the
    answers of the zone lookup and of zone creation are inputs. */
module CloudflareDns {
  import opened Wrappers
  import opened Search
  import opened Environment

  /** A record the site needs; `ttl` and `proxied` default to 300 and false. */
  datatype DesiredRecord = DesiredRecord(recordType: string, name: string, content: string, ttl: int, proxied: bool)

  const DefaultTtl: int := 300

  function Desire(recordType: string, name: string, content: string): DesiredRecord {
    DesiredRecord(recordType, name, content, DefaultTtl, false)
  }

  /** The apex A records for the four pages-service addresses, then `www`. */
  const Desired: seq<DesiredRecord> := [
    Desire("A", "@", "185.199.108.153"),
    Desire("A", "@", "185.199.109.153"),
    Desire("A", "@", "185.199.110.153"),
    Desire("A", "@", "185.199.111.153"),
    Desire("CNAME", "www", "northroot-labs.github.io")
  ]

  /** A record as the zone holds it. */
  datatype ZoneRecord = ZoneRecord(recordType: string, name: string, content: string, ttl: int, proxied: bool)

  /** The fully qualified name of a label: the domain itself for `@`,
      otherwise the label, a dot and the domain. */
  function FqdnFor(hostLabel: string, domain: string): (r: string)
  {
    if hostLabel == "@" then domain else hostLabel + "." + domain
  }

  /** The apex label names the domain itself; any other label is prefixed
      to the domain with a dot between. */
  lemma FqdnForShape(hostLabel: string, domain: string)
    ensures var r := FqdnFor(hostLabel, domain);
      && |r| >= |domain| && r[|r| - |domain|..] == domain
      && (hostLabel == "@" ==> |r| == |domain|)
      && (hostLabel != "@" ==> |r| == |hostLabel| + 1 + |domain| && r[..|hostLabel|] == hostLabel && r[|hostLabel|] == '.')
  {
  }

  /** `s.rstrip(".")`: every trailing dot removed. */
  function RStripDots(s: string): (r: string)
  {
    if s != [] && s[|s| - 1] == '.' then RStripDots(s[..|s| - 1]) else s
  }

  /** `RStripDots(s)` is `s` less its longest all-dot suffix. */
  lemma {:induction false} RStripDotsSpec(s: string)
    ensures var r := RStripDots(s);
      && |r| <= |s| && r == s[..|r|]
      && (r == [] || r[|r| - 1] != '.')
      && (forall i :: |r| <= i < |s| ==> s[i] == '.')
    decreases |s|
  {
    if s != [] && s[|s| - 1] == '.' {
      RStripDotsSpec(s[..|s| - 1]);
      var r := RStripDots(s[..|s| - 1]);
      assert s[..|s| - 1][..|r|] == s[..|r|];
    }
  }

  /** Two contents that differ only in trailing dots are the same content. */
  lemma {:induction false} RStripDotsIgnoresTrailingDot(s: string)
    ensures RStripDots(s + ".") == RStripDots(s)
  {
    assert (s + ".")[..|s + "."| - 1] == s;
  }

  /** The comparison of `find_record`: equal type, equal name, and equal
      content once trailing dots are removed from both sides. */
  predicate Matches(rec: ZoneRecord, recordType: string, fqdn: string, content: string) {
    rec.recordType == recordType && rec.name == fqdn && RStripDots(rec.content) == RStripDots(content)
  }

  /** The specification of `find_record`: the first matching record. */
  function FirstMatch(records: seq<ZoneRecord>, recordType: string, fqdn: string, content: string): Option<ZoneRecord> {
    match FirstIndex(records, rec => Matches(rec, recordType, fqdn, content))
    case None => None
    case Some(i) => Some(records[i])
  }

  /** `find_record`: scan the records in order and return the first match. */
  method FindRecord(records: seq<ZoneRecord>, recordType: string, fqdn: string, content: string)
    returns (found: Option<ZoneRecord>)
    ensures found.None? <==> forall j :: 0 <= j < |records| ==> !Matches(records[j], recordType, fqdn, content)
    ensures found.Some? ==> exists i :: 0 <= i < |records| && records[i] == found.value
                                        && Matches(records[i], recordType, fqdn, content)
                                        && forall j :: 0 <= j < i ==> !Matches(records[j], recordType, fqdn, content)
    ensures found == FirstMatch(records, recordType, fqdn, content)
  {
    var i := 0;
    while i < |records|
      invariant 0 <= i <= |records|
      invariant forall j :: 0 <= j < i ==> !Matches(records[j], recordType, fqdn, content)
    {
      if Matches(records[i], recordType, fqdn, content) {
        FirstIndexUnique(records, rec => Matches(rec, recordType, fqdn, content), i);
        return Some(records[i]);
      }
      i := i + 1;
    }
    return None;
  }

  /** The status line `upsert_record` returns: the record already existed,
      or it was created with the given payload. */
  datatype UpsertOutcome =
    | Exists(recordType: string, fqdn: string, content: string)
    | Created(record: ZoneRecord)

  /** The record `upsert_record` posts for a desired record. */
  function Payload(record: DesiredRecord, domain: string): ZoneRecord {
    ZoneRecord(record.recordType, FqdnFor(record.name, domain), record.content, record.ttl, record.proxied)
  }

  datatype UpsertStep = UpsertStep(records: seq<ZoneRecord>, outcome: UpsertOutcome)

  /** What one upsert does to a zone's records, as a function of them. */
  function UpsertSpec(records: seq<ZoneRecord>, record: DesiredRecord, domain: string): (r: UpsertStep)
    ensures r.outcome.Exists? <==> FirstMatch(records, record.recordType, FqdnFor(record.name, domain), record.content).Some?
    ensures r.outcome.Exists? ==> r.records == records
    ensures r.outcome.Created? ==> r.records == records + [Payload(record, domain)] && r.outcome.record == Payload(record, domain)
  {
    var fqdn := FqdnFor(record.name, domain);
    if FirstMatch(records, record.recordType, fqdn, record.content).Some? then
      UpsertStep(records, Exists(record.recordType, fqdn, record.content))
    else
      UpsertStep(records + [Payload(record, domain)], Created(Payload(record, domain)))
  }

  /** After an upsert, the zone holds a record matching the desired one. */
  lemma UpsertEstablishes(records: seq<ZoneRecord>, record: DesiredRecord, domain: string)
    ensures FirstMatch(UpsertSpec(records, record, domain).records,
                       record.recordType, FqdnFor(record.name, domain), record.content).Some?
  {
    var step := UpsertSpec(records, record, domain);
    var fqdn := FqdnFor(record.name, domain);
    var p := rec => Matches(rec, record.recordType, fqdn, record.content);
    if step.outcome.Created? {
      assert step.records[|records|] == Payload(record, domain);
      assert p(step.records[|records|]);
    }
  }

  /** An upsert never loses the match of another record. */
  lemma UpsertKeepsMatch(records: seq<ZoneRecord>, record: DesiredRecord, domain: string,
                         recordType: string, fqdn: string, content: string)
    requires FirstMatch(records, recordType, fqdn, content).Some?
    ensures FirstMatch(UpsertSpec(records, record, domain).records, recordType, fqdn, content)
            == FirstMatch(records, recordType, fqdn, content)
  {
    var step := UpsertSpec(records, record, domain);
    if step.outcome.Created? {
      FirstIndexAppend(records, Payload(record, domain), rec => Matches(rec, recordType, fqdn, content));
      var k := FirstIndex(records, rec => Matches(rec, recordType, fqdn, content)).value;
      assert step.records[k] == records[k];
    }
  }

  /** Idempotence of one upsert: repeating it reports "exists" and changes
      nothing. */
  lemma UpsertIdempotent(records: seq<ZoneRecord>, record: DesiredRecord, domain: string)
    ensures var once := UpsertSpec(records, record, domain);
            UpsertSpec(once.records, record, domain)
            == UpsertStep(once.records, Exists(record.recordType, FqdnFor(record.name, domain), record.content))
  {
    UpsertEstablishes(records, record, domain);
  }

  /** The records and outcomes after upserting each record of a plan in
      order, the way `main` walks `DESIRED`. */
  datatype PlanRun = PlanRun(records: seq<ZoneRecord>, outcomes: seq<UpsertOutcome>)

  function ApplyPlan(records: seq<ZoneRecord>, plan: seq<DesiredRecord>, domain: string): (r: PlanRun)
    ensures |r.outcomes| == |plan|
    decreases |plan|
  {
    if plan == [] then PlanRun(records, [])
    else
      var prior := ApplyPlan(records, plan[..|plan| - 1], domain);
      var step := UpsertSpec(prior.records, plan[|plan| - 1], domain);
      PlanRun(step.records, prior.outcomes + [step.outcome])
  }

  /** The zone already holds a record matching desired record `d`. */
  predicate Present(records: seq<ZoneRecord>, d: DesiredRecord, domain: string) {
    FirstMatch(records, d.recordType, FqdnFor(d.name, domain), d.content).Some?
  }

  /** One step of `ApplyPlan`: the last record of the plan is upserted
      into the records left by the others. */
  lemma ApplyPlanLast(records: seq<ZoneRecord>, plan: seq<DesiredRecord>, domain: string)
    requires plan != []
    ensures var prior := ApplyPlan(records, plan[..|plan| - 1], domain);
            var step := UpsertSpec(prior.records, plan[|plan| - 1], domain);
            ApplyPlan(records, plan, domain) == PlanRun(step.records, prior.outcomes + [step.outcome])
  {
  }

  /** The outcome of the i-th upsert reports the i-th record of the plan:
      its payload when created, its type, name and content when present. */
  lemma {:induction false} ApplyPlanOutcomes(records: seq<ZoneRecord>, plan: seq<DesiredRecord>, domain: string)
    ensures var run := ApplyPlan(records, plan, domain);
      forall i :: 0 <= i < |plan| ==> Reports(run.outcomes[i], plan[i], domain)
    decreases |plan|
  {
    if plan != [] {
      var init := plan[..|plan| - 1];
      ApplyPlanOutcomes(records, init, domain);
      ApplyPlanLast(records, plan, domain);
      var last := plan[|plan| - 1];
      var prior := ApplyPlan(records, init, domain);
      UpsertReports(prior.records, last, domain);
      ReportsSnoc(prior.outcomes, UpsertSpec(prior.records, last, domain).outcome, init, last, domain);
      InitLast(plan);
    }
  }

  /** Reporting each record of a plan survives one more upsert at its end. */
  lemma ReportsSnoc(outcomes: seq<UpsertOutcome>, o: UpsertOutcome, plan: seq<DesiredRecord>, d: DesiredRecord, domain: string)
    requires |outcomes| == |plan|
    requires forall i :: 0 <= i < |plan| ==> Reports(outcomes[i], plan[i], domain)
    requires Reports(o, d, domain)
    ensures forall i :: 0 <= i < |plan| + 1 ==> Reports((outcomes + [o])[i], (plan + [d])[i], domain)
  {
    forall i | 0 <= i < |plan| + 1 ensures Reports((outcomes + [o])[i], (plan + [d])[i], domain) {
      if i < |plan| {
        assert (outcomes + [o])[i] == outcomes[i] && (plan + [d])[i] == plan[i];
      }
    }
  }

  lemma UpsertReports(records: seq<ZoneRecord>, d: DesiredRecord, domain: string)
    ensures Reports(UpsertSpec(records, d, domain).outcome, d, domain)
  {
  }

  /** `outcome` is the status line of an upsert of `d`. */
  predicate Reports(outcome: UpsertOutcome, d: DesiredRecord, domain: string) {
    match outcome
    case Created(rec) => rec == Payload(d, domain)
    case Exists(t, fqdn, content) => t == d.recordType && fqdn == FqdnFor(d.name, domain) && content == d.content
  }

  /** A plan only appends: the old records stay in front, and the zone
      grows by exactly one record per "created" outcome. */
  lemma {:induction false} ApplyPlanAppends(records: seq<ZoneRecord>, plan: seq<DesiredRecord>, domain: string)
    ensures var run := ApplyPlan(records, plan, domain);
      && |run.records| == |records| + CreatedCount(run.outcomes)
      && run.records[..|records|] == records
    decreases |plan|
  {
    if plan != [] {
      var init := plan[..|plan| - 1];
      ApplyPlanAppends(records, init, domain);
      ApplyPlanLast(records, plan, domain);
      var prior := ApplyPlan(records, init, domain);
      var step := UpsertSpec(prior.records, plan[|plan| - 1], domain);
      CreatedCountSnoc(prior.outcomes, step.outcome);
      assert step.records[..|prior.records|] == prior.records;
      assert step.records[..|records|] == prior.records[..|records|];
    }
  }

  /** The number of "created" outcomes, that is of POSTs issued. */
  function CreatedCount(outcomes: seq<UpsertOutcome>): nat {
    if outcomes == [] then 0
    else (if outcomes[0].Created? then 1 else 0) + CreatedCount(outcomes[1..])
  }

  lemma {:induction false} CreatedCountSnoc(outcomes: seq<UpsertOutcome>, o: UpsertOutcome)
    ensures CreatedCount(outcomes + [o]) == CreatedCount(outcomes) + (if o.Created? then 1 else 0)
    decreases |outcomes|
  {
    if outcomes != [] {
      assert (outcomes + [o])[1..] == outcomes[1..] + [o];
      CreatedCountSnoc(outcomes[1..], o);
    }
  }

  /** After a plan has been applied, every record of the plan has a match. */
  lemma {:induction false} ApplyPlanEstablishes(records: seq<ZoneRecord>, plan: seq<DesiredRecord>, domain: string)
    ensures forall i :: 0 <= i < |plan| ==> Present(ApplyPlan(records, plan, domain).records, plan[i], domain)
    decreases |plan|
  {
    if plan != [] {
      var init := plan[..|plan| - 1];
      var last := plan[|plan| - 1];
      ApplyPlanEstablishes(records, init, domain);
      ApplyPlanLast(records, plan, domain);
      var prior := ApplyPlan(records, init, domain);
      PresentSnoc(prior.records, init, last, domain);
      InitLast(plan);
    }
  }

  /** Upserting one more record keeps the earlier records present and makes
      the new one present. */
  lemma PresentSnoc(records: seq<ZoneRecord>, plan: seq<DesiredRecord>, d: DesiredRecord, domain: string)
    requires forall i :: 0 <= i < |plan| ==> Present(records, plan[i], domain)
    ensures var after := UpsertSpec(records, d, domain).records;
      forall i :: 0 <= i < |plan| + 1 ==> Present(after, (plan + [d])[i], domain)
  {
    var after := UpsertSpec(records, d, domain).records;
    forall i | 0 <= i < |plan| + 1 ensures Present(after, (plan + [d])[i], domain) {
      if i < |plan| {
        var e := plan[i];
        assert (plan + [d])[i] == e && Present(records, e, domain);
        UpsertKeepsMatch(records, d, domain, e.recordType, FqdnFor(e.name, domain), e.content);
      } else {
        UpsertEstablishes(records, d, domain);
      }
    }
  }

  /** A plan whose every record already has a match changes nothing and
      reports "exists" for every record. */
  lemma {:induction false} ApplyPlanWhenPresent(records: seq<ZoneRecord>, plan: seq<DesiredRecord>, domain: string)
    requires forall i :: 0 <= i < |plan| ==> Present(records, plan[i], domain)
    ensures var run := ApplyPlan(records, plan, domain);
      run.records == records && forall i :: 0 <= i < |plan| ==> run.outcomes[i].Exists?
    decreases |plan|
  {
    if plan != [] {
      var init := plan[..|plan| - 1];
      assert forall i :: 0 <= i < |init| ==> init[i] == plan[i];
      ApplyPlanWhenPresent(records, init, domain);
      ApplyPlanLast(records, plan, domain);
      assert Present(records, plan[|plan| - 1], domain);
    }
  }

  /** Idempotence of the whole run: applying the plan a second time creates
      nothing and reports "exists" for every record. */
  lemma PlanIdempotent(records: seq<ZoneRecord>, plan: seq<DesiredRecord>, domain: string)
    ensures var once := ApplyPlan(records, plan, domain);
            var twice := ApplyPlan(once.records, plan, domain);
            twice.records == once.records && forall i :: 0 <= i < |plan| ==> twice.outcomes[i].Exists?
  {
    ApplyPlanEstablishes(records, plan, domain);
    ApplyPlanWhenPresent(ApplyPlan(records, plan, domain).records, plan, domain);
  }

  /** A zone's DNS records, which `upsert_record` reads in full
      (`list_records`) and extends by one POST when nothing matches. */
  class Zone {
    var records: seq<ZoneRecord>

    constructor (initial: seq<ZoneRecord>)
      ensures records == initial
    {
      records := initial;
    }

    /** `upsert_record`. */
    method Upsert(record: DesiredRecord, domain: string) returns (outcome: UpsertOutcome)
      modifies this
      ensures UpsertStep(records, outcome) == UpsertSpec(old(records), record, domain)
      ensures FirstMatch(old(records), record.recordType, FqdnFor(record.name, domain), record.content).Some? ==>
                records == old(records) && outcome == Exists(record.recordType, FqdnFor(record.name, domain), record.content)
      ensures FirstMatch(old(records), record.recordType, FqdnFor(record.name, domain), record.content).None? ==>
                records == old(records) + [Payload(record, domain)] && outcome == Created(Payload(record, domain))
    {
      var fqdn := FqdnFor(record.name, domain);
      var existing := records;
      var found := FindRecord(existing, record.recordType, fqdn, record.content);
      if found.Some? {
        return Exists(record.recordType, fqdn, record.content);
      }
      var payload := ZoneRecord(record.recordType, fqdn, record.content, record.ttl, record.proxied);
      records := records + [payload];
      outcome := Created(payload);
    }
  }

  const TokenVar: string := "CLOUDFLARE_API_TOKEN"
  const AccountIdVar: string := "CLOUDFLARE_ACCOUNT_ID"

  /** The command line: `--domain`, `--apply`, `--create-zone`. */
  datatype Args = Args(domain: string, apply: bool, createZone: bool)

  /** The provider's answer to the zone-creation request (`create_zone`):
      the new zone's id and nameservers, or `success` false with errors. */
  datatype CreateReply = CreateOk(zoneId: string, nameservers: seq<string>) | CreateRejected(errors: string)

  /** The requests `main` sends to the provider, in order. */
  datatype ApiCall =
    | GetZone(domain: string)
    | CreateZone(domain: string, accountId: string)
    | ListRecords(zoneId: string)
    | CreateRecord(zoneId: string, record: ZoneRecord)

  /** The lines `main` prints, as tagged events. */
  datatype Event =
    | MissingToken
    | PlanOnly
    | WouldUpsert(recordType: string, fqdn: string, content: string)
    | WouldCreateZone
    | ZoneNotFound(domain: string)
    | NeedCreateZoneFlag
    | MissingVariable(name: string)
    | DryRunCreateZone
    | ZoneCreated(zoneId: string, nameservers: seq<string>)
    | CreateZoneFailed(errors: string)
    | DryRunZone(zoneId: string)
    | Upserted(outcome: UpsertOutcome)
    | ParityEnsured

  /** The dry-run plan: one "would upsert" line per desired record. */
  function PlanLines(plan: seq<DesiredRecord>, domain: string): (r: seq<Event>)
    ensures |r| == |plan|
    ensures forall i :: 0 <= i < |plan| ==>
              r[i] == WouldUpsert(plan[i].recordType, FqdnFor(plan[i].name, domain), plan[i].content)
  {
    seq(|plan|, i requires 0 <= i < |plan| =>
      WouldUpsert(plan[i].recordType, FqdnFor(plan[i].name, domain), plan[i].content))
  }

  /** The dry-run plan previews what `--apply` does: the record each line
      names is present once the plan is applied, and the status line of the
      same upsert names the same type, name and content. */
  lemma PlanPreviewsApply(records: seq<ZoneRecord>, plan: seq<DesiredRecord>, domain: string)
    ensures var lines := PlanLines(plan, domain);
      var run := ApplyPlan(records, plan, domain);
      forall i :: 0 <= i < |plan| ==>
        && FirstMatch(run.records, lines[i].recordType, lines[i].fqdn, lines[i].content).Some?
        && (run.outcomes[i].Exists? ==>
              run.outcomes[i] == Exists(lines[i].recordType, lines[i].fqdn, lines[i].content))
        && (run.outcomes[i].Created? ==>
              && run.outcomes[i].record.recordType == lines[i].recordType
              && run.outcomes[i].record.name == lines[i].fqdn
              && run.outcomes[i].record.content == lines[i].content)
  {
    ApplyPlanEstablishes(records, plan, domain);
    ApplyPlanOutcomes(records, plan, domain);
  }

  function UpsertLines(outcomes: seq<UpsertOutcome>): (r: seq<Event>)
    ensures |r| == |outcomes|
  {
    seq(|outcomes|, i requires 0 <= i < |outcomes| => Upserted(outcomes[i]))
  }

  /** The requests of a run of upserts: each lists the records, and those
      that found no match post one record. */
  function UpsertCalls(zoneId: string, outcomes: seq<UpsertOutcome>): seq<ApiCall>
    decreases |outcomes|
  {
    if outcomes == [] then []
    else
      var last := outcomes[|outcomes| - 1];
      UpsertCalls(zoneId, outcomes[..|outcomes| - 1]) + [ListRecords(zoneId)]
        + (if last.Created? then [CreateRecord(zoneId, last.record)] else [])
  }

  /** The zone id with which `main` reaches the upsert loop, if it does:
      a token, `--apply`, and a zone that was found or has just been created. */
  function UpsertZone(env: Env, args: Args, found: Option<string>, reply: CreateReply): Option<string> {
    if !IsSet(env, TokenVar) || !args.apply then None
    else if found.Some? then found
    else if args.createZone && IsSet(env, AccountIdVar) && reply.CreateOk? then Some(reply.zoneId)
    else None
  }

  /** The apply loop of `main`: upsert every record of the plan (`DESIRED`
      in `main`), in order, each exactly once, printing each status line. */
  method UpsertAll(zone: Zone, zoneId: string, plan: seq<DesiredRecord>, domain: string)
    returns (events: seq<Event>, calls: seq<ApiCall>)
    modifies zone
    ensures var run := ApplyPlan(old(zone.records), plan, domain);
      && zone.records == run.records
      && events == UpsertLines(run.outcomes)
      && calls == UpsertCalls(zoneId, run.outcomes)
  {
    ghost var before := zone.records;
    var outcomes: seq<UpsertOutcome> := [];
    events, calls := [], [];
    for i := 0 to |plan|
      invariant ApplyPlan(before, plan[..i], domain) == PlanRun(zone.records, outcomes)
      invariant events == UpsertLines(outcomes)
      invariant calls == UpsertCalls(zoneId, outcomes)
    {
      ghost var prior := zone.records;
      var outcome := zone.Upsert(plan[i], domain);
      UpsertAllStep(before, plan, i, domain, prior, outcomes, outcome);
      UpsertLinesSnoc(outcomes, outcome);
      UpsertCallsSnoc(zoneId, outcomes, outcome);
      outcomes := outcomes + [outcome];
      events := events + [Upserted(outcome)];
      calls := calls + [ListRecords(zoneId)] + (if outcome.Created? then [CreateRecord(zoneId, outcome.record)] else []);
    }
    TakeAll(plan);
  }

  lemma UpsertLinesSnoc(outcomes: seq<UpsertOutcome>, o: UpsertOutcome)
    ensures UpsertLines(outcomes + [o]) == UpsertLines(outcomes) + [Upserted(o)]
  {
  }

  lemma UpsertCallsSnoc(zoneId: string, outcomes: seq<UpsertOutcome>, o: UpsertOutcome)
    ensures UpsertCalls(zoneId, outcomes + [o]) == UpsertCalls(zoneId, outcomes) + [ListRecords(zoneId)]
              + (if o.Created? then [CreateRecord(zoneId, o.record)] else [])
  {
    assert (outcomes + [o])[..|outcomes|] == outcomes;
  }

  lemma UpsertAllStep(before: seq<ZoneRecord>, plan: seq<DesiredRecord>, i: nat, domain: string,
                      prior: seq<ZoneRecord>, outcomes: seq<UpsertOutcome>, outcome: UpsertOutcome)
    requires i < |plan|
    requires ApplyPlan(before, plan[..i], domain) == PlanRun(prior, outcomes)
    ensures ApplyPlan(before, plan[..i + 1], domain)
            == PlanRun(UpsertSpec(prior, plan[i], domain).records, outcomes + [UpsertSpec(prior, plan[i], domain).outcome])
  {
    ApplyPlanLast(before, plan[..i + 1], domain);
    assert plan[..i + 1][..i] == plan[..i];
  }

  /** The zone step of `main` once a token is present: look the zone up;
      when it is missing, stop (status 1 without `--create-zone`, 2 without
      an account id, 0 on a dry run) or create it. On success the result is
      the id of the zone to work on. A rejected creation raises an uncaught
      `RuntimeError`, which ends the process with status 1. */
  method ResolveZone(env: Env, args: Args, found: Option<string>, reply: CreateReply)
    returns (zoneId: Option<string>, exit: int, events: seq<Event>, calls: seq<ApiCall>)
    ensures calls != [] && calls[0] == GetZone(args.domain)
    ensures found.Some? ==> zoneId == found && events == [] && calls == [GetZone(args.domain)]
    ensures found.None? && !args.createZone ==>
              zoneId.None? && exit == 1 && calls == [GetZone(args.domain)]
              && events == [ZoneNotFound(args.domain), NeedCreateZoneFlag]
    ensures found.None? && args.createZone && !IsSet(env, AccountIdVar) ==>
              zoneId.None? && exit == 2 && calls == [GetZone(args.domain)]
              && events == [ZoneNotFound(args.domain), MissingVariable(AccountIdVar)]
    ensures found.None? && args.createZone && IsSet(env, AccountIdVar) && !args.apply ==>
              zoneId.None? && exit == 0 && calls == [GetZone(args.domain)]
              && events == [ZoneNotFound(args.domain), DryRunCreateZone]
    ensures found.None? && args.createZone && IsSet(env, AccountIdVar) && args.apply ==>
              && calls == [GetZone(args.domain), CreateZone(args.domain, EnvValue(env, AccountIdVar))]
              && (reply.CreateOk? ==> zoneId == Some(reply.zoneId)
                                      && events == [ZoneNotFound(args.domain), ZoneCreated(reply.zoneId, reply.nameservers)])
              && (reply.CreateRejected? ==> zoneId.None? && exit == 1
                                            && events == [ZoneNotFound(args.domain), CreateZoneFailed(reply.errors)])
  {
    var lookup := GetZone(args.domain);
    var missing := ZoneNotFound(args.domain);
    if found.Some? {
      zoneId, exit, events, calls := found, 0, [], [lookup];
    } else if !args.createZone {
      zoneId, exit, events, calls := None, 1, [missing, NeedCreateZoneFlag], [lookup];
    } else {
      var accountId := RequiredEnv(env, AccountIdVar);
      if accountId.Failure? {
        zoneId, exit, events, calls := None, 2, [missing, MissingVariable(accountId.error)], [lookup];
      } else if !args.apply {
        zoneId, exit, events, calls := None, 0, [missing, DryRunCreateZone], [lookup];
      } else if reply.CreateRejected? {
        zoneId, exit, events, calls := None, 1, [missing, CreateZoneFailed(reply.errors)],
                                        [lookup, CreateZone(args.domain, accountId.value)];
      } else {
        zoneId, exit, events, calls := Some(reply.zoneId), 0, [missing, ZoneCreated(reply.zoneId, reply.nameservers)],
                                        [lookup, CreateZone(args.domain, accountId.value)];
      }
    }
  }

  /** `main`. `found` is the answer of the zone lookup (`get_zone_id`),
      `reply` the answer zone creation would get, `zone` the record store of
      the zone the run ends up using. */
  method Run(env: Env, args: Args, found: Option<string>, reply: CreateReply, zone: Zone)
    returns (exit: int, events: seq<Event>, calls: seq<ApiCall>)
    modifies zone
    ensures exit in {0, 1, 2}
    // Without a token: no request at all; 2 when apply was asked for, else 0.
    ensures !IsSet(env, TokenVar) ==> exit == (if args.apply then 2 else 0) && calls == []
    ensures !IsSet(env, TokenVar) && args.apply ==> events == [MissingToken]
    ensures !IsSet(env, TokenVar) && !args.apply ==>
              events == [PlanOnly] + PlanLines(Desired, args.domain) + (if args.createZone then [WouldCreateZone] else [])
    // With a token, the first request is the zone lookup.
    ensures IsSet(env, TokenVar) ==> calls != [] && calls[0] == GetZone(args.domain)
    ensures IsSet(env, TokenVar) && found.Some? && !args.apply ==>
              exit == 0 && calls == [GetZone(args.domain)] && events == [DryRunZone(found.value)] + PlanLines(Desired, args.domain)
    // A dry run sends nothing that changes state.
    ensures !args.apply ==> forall k :: 0 <= k < |calls| ==> calls[k].GetZone?
    // A missing zone: 1 without --create-zone, 2 without an account id,
    // 0 on a dry run, 1 when Cloudflare rejects the creation.
    ensures IsSet(env, TokenVar) && found.None? && !args.createZone ==>
              exit == 1 && calls == [GetZone(args.domain)]
              && events == [ZoneNotFound(args.domain), NeedCreateZoneFlag]
    ensures IsSet(env, TokenVar) && found.None? && args.createZone && !IsSet(env, AccountIdVar) ==>
              exit == 2 && calls == [GetZone(args.domain)]
              && events == [ZoneNotFound(args.domain), MissingVariable(AccountIdVar)]
    ensures IsSet(env, TokenVar) && found.None? && args.createZone && IsSet(env, AccountIdVar) && !args.apply ==>
              exit == 0 && calls == [GetZone(args.domain)]
              && events == [ZoneNotFound(args.domain), DryRunCreateZone]
    ensures IsSet(env, TokenVar) && found.None? && args.createZone && IsSet(env, AccountIdVar) && args.apply
            && reply.CreateRejected? ==>
              exit == 1 && calls == [GetZone(args.domain), CreateZone(args.domain, EnvValue(env, AccountIdVar))]
              && events == [ZoneNotFound(args.domain), CreateZoneFailed(reply.errors)]
    // The records change only in the upsert loop, which upserts DESIRED in order.
    ensures UpsertZone(env, args, found, reply).None? ==> zone.records == old(zone.records)
    ensures UpsertZone(env, args, found, reply).Some? ==>
              var zoneId := UpsertZone(env, args, found, reply).value;
              var run := ApplyPlan(old(zone.records), Desired, args.domain);
              && exit == 0
              && zone.records == run.records
              && calls == [GetZone(args.domain)]
                          + (if found.None? then [CreateZone(args.domain, EnvValue(env, AccountIdVar))] else [])
                          + UpsertCalls(zoneId, run.outcomes)
              && events == (if found.None? then [ZoneNotFound(args.domain), ZoneCreated(zoneId, reply.nameservers)] else [])
                           + UpsertLines(run.outcomes) + [ParityEnsured]
  {
    exit, events, calls := RunPlan(env, args, found, reply, zone, Desired);
  }

  /** `Run` over any record list in place of `DESIRED`. */
  method RunPlan(env: Env, args: Args, found: Option<string>, reply: CreateReply, zone: Zone, plan: seq<DesiredRecord>)
    returns (exit: int, events: seq<Event>, calls: seq<ApiCall>)
    modifies zone
    ensures exit in {0, 1, 2}
    // Without a token: no request at all; 2 when apply was asked for, else 0.
    ensures !IsSet(env, TokenVar) ==> exit == (if args.apply then 2 else 0) && calls == []
    ensures !IsSet(env, TokenVar) && args.apply ==> events == [MissingToken]
    ensures !IsSet(env, TokenVar) && !args.apply ==>
              events == [PlanOnly] + PlanLines(plan, args.domain) + (if args.createZone then [WouldCreateZone] else [])
    // With a token, the first request is the zone lookup.
    ensures IsSet(env, TokenVar) ==> calls != [] && calls[0] == GetZone(args.domain)
    ensures IsSet(env, TokenVar) && found.Some? && !args.apply ==>
              exit == 0 && calls == [GetZone(args.domain)] && events == [DryRunZone(found.value)] + PlanLines(plan, args.domain)
    // A dry run sends nothing that changes state.
    ensures !args.apply ==> forall k :: 0 <= k < |calls| ==> calls[k].GetZone?
    // A missing zone: 1 without --create-zone, 2 without an account id,
    // 0 on a dry run, 1 when Cloudflare rejects the creation.
    ensures IsSet(env, TokenVar) && found.None? && !args.createZone ==>
              exit == 1 && calls == [GetZone(args.domain)]
              && events == [ZoneNotFound(args.domain), NeedCreateZoneFlag]
    ensures IsSet(env, TokenVar) && found.None? && args.createZone && !IsSet(env, AccountIdVar) ==>
              exit == 2 && calls == [GetZone(args.domain)]
              && events == [ZoneNotFound(args.domain), MissingVariable(AccountIdVar)]
    ensures IsSet(env, TokenVar) && found.None? && args.createZone && IsSet(env, AccountIdVar) && !args.apply ==>
              exit == 0 && calls == [GetZone(args.domain)]
              && events == [ZoneNotFound(args.domain), DryRunCreateZone]
    ensures IsSet(env, TokenVar) && found.None? && args.createZone && IsSet(env, AccountIdVar) && args.apply
            && reply.CreateRejected? ==>
              exit == 1 && calls == [GetZone(args.domain), CreateZone(args.domain, EnvValue(env, AccountIdVar))]
              && events == [ZoneNotFound(args.domain), CreateZoneFailed(reply.errors)]
    // The records change only in the upsert loop, which upserts the plan in order.
    ensures UpsertZone(env, args, found, reply).None? ==> zone.records == old(zone.records)
    ensures UpsertZone(env, args, found, reply).Some? ==>
              var zoneId := UpsertZone(env, args, found, reply).value;
              var run := ApplyPlan(old(zone.records), plan, args.domain);
              && exit == 0
              && zone.records == run.records
              && calls == [GetZone(args.domain)]
                          + (if found.None? then [CreateZone(args.domain, EnvValue(env, AccountIdVar))] else [])
                          + UpsertCalls(zoneId, run.outcomes)
              && events == (if found.None? then [ZoneNotFound(args.domain), ZoneCreated(zoneId, reply.nameservers)] else [])
                           + UpsertLines(run.outcomes) + [ParityEnsured]
  {
    if !IsSet(env, TokenVar) {
      calls := [];
      if args.apply {
        exit, events := 2, [MissingToken];
      } else {
        exit, events := 0, [PlanOnly] + PlanLines(plan, args.domain) + (if args.createZone then [WouldCreateZone] else []);
      }
    } else {
      var zoneId;
      zoneId, exit, events, calls := ResolveZone(env, args, found, reply);
      if zoneId.Some? && !args.apply {
        exit, events := 0, events + [DryRunZone(zoneId.value)] + PlanLines(plan, args.domain);
      } else if zoneId.Some? {
        assert calls == [GetZone(args.domain)]
                        + (if found.None? then [CreateZone(args.domain, EnvValue(env, AccountIdVar))] else []);
        assert events == (if found.None? then [ZoneNotFound(args.domain), ZoneCreated(zoneId.value, reply.nameservers)] else []);
        var upserts, upsertCalls := UpsertAll(zone, zoneId.value, plan, args.domain);
        exit, events, calls := 0, events + upserts + [ParityEnsured], calls + upsertCalls;
      }
    }
  }
}
