# GitHub Pages DNS cutover tooling, modelled in Dafny

The repository holds six operator scripts that move the `northrootlabs.com`
site onto GitHub Pages. This project models their deterministic core and
proves properties of it:

- **Cloudflare DNS** (`cloudflare_dns.dfy`, module `CloudflareDns`). The
  table of desired records, `fqdn_for`, and the first-match `find_record`
  keyed on type, name and content, where trailing dots on the content are
  ignored. `upsert_record` works against a `Zone` object whose record list is
  a field: it appends one record only when nothing matches. `main` holds the
  token / zone / dry-run / apply policy and its exit codes.
- **Namecheap requests** (`registrar.dfy`, `namecheap_hosts.dfy`,
  `namecheap_nameservers.dfy`). Both Namecheap scripts carry identical copies
  of three things: `parse_domain`, the credential lookup, and the
  redaction / dry-run / apply policy of `main`. Module `Registrar` defines
  them once. `NamecheapHosts` builds the `setHosts` query, with numbered keys
  added in a loop. `NamecheapNameservers` builds the `setCustom` query.
- **Preflight** (`preflight.dfy`, module `Preflight`). The four provider
  checks run on a `Host` object. The host records every command it runs, and
  the installed tools, the environment and the command answers are part of
  its fixed `Machine`. Also covered: the `results` loop, the report, and the
  strict-mode exit policy.
- **Cutover verification** (`cutover.dfy`, module `Cutover`). The sorted
  NS and A listings and the three pass criteria, with the verdict and the
  exit status. The answers of `dig` and `curl` are inputs.
- **Public content scan** (`content_scan.dfy`, module `ContentScan`). Two
  ordered scans that stop at the first hit: secret patterns, then restricted
  terms in the lowered text. `index.html` must exist. Whether a regular
  expression matches is an input.

Shared modules:
- `Text` models the Python string operations the scripts use: `strip()` with
  its full set of whitespace characters, `in`, ASCII `lower()`, `split` and
  `join`.
- `Search` is first-match search and order-preserving filtering, the shape
  of every `for … if …: return/break` loop and every comprehension with an
  `if`.
- `Sorting` is `sorted()` on strings, an insertion sort in code-point order.
- `Environment` models `os.getenv(name, "").strip()` and `required_env`.
- `Wrappers` holds `Option` and `Result`.

Printed output is modelled as a sequence of tagged line events. For the
preflight checks and the content scan, a `Wording` function gives the exact
text of each message. Where a script returns an exit status, the model
returns it too.

The cutover check of the `www` CNAME tests `"github.io"` and then
`"northroot-labs.github.io"`. The second test is implied by the first
(`Cutover.PagesHostContainsSuffix`), so the criterion accepts any CNAME that
contains `github.io`. The model keeps that behaviour.

## Model

| member | source | states |
|---|---|---|
| Text.StripSpec | scripts/cloudflare_set_github_pages_dns.py:46 | `strip()` gives the middle of the string between an all-whitespace prefix and an all-whitespace suffix; the result is empty exactly when the string is all whitespace, otherwise it begins and ends with a non-whitespace character |
| Text.JoinSplit | scripts/namecheap_set_github_pages_dns.py:69 | joining the parts of `domain.split(".")` with `"."` gives back the domain |
| Text.SplitJoin | scripts/namecheap_set_custom_nameservers.py:47 | splitting a `join` of parts that hold no separator gives back the parts |
| Text.ContainsTransitive | scripts/verify_dns_cutover.py:50 | a substring of a substring is a substring |
| Text.LowerSlice | scripts/check_public_content.py:43 | lowering a slice is slicing the lowered string |
| Sorting.Sort | scripts/preflight_auth.py:172 | `sorted()` returns an ordered permutation of its input |
| Sorting.SortedUnique | scripts/verify_dns_cutover.py:32-33 | two sorted lists with the same elements are equal, so the sorted listing is determined by its elements |
| Search.FirstIndex | scripts/cloudflare_set_github_pages_dns.py:113-120 | the first index whose element satisfies the test, and none exactly when no element does |
| Search.FirstIndexUnique | scripts/check_public_content.py:37-40 | an index that satisfies the test, with no earlier index doing so, is the first index |
| Search.Filter | scripts/preflight_auth.py:118 | a comprehension with `if` keeps exactly the elements that pass, in their order (a subsequence) |
| Search.FilterCount | scripts/preflight_auth.py:118 | every element that passes is kept as often as it occurs in the input, and every other element not at all |
| Environment.IsSetIff | scripts/cloudflare_set_github_pages_dns.py:151-152 | a variable is set (present and not all whitespace) exactly when its stripped value is non-empty |
| Environment.RequiredEnv | scripts/cloudflare_set_github_pages_dns.py:45-49 | `required_env` fails, naming the variable, exactly when it is unset; otherwise it returns the stripped value |
| Environment.RequiredEnvValue | scripts/namecheap_set_github_pages_dns.py:24-28 | the failure happens exactly for an absent or all-whitespace variable; a returned value is a non-empty part of the variable's text with no whitespace at either end |
| CloudflareDns.FqdnForShape | scripts/cloudflare_set_github_pages_dns.py:103-104 | `@` gives the domain itself; any other label gives the label, a dot and the domain |
| CloudflareDns.RStripDotsSpec | scripts/cloudflare_set_github_pages_dns.py:117 | `rstrip(".")` removes exactly the longest all-dot suffix |
| CloudflareDns.RStripDotsIgnoresTrailingDot | scripts/cloudflare_set_github_pages_dns.py:117 | contents that differ by a trailing dot compare equal |
| CloudflareDns.FindRecord | scripts/cloudflare_set_github_pages_dns.py:107-120 | the loop returns the first record whose type and name are equal and whose content is equal up to trailing dots, and `None` exactly when no record matches |
| CloudflareDns.UpsertSpec | scripts/cloudflare_set_github_pages_dns.py:123-137 | with a match, the records are unchanged and the outcome is "exists"; without one, exactly the payload (type, fqdn, content, ttl 300, not proxied) is appended and the outcome is "created" |
| CloudflareDns.Zone.Upsert | scripts/cloudflare_set_github_pages_dns.py:123-137 | `upsert_record` on the zone object: its new records and outcome are those of `UpsertSpec` on the old records |
| CloudflareDns.UpsertEstablishes | scripts/cloudflare_set_github_pages_dns.py:123-137 | after an upsert the zone holds a record that matches the desired one |
| CloudflareDns.UpsertKeepsMatch | scripts/cloudflare_set_github_pages_dns.py:126-136 | an upsert keeps the first match of every other query |
| CloudflareDns.UpsertIdempotent | scripts/cloudflare_set_github_pages_dns.py:123-137 | upserting the same record twice: the second upsert reports "exists" and changes nothing |
| CloudflareDns.ApplyPlanOutcomes | scripts/cloudflare_set_github_pages_dns.py:193-195 | the i-th status line reports the i-th desired record |
| CloudflareDns.ApplyPlanAppends | scripts/cloudflare_set_github_pages_dns.py:193-195 | the apply loop only appends: the old records stay in front, and there is one new record per "created" outcome |
| CloudflareDns.ApplyPlanEstablishes | scripts/cloudflare_set_github_pages_dns.py:193-195 | after the loop every desired record has a match |
| CloudflareDns.ApplyPlanWhenPresent | scripts/cloudflare_set_github_pages_dns.py:193-195 | when every desired record already matches, the loop changes nothing and reports "exists" for each |
| CloudflareDns.PlanIdempotent | scripts/cloudflare_set_github_pages_dns.py:193-198 | a second apply run leaves the zone unchanged and reports "exists" for every record |
| CloudflareDns.UpsertAll | scripts/cloudflare_set_github_pages_dns.py:193-195 | the apply loop upserts the records in plan order, each exactly once; it prints each status line, and each upsert lists the records and then posts only on "created" |
| CloudflareDns.PlanPreviewsApply | scripts/cloudflare_set_github_pages_dns.py:157-158 | each "would upsert" line of the dry run names a record that is present once `--apply` has run the same plan, and the status line of that upsert names the same type, fqdn and content |
| CloudflareDns.ResolveZone | scripts/cloudflare_set_github_pages_dns.py:163-184 | the zone lookup comes first. A missing zone exits 1 without `--create-zone`. With `--create-zone` but no account id it exits 2, and a dry run exits 0. Otherwise the zone is created, and a rejected creation exits 1 |
| CloudflareDns.Run | scripts/cloudflare_set_github_pages_dns.py:140-198 | without a token no request is made, and the exit is 2 with `--apply`, else 0. A missing zone exits 1 without `--create-zone`, 2 without an account id, 0 on a dry run and 1 when the creation is rejected, each after the lookup only (or the lookup and the creation). A dry run sends only the lookup. Records change only in the apply loop, which runs `DESIRED` in order and exits 0 |
| CloudflareDns.RunPlan | scripts/cloudflare_set_github_pages_dns.py:140-198 | the same policy for any plan in place of `DESIRED` |
| Registrar.ParseDomain | scripts/namecheap_set_github_pages_dns.py:68-72 | fails, naming the domain, exactly when the domain holds no dot; otherwise returns two dot-free labels |
| Registrar.ParseDomainSuffix | scripts/namecheap_set_github_pages_dns.py:68-72 | the two labels are the last two: the domain is a prefix that is empty or ends in a dot, then `sld.tld` |
| Registrar.CommonParamsFailure | scripts/namecheap_set_github_pages_dns.py:31-37 | building the credentials fails exactly when one is unset, naming the first unset one in the fixed order |
| Registrar.CommonParamsSuccess | scripts/namecheap_set_github_pages_dns.py:31-37 | otherwise the map has exactly the four keys, each holding its variable's stripped value |
| Registrar.Redact | scripts/namecheap_set_github_pages_dns.py:99-100 | the printed copy has `ApiKey` masked as `***` and every other entry unchanged |
| Registrar.Submit | scripts/namecheap_set_github_pages_dns.py:92-117 | a configuration error exits 2 and sends nothing. Otherwise the redacted request is printed first. A dry run exits 0 and sends nothing. With `--apply` the unredacted request is sent: a failed call exits 1, and a response exits 0 and prints its first 500 characters (all of it when shorter) |
| NamecheapHosts.Decimal | scripts/namecheap_set_github_pages_dns.py:61-64 | `str(idx)` is a non-empty string of digits ending in the last digit, one character long exactly below 10 |
| NamecheapHosts.BuildSetHostsQuery | scripts/namecheap_set_github_pages_dns.py:51-65 | fails exactly when a credential is unset, naming the first. Otherwise the query has the credentials, the command and the domain parts, plus entry i of `host_payload` under the keys numbered i+1. That makes 27 keys and no others |
| NamecheapHosts.Run | scripts/namecheap_set_github_pages_dns.py:82-117 | a bad domain is reported before any credential is read; the built query, or its error, goes through the shared dry-run / apply policy |
| NamecheapNameservers.BuildQuerySpec | scripts/namecheap_set_custom_nameservers.py:38-49 | fails exactly when a credential is unset, naming the first. Otherwise the query has exactly eight keys: the credentials, the command, the domain parts and the comma-joined nameservers |
| NamecheapNameservers.NameserversRoundTrip | scripts/namecheap_set_custom_nameservers.py:47 | splitting the `Nameservers` value at commas gives back the nameservers, when none holds a comma |
| NamecheapNameservers.Run | scripts/namecheap_set_custom_nameservers.py:59-90 | exit 2 exactly on a bad domain or a missing credential, with nothing sent. Exit 0 exactly on a dry run or a successful call. Exit 1 exactly when the call fails. The request is sent exactly under `--apply`, and it joins the two `--ns` values with a comma. The outcome is that of `Registrar.Submit` on the built request |
| Preflight.Host.Run | scripts/preflight_auth.py:26-27 | running a command returns the machine's answer to it and appends it to the command log |
| Preflight.GithubResult | scripts/preflight_auth.py:34-47 | ready exactly when `gh` is installed and `gh auth status` returns 0, and then there are no details; a missing CLI gives "GitHub CLI missing" |
| Preflight.CheckGithub | scripts/preflight_auth.py:34-47 | the check returns `GithubResult`, and `gh auth status` runs exactly when `gh` is installed |
| Preflight.CheckCloudflare | scripts/preflight_auth.py:50-61 | ready exactly when the stripped `CLOUDFLARE_API_TOKEN` is non-empty, and then there are no details |
| Preflight.GcloudResult | scripts/preflight_auth.py:64-71 | a missing `gcloud` is never ready and is reported as "gcloud CLI missing" |
| Preflight.GcloudPriority | scripts/preflight_auth.py:84-108 | with the CLI installed, ready exactly when an active account, workload identity plus service account, or service-account JSON is present. The summary names the first of these that holds, and an active account also reports the project |
| Preflight.CheckGcloud | scripts/preflight_auth.py:64-108 | the check returns `GcloudResult` of what it observes; both `gcloud` commands run exactly when the CLI is installed |
| Preflight.MissingNamecheapExact | scripts/preflight_auth.py:118 | the missing list holds exactly the unset variables, in the fixed order |
| Preflight.CheckNamecheap | scripts/preflight_auth.py:111-128 | ready exactly when all four variables are set; otherwise the first detail lists the missing ones |
| Preflight.CheckersComplete | scripts/preflight_auth.py:131-136 | every provider is one of `CHECKERS` |
| Preflight.RunChecker | scripts/preflight_auth.py:158-159 | calling a provider's checker gives its result and runs only that checker's commands |
| Preflight.TabulateSpec | scripts/preflight_auth.py:157-159 | the dictionary filled in the loop maps each key to its value and holds no other key |
| Preflight.ResultsComplete | scripts/preflight_auth.py:156-159 | `results` holds every provider's result |
| Preflight.RunAll | scripts/preflight_auth.py:156-159 | the loop runs every checker in `CHECKERS` order, and the command log grows by exactly their commands |
| Preflight.PrintReport | scripts/preflight_auth.py:161-168 | the report prints, for each provider, its status line and then one line per detail |
| Preflight.ReportStatuses | scripts/preflight_auth.py:162-166 | one status line per provider, in the fixed order, each marked required exactly when the provider is required |
| Preflight.NotReadyIff | scripts/preflight_auth.py:170 | the list of required providers that are not ready is non-empty exactly when such a provider exists |
| Preflight.Run | scripts/preflight_auth.py:139-180 | every checker runs whatever `--require` says. The report and then the verdict line are printed. The exit is 1 exactly under `--strict` with a required provider not ready |
| Preflight.ExitPolicy | scripts/preflight_auth.py:170-180 | exit 1 exactly when strict and some required provider is not ready; the `FAIL` line then holds those names, sorted |
| Cutover.LinesSpec | scripts/verify_dns_cutover.py:32-33 | the listing is sorted, its lines are non-empty and free of line breaks, and it holds each non-empty piece of the output as often as it occurs and nothing else |
| Cutover.LinesExact | scripts/verify_dns_cutover.py:32-33 | a string is listed exactly when it is a non-empty line of the output |
| Cutover.Intersection | scripts/verify_dns_cutover.py:46 | the intersection with `EXPECTED_A` is empty exactly when no A record is a Pages address |
| Cutover.PagesHostContainsSuffix | scripts/verify_dns_cutover.py:50 | `northroot-labs.github.io` contains `github.io`, so the second CNAME test adds nothing |
| Cutover.Verdict | scripts/verify_dns_cutover.py:46-56 | all three checks are made; the failures are the violated criteria in order, and `ok` holds exactly when there are none |
| Cutover.FailuresFilter | scripts/verify_dns_cutover.py:46-56 | the failures are the criteria filtered by "violated", in check order |
| Cutover.FailuresExact | scripts/verify_dns_cutover.py:46-58 | a criterion is reported exactly when it is violated; there are no failures exactly when none is violated |
| Cutover.Listing | scripts/verify_dns_cutover.py:38-44 | the NS heading and records, then the A heading and records, then the CNAME or `(none)` |
| Cutover.Run | scripts/verify_dns_cutover.py:24-61 | the printed lines are the listing, one failure per violated criterion and `PASS` when there is none; the exit is 0 exactly when no criterion is violated, else 1 |
| ContentScan.Scan | scripts/check_public_content.py:35-45 | the two loops record the first matching pattern, if any, then the first term found in the lowered text, if any |
| ContentScan.FindingsShape | scripts/check_public_content.py:35-45 | at most two findings, a secret finding before a term finding. A pattern is recorded exactly when it is the first that matches, and a term exactly when it is the first contained in the lowered text. There are no findings exactly when nothing matches |
| ContentScan.TermsLowercase | scripts/check_public_content.py:19-25 | every restricted term is its own lowering |
| ContentScan.CaseInsensitive | scripts/check_public_content.py:43 | a term occurs in the lowered text exactly when some stretch of the text lowers to it, that is, for a lowercase term, when the text holds it in any casing |
| ContentScan.LowerIdempotent | scripts/check_public_content.py:43 | lowering twice is lowering once |
| ContentScan.TermFindingCaseBlind | scripts/check_public_content.py:43 | texts that lower to the same string give the same term finding |
| ContentScan.Run | scripts/check_public_content.py:28-54 | a missing `index.html` exits 1 with one line and nothing scanned. Otherwise the exit is 0 exactly when there are no findings, else 1, and each finding is listed |

## Left out

- Network calls are not modelled: `cf_request`, `urlopen`, `call_namecheap`, and the JSON decoding in `get_zone_id` and `create_zone`. Their answers are inputs: the zone lookup (`found`), the creation reply (`reply`) and the Namecheap answer (`api`).
- An HTTP error inside `upsert_record` raises `RuntimeError` and ends the Cloudflare script with status 1. The model lets every record request succeed.
- An HTTP error in `get_zone_id` or `list_records` also raises `RuntimeError` (`cf_request`, scripts/cloudflare_set_github_pages_dns.py:72-74) and exits 1. The model takes the lookup answer and the record list as always delivered.
- `list_records` asks for at most 100 records per page. The model treats the zone's whole record list as what `find_record` sees.
- `urllib.parse.urlencode` is not modelled. The printed request and the sent request are maps, so key order and percent-encoding are out of the model.
- `argparse` is not modelled: the parsed options are parameters. `--ns` taking exactly two values is the precondition of `NamecheapNameservers.Run`.
- Subprocesses and `shutil.which` are inputs: the `Machine` gives the installed tools, the environment and each command's answer.
- `verify_dns_cutover.py` uses `check_output`, which raises on a non-zero exit of `dig` or `curl`. That path (a traceback and status 1) is not modelled: `answer` always yields the output.
- Regular expressions are not interpreted. Whether a pattern matches is the input `search`; `Source` keeps each pattern's text.
- `str.lower()` is modelled for ASCII letters only. Unicode case mappings are not, including the ones that change a string's length.
- Reading `index.html` as UTF-8 is not modelled, so a decoding error is out of the model. The file is its text or absent.
- Printed text for the Cloudflare, Namecheap and cutover scripts is kept as tagged events with their data, not as the formatted strings.
- Cutover.Lines: the listing splits at each of the ten line-break characters of `str.splitlines()` and drops empty pieces. That keeps the same non-empty lines as `splitlines()`, but the model states this equivalence and does not prove it.
- Preflight.NotReady: the source iterates over the `required` set, whose order Python does not fix. The model takes `CHECKERS` order instead. Only emptiness and the sorted names are printed, and those do not depend on the order.
- `Preflight.CheckGcloud` reads `active.stdout or ""`. The model treats the captured output as always a string, never `None`.
- NamecheapHosts.AddHostStep: the step lemma assumes at most eight host entries, so that every index is one digit. `host_payload` has five.
- CloudflareDns.RunPlan generalises `main` to any record list in place of `DESIRED`. `CloudflareDns.Run` fixes it to `DESIRED`.
