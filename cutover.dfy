/** `verify_dns_cutover.py`: the NS and A answers as sorted lists of
    non-empty lines, the three pass criteria of a GitHub Pages cutover, and
    the verdict. The answers of `dig` and `curl` are inputs. */
module Cutover {
  import opened Text
  import opened Search
  import opened Sorting

  /** `EXPECTED_A`: the apex addresses of GitHub Pages. */
  const ExpectedA: set<string> := {"185.199.108.153", "185.199.109.153", "185.199.110.153", "185.199.111.153"}

  /** The characters at which Python's `str.splitlines()` breaks a line. */
  const LineBreaks: set<char> := {
    '\n', '\r', '\U{000B}', '\U{000C}', '\U{001C}', '\U{001D}', '\U{001E}', '\U{0085}', '\U{2028}', '\U{2029}'
  }

  /** The test of the comprehensions in `main`. */
  const NonEmpty: string -> bool := (x: string) => x != ""

  /** `sorted([x for x in out.splitlines() if x])`. Splitting at every break
      character and dropping the empty pieces keeps the same lines as
      `splitlines()` does (a two-character `\r\n` yields one more empty piece,
      which is dropped). */
  function Lines(out: string): seq<string> {
    Sort(Filter(Split(out, LineBreaks), NonEmpty))
  }

  /** The listed lines are sorted, non-empty, free of line breaks, and are
      the non-empty pieces of the output, each as often as it occurs. */
  lemma LinesSpec(out: string)
    ensures var r := Lines(out);
      && Sorted(r)
      && (forall i :: 0 <= i < |r| ==> r[i] != "" && !HasAny(r[i], LineBreaks))
      && multiset(r) == multiset(Filter(Split(out, LineBreaks), NonEmpty))
      && forall x :: multiset(r)[x] == if x != "" then multiset(Split(out, LineBreaks))[x] else 0
  {
    var pieces := Split(out, LineBreaks);
    var kept := Filter(pieces, NonEmpty);
    var r := Sort(kept);
    forall x
      ensures multiset(r)[x] == if x != "" then multiset(pieces)[x] else 0
    {
      FilterCount(pieces, NonEmpty, x);
    }
    forall i | 0 <= i < |r|
      ensures r[i] != "" && !HasAny(r[i], LineBreaks)
    {
      assert r[i] in multiset(kept);
      var j :| 0 <= j < |kept| && kept[j] == r[i];
      assert NonEmpty(kept[j]);
      var k :| 0 <= k < |pieces| && pieces[k] == kept[j];
    }
  }

  /** A line is listed exactly when it is a non-empty line of the output. */
  lemma LinesExact(out: string, x: string)
    ensures x in Lines(out) <==> x != "" && x in Split(out, LineBreaks)
  {
    var pieces := Split(out, LineBreaks);
    var kept := Filter(pieces, NonEmpty);
    LinesSpec(out);
    assert x in Lines(out) <==> x in multiset(kept);
    if x != "" && x in pieces {
      var k :| 0 <= k < |pieces| && pieces[k] == x;
      assert NonEmpty(pieces[k]);
    }
    if x in kept {
      var j :| 0 <= j < |kept| && kept[j] == x;
      assert NonEmpty(kept[j]);
    }
  }

  /** The three pass criteria, in the order `main` checks them. */
  datatype Criterion = ApexOnPages | WwwOnPages | NotForwarded

  const Criteria: seq<Criterion> := [ApexOnPages, WwwOnPages, NotForwarded]

  /** What the criteria look at: the sorted A records, the `www` CNAME and
      the response headers of the apex. */
  datatype Observed = Observed(a: seq<string>, cname: string, headers: string)

  /** When each criterion is violated, in the simplest terms. */
  predicate Violated(c: Criterion, o: Observed) {
    match c
    case ApexOnPages => forall x :: x in o.a ==> x !in ExpectedA
    case WwwOnPages => !Contains(o.cname, "github.io")
    case NotForwarded => Contains(o.headers, "Namecheap URL Forward") || Contains(Lower(o.headers), "parking")
  }

  /** `set(xs).intersection(s)`. */
  function Intersection(xs: seq<string>, s: set<string>): (r: set<string>)
    ensures r == {} <==> forall x :: x in xs ==> x !in s
  {
    var r := (set x | x in xs) * s;
    assert r == {} <== forall x :: x in xs ==> x !in s;
    assert r == {} ==> forall x :: x in xs ==> x !in s by {
      if x :| x in xs && x in s {
        assert x in r;
      }
    }
    r
  }

  function ViolatedBy(o: Observed): Criterion -> bool {
    (c: Criterion) => Violated(c, o)
  }

  /** The second name `main` accepts for `www` already contains the first. */
  lemma PagesHostContainsSuffix()
    ensures Contains("northroot-labs.github.io", "github.io")
  {
    assert "northroot-labs.github.io"[15..24] == "github.io";
    assert OccursAt("northroot-labs.github.io", "github.io", 15);
  }

  /** The three checks of `main`, each setting `ok` to false and reporting a
      failure when its criterion is violated. Every check is made; the
      failures are the violated criteria, in order. */
  method Verdict(o: Observed) returns (ok: bool, failures: seq<Criterion>)
    ensures failures == Failures(o)
    ensures ok <==> failures == []
  {
    ok := true;
    failures := [];
    if Intersection(o.a, ExpectedA) == {} {
      failures := failures + [ApexOnPages];
      ok := false;
    }
    if !Contains(o.cname, "github.io") && !Contains(o.cname, "northroot-labs.github.io") {
      failures := failures + [WwwOnPages];
      ok := false;
    }
    assert (!Contains(o.cname, "github.io") && !Contains(o.cname, "northroot-labs.github.io")) <==> Violated(WwwOnPages, o) by {
      if Contains(o.cname, "northroot-labs.github.io") {
        PagesHostContainsSuffix();
        ContainsTransitive(o.cname, "northroot-labs.github.io", "github.io");
      }
    }
    if Contains(o.headers, "Namecheap URL Forward") || Contains(Lower(o.headers), "parking") {
      failures := failures + [NotForwarded];
      ok := false;
    }
  }

  /** The violated criteria, in the order of `Criteria`. */
  function Failures(o: Observed): seq<Criterion> {
    (if Violated(ApexOnPages, o) then [ApexOnPages] else [])
      + (if Violated(WwwOnPages, o) then [WwwOnPages] else [])
      + (if Violated(NotForwarded, o) then [NotForwarded] else [])
  }

  /** They are the criteria that are violated, kept in order. */
  lemma FailuresFilter(o: Observed)
    ensures Failures(o) == Filter(Criteria, ViolatedBy(o))
  {
    FilterThree(ApexOnPages, WwwOnPages, NotForwarded, ViolatedBy(o));
  }

  /** A criterion is reported exactly when it is violated, and the checks
      pass exactly when none is. */
  lemma FailuresExact(o: Observed)
    ensures forall c :: c in Failures(o) <==> Violated(c, o)
    ensures Failures(o) == [] <==> forall c :: !Violated(c, o)
  {
  }

  /** The commands `main` runs, each through `run`. */
  datatype Query = DigNs(name: string) | DigA(name: string) | DigCname(name: string) | CurlHead(url: string)

  /** The printed lines of `main`, as tagged events. */
  datatype Line =
    | NsHeading
    | AHeading
    | Item(text: string)
    | CnameShown(text: string)
    | Fail(criterion: Criterion)
    | Pass

  function Items(xs: seq<string>): (r: seq<Line>)
    ensures |r| == |xs|
    ensures forall i :: 0 <= i < |xs| ==> r[i] == Item(xs[i])
  {
    seq(|xs|, i requires 0 <= i < |xs| => Item(xs[i]))
  }

  /** The name whose CNAME is checked. */
  function Www(domain: string): string {
    "www." + domain
  }

  /** The listing `main` prints before its checks: the NS records, the A
      records and the `www` CNAME, shown as `(none)` when empty. */
  method Listing(ns: seq<string>, aRecords: seq<string>, cname: string) returns (lines: seq<Line>)
    ensures lines == [NsHeading] + Items(ns) + [AHeading] + Items(aRecords)
                     + [CnameShown(if cname == "" then "(none)" else cname)]
  {
    lines := [NsHeading];
    for i := 0 to |ns|
      invariant lines == [NsHeading] + Items(ns[..i])
    {
      lines := lines + [Item(ns[i])];
    }
    TakeAll(ns);
    lines := lines + [AHeading];
    ghost var listed := lines;
    for i := 0 to |aRecords|
      invariant lines == listed + Items(aRecords[..i])
    {
      lines := lines + [Item(aRecords[i])];
    }
    TakeAll(aRecords);
    lines := lines + [CnameShown(if cname == "" then "(none)" else cname)];
  }

  /** `main`: `answer` gives each command's output, which `run` strips. The
      lists are printed, then a failure per violated criterion, and the exit
      status is 0 exactly when none is violated. */
  method Run(domain: string, answer: Query -> string) returns (exit: int, lines: seq<Line>)
    ensures var ns := Lines(Strip(answer(DigNs(domain))));
      var o := Observed(Lines(Strip(answer(DigA(domain)))), Strip(answer(DigCname(Www(domain)))),
                        Strip(answer(CurlHead("http://" + domain + "/"))));
      var failures := Failures(o);
      && lines == [NsHeading] + Items(ns) + [AHeading] + Items(o.a)
                  + [CnameShown(if o.cname == "" then "(none)" else o.cname)]
                  + seq(|failures|, i requires 0 <= i < |failures| => Fail(failures[i]))
                  + (if failures == [] then [Pass] else [])
      && (exit == 0 <==> forall c :: !Violated(c, o))
      && (exit != 0 ==> exit == 1)
  {
    var www := Www(domain);
    var ns := Lines(Strip(answer(DigNs(domain))));
    var aRecords := Lines(Strip(answer(DigA(domain))));
    var cname := Strip(answer(DigCname(www)));
    var headers := Strip(answer(CurlHead("http://" + domain + "/")));
    lines := Listing(ns, aRecords, cname);
    var o := Observed(aRecords, cname, headers);
    var ok, failures := Verdict(o);
    lines := lines + seq(|failures|, i requires 0 <= i < |failures| => Fail(failures[i]));
    FailuresExact(o);
    if ok {
      lines := lines + [Pass];
      exit := 0;
    } else {
      exit := 1;
    }
  }
}
