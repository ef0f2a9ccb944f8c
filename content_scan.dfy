/** `check_public_content.py`: the scan of the landing page for secrets
    and restricted terms. Each list is tried in order and its scan stops at
    the first hit, so each contributes at most one finding. The regular
    expressions are not interpreted: whether a pattern matches the text is
    the input `search`. */
module ContentScan {
  import opened Wrappers
  import opened Text
  import opened Search

  /** `SECRET_PATTERNS`, one tag per compiled expression. */
  datatype SecretPattern = GithubPat | GithubOauth | AwsAccessKey | ApiKeyAssignment

  /** The text of each expression (`pattern.pattern`). */
  function Source(p: SecretPattern): string {
    match p
    case GithubPat => "\\bghp_[A-Za-z0-9]{20,}\\b"
    case GithubOauth => "\\bgho_[A-Za-z0-9]{20,}\\b"
    case AwsAccessKey => "\\bAKIA[0-9A-Z]{16}\\b"
    case ApiKeyAssignment => "(?i)\\bapi[_-]?key\\s*[:=]\\s*[A-Za-z0-9_\\-]{8,}"
  }

  const SecretPatterns: seq<SecretPattern> := [GithubPat, GithubOauth, AwsAccessKey, ApiKeyAssignment]

  /** `RESTRICTED_TERMS`. */
  const RestrictedTerms: seq<string> :=
    ["internal-only", "confidential", "restricted", "private runbook", "incident response"]

  /** `pattern.search(text)` is truthy: the expression matches somewhere. */
  type Matcher = (SecretPattern, string) -> bool

  /** One entry of `errors`. */
  datatype Finding = SecretMatch(pattern: SecretPattern) | RestrictedTerm(term: string)

  /** The text `main` prints for a finding. */
  function Wording(f: Finding): string {
    match f
    case SecretMatch(p) => "index.html: matched secret pattern " + Source(p)
    case RestrictedTerm(t) => "index.html: matched restricted term '" + t + "'"
  }

  function MatchesIn(search: Matcher, text: string): SecretPattern -> bool {
    (p: SecretPattern) => search(p, text)
  }

  function OccursIn(lowered: string): string -> bool {
    (t: string) => Contains(lowered, t)
  }

  /** What the first loop records: the first pattern that matches, if any. */
  function SecretFinding(search: Matcher, text: string, patterns: seq<SecretPattern>): seq<Finding> {
    match FirstIndex(patterns, MatchesIn(search, text))
    case None => []
    case Some(i) => [SecretMatch(patterns[i])]
  }

  /** What the second loop records: the first term that occurs in the
      lowered text, if any. */
  function TermFinding(text: string, terms: seq<string>): seq<Finding> {
    match FirstIndex(terms, OccursIn(Lower(text)))
    case None => []
    case Some(i) => [RestrictedTerm(terms[i])]
  }

  /** The two loops of `main` over the given lists: each appends its first
      hit and breaks. */
  method Scan(search: Matcher, text: string, patterns: seq<SecretPattern>, terms: seq<string>)
    returns (errors: seq<Finding>)
    ensures errors == SecretFinding(search, text, patterns) + TermFinding(text, terms)
  {
    errors := [];
    for i := 0 to |patterns|
      invariant errors == []
      invariant forall j :: 0 <= j < i ==> !search(patterns[j], text)
    {
      if search(patterns[i], text) {
        FirstIndexUnique(patterns, MatchesIn(search, text), i);
        errors := [SecretMatch(patterns[i])];
        break;
      }
    }
    assert errors == SecretFinding(search, text, patterns);
    ghost var secrets := errors;
    for i := 0 to |terms|
      invariant errors == secrets
      invariant forall j :: 0 <= j < i ==> !Contains(Lower(text), terms[j])
    {
      if Contains(Lower(text), terms[i]) {
        FirstIndexUnique(terms, OccursIn(Lower(text)), i);
        errors := errors + [RestrictedTerm(terms[i])];
        break;
      }
    }
  }

  /** The findings of the page `text`. */
  function Findings(search: Matcher, text: string): seq<Finding> {
    SecretFinding(search, text, SecretPatterns) + TermFinding(text, RestrictedTerms)
  }

  /** At most one secret finding, naming the first pattern that matches,
      then at most one term finding, naming the first term that occurs in
      the lowered text; nothing is found exactly when nothing matches. */
  lemma {:induction false} FindingsShape(search: Matcher, text: string, patterns: seq<SecretPattern>, terms: seq<string>)
    ensures var r := SecretFinding(search, text, patterns) + TermFinding(text, terms);
      && |r| <= 2
      && (forall i, j :: 0 <= i < j < |r| ==> r[i].SecretMatch? && r[j].RestrictedTerm?)
      && (forall p :: SecretMatch(p) in r <==>
            exists k :: 0 <= k < |patterns| && patterns[k] == p && search(p, text)
                        && forall j :: 0 <= j < k ==> !search(patterns[j], text))
      && (forall t :: RestrictedTerm(t) in r <==>
            exists k :: 0 <= k < |terms| && terms[k] == t && Contains(Lower(text), t)
                        && forall j :: 0 <= j < k ==> !Contains(Lower(text), terms[j]))
      && (r == [] <==> (forall k :: 0 <= k < |patterns| ==> !search(patterns[k], text))
                       && (forall k :: 0 <= k < |terms| ==> !Contains(Lower(text), terms[k])))
  {
    var s := SecretFinding(search, text, patterns);
    var t := TermFinding(text, terms);
    var r := s + t;
    var fs := FirstIndex(patterns, MatchesIn(search, text));
    var ft := FirstIndex(terms, OccursIn(Lower(text)));
    assert |s| <= 1 && forall i :: 0 <= i < |s| ==> s[i].SecretMatch?;
    assert |t| <= 1 && forall i :: 0 <= i < |t| ==> t[i].RestrictedTerm?;
    forall p
      ensures SecretMatch(p) in r <==>
        exists k :: 0 <= k < |patterns| && patterns[k] == p && search(p, text)
                    && forall j :: 0 <= j < k ==> !search(patterns[j], text)
    {
      assert SecretMatch(p) in r <==> SecretMatch(p) in s;
      if ek: nat :| ek < |patterns| && patterns[ek] == p && search(p, text)
                    && forall j :: 0 <= j < ek ==> !search(patterns[j], text) {
        FirstIndexUnique(patterns, MatchesIn(search, text), ek);
      }
    }
    forall u
      ensures RestrictedTerm(u) in r <==>
        exists k :: 0 <= k < |terms| && terms[k] == u && Contains(Lower(text), u)
                    && forall j :: 0 <= j < k ==> !Contains(Lower(text), terms[j])
    {
      assert RestrictedTerm(u) in r <==> RestrictedTerm(u) in t;
      if ek: nat :| ek < |terms| && terms[ek] == u && Contains(Lower(text), u)
                    && forall j :: 0 <= j < ek ==> !Contains(Lower(text), terms[j]) {
        FirstIndexUnique(terms, OccursIn(Lower(text)), ek);
      }
    }
  }

  /** Every restricted term is already lowercase. */
  lemma TermsLowercase()
    ensures forall k :: 0 <= k < |RestrictedTerms| ==> Lower(RestrictedTerms[k]) == RestrictedTerms[k]
  {
    forall k | 0 <= k < |RestrictedTerms|
      ensures Lower(RestrictedTerms[k]) == RestrictedTerms[k]
    {
      LowerOfLowercase(RestrictedTerms[k]);
    }
  }

  /** A string without ASCII capitals is its own lowering. */
  lemma LowerOfLowercase(s: string)
    requires forall i :: 0 <= i < |s| ==> !('A' <= s[i] <= 'Z')
    ensures Lower(s) == s
  {
  }

  /** Lowering twice is lowering once. */
  lemma LowerIdempotent(s: string)
    ensures Lower(Lower(s)) == Lower(s)
  {
    assert forall i :: 0 <= i < |s| ==> LowerChar(LowerChar(s[i])) == LowerChar(s[i]);
  }

  /** The stretch of `text` at `i` is `term` in some casing. */
  predicate SpelledAt(text: string, term: string, i: int) {
    0 <= i <= |text| - |term| && Lower(text[i..i + |term|]) == term
  }

  /** A term occurs in the lowered text exactly when some stretch of the
      text lowers to it: for a lowercase term, when the text holds it in any
      casing. */
  lemma CaseInsensitive(text: string, term: string)
    ensures Contains(Lower(text), term) <==> exists i :: SpelledAt(text, term, i)
  {
    if i :| SpelledAt(text, term, i) {
      LowerSlice(text, i, i + |term|);
      assert OccursAt(Lower(text), term, i);
    }
    if Contains(Lower(text), term) {
      var i :| 0 <= i <= |Lower(text)| && OccursAt(Lower(text), term, i);
      LowerSlice(text, i, i + |term|);
      assert SpelledAt(text, term, i);
    }
  }

  /** Any two texts that lower to the same string give the same term finding:
      changing the case of the page does not change it. */
  lemma TermFindingCaseBlind(text: string, other: string, terms: seq<string>)
    requires Lower(other) == Lower(text)
    ensures TermFinding(other, terms) == TermFinding(text, terms)
    ensures TermFinding(Lower(text), terms) == TermFinding(text, terms)
  {
    LowerIdempotent(text);
  }

  /** The printed lines of `main`, as tagged events. */
  datatype Line = IndexRequired | ChecksFailed | Problem(finding: Finding) | ChecksPassed

  /** `main`: `index` is the content of `index.html`, or `None` when the
      file does not exist, in which case nothing is scanned and the exit
      status is 1. Otherwise the findings are listed and the exit status is
      0 exactly when there are none. */
  method Run(index: Option<string>, search: Matcher) returns (exit: int, lines: seq<Line>)
    ensures index.None? ==> exit == 1 && lines == [IndexRequired]
    ensures index.Some? ==>
      var f := Findings(search, index.value);
      && exit == (if f == [] then 0 else 1)
      && lines == (if f == [] then [ChecksPassed]
                   else [ChecksFailed] + seq(|f|, i requires 0 <= i < |f| => Problem(f[i])))
  {
    if index.None? {
      exit := 1;
      lines := [IndexRequired];
      return;
    }
    var text := index.value;
    var errors := Scan(search, text, SecretPatterns, RestrictedTerms);
    if errors != [] {
      lines := [ChecksFailed];
      for i := 0 to |errors|
        invariant lines == [ChecksFailed] + seq(i, k requires 0 <= k < i => Problem(errors[k]))
      {
        lines := lines + [Problem(errors[i])];
      }
      exit := 1;
      return;
    }
    lines := [ChecksPassed];
    exit := 0;
  }
}
